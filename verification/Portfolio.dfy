/** The lab run over a candle window (run_lab_backtest): cleaning the
    series, running every asset, merging the returns by time, and the two-leg mode's join. */
module Portfolio {
  import opened TextOrder
  import opened RealMath
  import opened StrategySpecs
  import opened StableSorting
  import opened DailyEngine
  import opened CrossSectional
  import Metrics

  // ------------------------------------------------------------------- cleaned series

  /** Bars with a positive close, in order. */
  function CleanSeries(rows: seq<Bar>): (bars: seq<Bar>)
    ensures forall i :: 0 <= i < |bars| ==> bars[i].close > 0.0
  {
    if rows == [] then []
    else
      var last := rows[|rows| - 1];
      CleanSeries(rows[..|rows| - 1]) + if last.close > 0.0 then [last] else []
  }

  function AssetSeries(window: map<string, seq<Bar>>, asset: string): (bars: seq<Bar>)
    ensures Positive(Closes(bars))
  {
    CleanSeries(if asset in window then window[asset] else [])
  }

  /** Fewest bars over the requested assets. */
  function MinCount(window: map<string, seq<Bar>>, assets: seq<string>): (count: nat)
    requires assets != []
    ensures forall a :: a in assets ==> count <= |AssetSeries(window, a)|
    ensures exists a :: a in assets && count == |AssetSeries(window, a)|
  {
    var last := assets[|assets| - 1];
    assert assets == assets[..|assets| - 1] + [last];
    if |assets| == 1 then |AssetSeries(window, last)|
    else
      var rest := MinCount(window, assets[..|assets| - 1]);
      if |AssetSeries(window, last)| < rest then |AssetSeries(window, last)| else rest
  }

  // ------------------------------------------------------------------ merging returns

  /** An asset's bar returns with the times of the bars that earned them. */
  function TimedReturns(spec: StrategySpec, bars: seq<Bar>, minCount: nat): (items: seq<Timed<real>>)
    requires spec.Valid() && Positive(Closes(bars)) && bars != []
  {
    var earned := Run(spec, Closes(bars), minCount).dailyReturns;
    seq(|bars| - 1, i requires 0 <= i < |bars| - 1 => Timed(bars[i + 1].ts, earned[i]))
  }

  /** All assets' returns, asset after asset. */
  function Combined(spec: StrategySpec, window: map<string, seq<Bar>>, assets: seq<string>,
        minCount: nat): seq<Timed<real>>
    requires spec.Valid() && forall a :: a in assets ==> AssetSeries(window, a) != []
  {
    if assets == [] then []
    else
      var last := assets[|assets| - 1];
      Combined(spec, window, assets[..|assets| - 1], minCount)
      + TimedReturns(spec, AssetSeries(window, last), minCount)
  }

  /** The product of the assets' own final factors. */
  function FactorProduct(spec: StrategySpec, window: map<string, seq<Bar>>, assets: seq<string>, minCount: nat): real
    requires spec.Valid() && forall a :: a in assets ==> AssetSeries(window, a) != []
  {
    if assets == [] then 1.0
    else
      var last := assets[|assets| - 1];
      FactorProduct(spec, window, assets[..|assets| - 1], minCount)
      * Compound(Run(spec, Closes(AssetSeries(window, last)), minCount).dailyReturns)
  }

  lemma TimedReturnsValues(spec: StrategySpec, bars: seq<Bar>, minCount: nat)
    requires spec.Valid() && Positive(Closes(bars)) && bars != []
    ensures Values(TimedReturns(spec, bars, minCount)) == Run(spec, Closes(bars), minCount).dailyReturns
  {
    hide After, RunSignals;
  }

  lemma {:induction false} CombinedFactor(spec: StrategySpec, window: map<string, seq<Bar>>,
        assets: seq<string>, minCount: nat)
    requires spec.Valid() && forall a :: a in assets ==> AssetSeries(window, a) != []
    ensures Compound(Values(Combined(spec, window, assets, minCount))) == FactorProduct(spec, window, assets, minCount)
  {
    hide Run, TimedReturns, AssetSeries, Compound, Values;
    if assets == [] {
      CompoundEmpty();
      assert Values(Combined(spec, window, assets, minCount)) == [];
    } else {
      var init, last := assets[..|assets| - 1], assets[|assets| - 1];
      CombinedFactor(spec, window, init, minCount);
      TimedReturnsValues(spec, AssetSeries(window, last), minCount);
      ValuesConcat(Combined(spec, window, init, minCount), TimedReturns(spec, AssetSeries(window, last), minCount));
      CompoundConcat(Values(Combined(spec, window, init, minCount)),
                     Run(spec, Closes(AssetSeries(window, last)), minCount).dailyReturns);
    }
  }

  /** Conservation: merging by time permutes the returns, so the portfolio's total factor is the
      product of the assets' factors, whatever the bars and however their times tie. */
  lemma MergedFactorIsProduct(spec: StrategySpec, window: map<string, seq<Bar>>, assets: seq<string>, minCount: nat)
    requires spec.Valid() && forall a :: a in assets ==> AssetSeries(window, a) != []
    ensures var merged := Values(SortByTime(Combined(spec, window, assets, minCount)));
            && multiset(merged) == multiset(Values(Combined(spec, window, assets, minCount)))
            && Compound(merged) == FactorProduct(spec, window, assets, minCount)
  {
    hide Compound, Combined, FactorProduct;
    var items := Combined(spec, window, assets, minCount);
    SortIsStable(items, 0);
    ValuesOfPermutation(SortByTime(items), items);
    CompoundOfPermutation(Values(SortByTime(items)), Values(items));
    CombinedFactor(spec, window, assets, minCount);
  }

  // --------------------------------------------------------------------- two-leg join

  predicate Ascending(times: seq<int>) {
    forall i, j :: 0 <= i < j < |times| ==> times[i] < times[j]
  }

  function InsertTime(times: seq<int>, t: int): seq<int> {
    if times == [] || times[|times| - 1] < t then times + [t]
    else InsertTime(times[..|times| - 1], t) + [times[|times| - 1]]
  }

  lemma {:induction false} InsertTimeSorts(times: seq<int>, t: int)
    requires Ascending(times) && t !in times
    ensures Ascending(InsertTime(times, t))
    ensures forall x :: x in InsertTime(times, t) <==> x == t || x in times
  {
    if !(times == [] || times[|times| - 1] < t) {
      var init, last := times[..|times| - 1], times[|times| - 1];
      assert times == init + [last];
      InsertTimeSorts(init, t);
      var r := InsertTime(init, t);
      forall k | 0 <= k < |r|
        ensures r[k] < last
      {
        assert r[k] in r;
      }
    }
  }

  function Times(bars: seq<Bar>): set<int> { set b | b in bars :: b.ts }

  /** The close a timestamp maps to: of bars that share it, the last one counts. */
  function CloseAt(bars: seq<Bar>, ts: int): (close: real)
    requires ts in Times(bars)
    ensures exists b :: b in bars && b.ts == ts && b.close == close
  {
    var last := bars[|bars| - 1];
    if last.ts == ts then last.close
    else
      assert forall b :: b in bars <==> b == last || b in bars[..|bars| - 1] by {
        assert bars == bars[..|bars| - 1] + [last];
      }
      CloseAt(bars[..|bars| - 1], ts)
  }

  /** The shared timestamps, ascending, each once. */
  method CommonTimes(left: seq<Bar>, right: seq<Bar>) returns (times: seq<int>)
    ensures Ascending(times)
    ensures forall t :: t in times <==> t in Times(left) && t in Times(right)
  {
    var rest := Times(left) * Times(right);
    times := [];
    while rest != {}
      invariant rest <= Times(left) * Times(right)
      invariant Ascending(times)
      invariant forall t :: t in times <==> t in Times(left) * Times(right) && t !in rest
      decreases rest
    {
      var t :| t in rest;
      InsertTimeSorts(times, t);
      times := InsertTime(times, t);
      rest := rest - {t};
    }
  }

  /** The closes of a series at the given times. */
  function ClosesAt(bars: seq<Bar>, times: seq<int>): (closes: seq<real>)
    requires forall t :: t in times ==> t in Times(bars)
    ensures |closes| == |times| && forall i :: 0 <= i < |times| ==> closes[i] == CloseAt(bars, times[i])
  {
    seq(|times|, i requires 0 <= i < |times| => CloseAt(bars, times[i]))
  }

  lemma JoinIsPositive(bars: seq<Bar>, times: seq<int>)
    requires Positive(Closes(bars)) && forall t :: t in times ==> t in Times(bars)
    ensures Positive(ClosesAt(bars, times))
  {
    forall i | 0 <= i < |times|
      ensures CloseAt(bars, times[i]) > 0.0
    {
      assert times[i] in times;
      var b :| b in bars && b.ts == times[i] && b.close == CloseAt(bars, times[i]);
      var k :| 0 <= k < |bars| && bars[k] == b;
      assert Closes(bars)[k] > 0.0;
    }
  }

  // --------------------------------------------------------------------- the lab run

  datatype LabError = InsufficientHistory | NeedsExactlyTwoAssets

  /** What a run reports: each asset's log in daily mode, or the two-leg run. */
  datatype LabResult =
    | DailyResult(
        earned: seq<real>,
        equity: seq<real>,
        metrics: Metrics.Report,
        logs: seq<seq<Trade>>,
        perAsset: seq<Metrics.Report>)
    | PairResult(legs: seq<string>, times: seq<int>, pair: PairState, metrics: Metrics.Report)

  /** The metrics of a run, which counts the rows of its log as trades. */
  function Reported(earned: seq<real>, rows: nat): Metrics.Report {
    Metrics.ReportOf(earned).(tradeCount := rows)
  }

  function Rows(logs: seq<seq<Trade>>): nat {
    if logs == [] then 0 else Rows(logs[..|logs| - 1]) + |logs[|logs| - 1]|
  }

  function AssetLogs(spec: StrategySpec, window: map<string, seq<Bar>>, assets: seq<string>,
        minCount: nat): seq<seq<Trade>>
    requires spec.Valid()
  {
    if assets == [] then []
    else
      AssetLogs(spec, window, assets[..|assets| - 1], minCount)
      + [Run(spec, Closes(AssetSeries(window, assets[|assets| - 1])), minCount).trades]
  }

  function AssetReports(spec: StrategySpec, window: map<string, seq<Bar>>, assets: seq<string>,
        minCount: nat): seq<Metrics.Report>
    requires spec.Valid()
  {
    if assets == [] then []
    else
      var run := Run(spec, Closes(AssetSeries(window, assets[|assets| - 1])), minCount);
      AssetReports(spec, window, assets[..|assets| - 1], minCount) + [Reported(run.dailyReturns, |run.trades|)]
  }

  /** The asset loop of daily mode. */
  method RunAssets(spec: StrategySpec, window: map<string, seq<Bar>>, minCount: nat)
    returns (items: seq<Timed<real>>, logs: seq<seq<Trade>>, perAsset: seq<Metrics.Report>)
    requires spec.Valid() && forall a :: a in spec.assets ==> AssetSeries(window, a) != []
    ensures items == Combined(spec, window, spec.assets, minCount)
    ensures logs == AssetLogs(spec, window, spec.assets, minCount)
    ensures perAsset == AssetReports(spec, window, spec.assets, minCount)
  {
    hide Run, AssetSeries, Metrics.ReportOf, Metrics.Curve;
    items, logs, perAsset := [], [], [];
    for k := 0 to |spec.assets|
      invariant items == Combined(spec, window, spec.assets[..k], minCount)
      invariant logs == AssetLogs(spec, window, spec.assets[..k], minCount)
      invariant perAsset == AssetReports(spec, window, spec.assets[..k], minCount)
    {
      assert spec.assets[..k + 1][..k] == spec.assets[..k];
      var bars := AssetSeries(window, spec.assets[k]);
      var result := RunDailyAsset(spec, bars, minCount);
      items := items + TimedReturns(spec, bars, minCount);
      logs := logs + [result.trades];
      var metrics, _ := Metrics.CalculateMetrics(result.dailyReturns);
      perAsset := perAsset + [metrics.(tradeCount := |result.trades|)];
    }
    assert spec.assets[..|spec.assets|] == spec.assets;
  }

  /** A daily run merges the assets' returns by time, and its compounded result is the product
      of what each asset made on its own; a two-leg run trades the joined closes of exactly two
      assets; too little history or the wrong number of legs is refused. */
  method RunLab(spec: StrategySpec, window: map<string, seq<Bar>>) returns (result: Result<LabResult, LabError>)
    requires spec.Valid()
    ensures result == Failure(InsufficientHistory) <==>
              exists a :: a in spec.assets && |AssetSeries(window, a)| < 4
    ensures result == Failure(NeedsExactlyTwoAssets) <==>
              && (forall a :: a in spec.assets ==> |AssetSeries(window, a)| >= 4)
              && spec.mode == CrossSectional && spec.assets[0] == spec.assets[1]
    ensures result.Success? && spec.mode == Daily ==>
              var r, count := result.value, MinCount(window, spec.assets);
              && r.DailyResult?
              && r.earned == Values(SortByTime(Combined(spec, window, spec.assets, count)))
              && r.metrics == Reported(r.earned, Rows(r.logs))
              && 1.0 + r.metrics.totalReturn == FactorProduct(spec, window, spec.assets, count)
              && r.logs == AssetLogs(spec, window, spec.assets, count)
              && r.perAsset == AssetReports(spec, window, spec.assets, count)
              && r.equity == Metrics.Curve(r.earned)
    ensures result.Success? && spec.mode == CrossSectional ==>
              var r := result.value;
              && r.PairResult? && |r.legs| == 2 && Before(r.legs[0], r.legs[1])
              && {r.legs[0], r.legs[1]} == {spec.assets[0], spec.assets[1]}
              && r.metrics == Reported(r.pair.earned, |r.pair.trades|)
              && (var left, right := AssetSeries(window, r.legs[0]), AssetSeries(window, r.legs[1]);
                  && Ascending(r.times)
                  && (forall t :: t in r.times <==> t in Times(left) && t in Times(right))
                  && Positive(ClosesAt(left, r.times)) && Positive(ClosesAt(right, r.times))
                  && r.pair == PairRun(spec, ClosesAt(left, r.times), ClosesAt(right, r.times),
                                       MinCount(window, spec.assets)))
  {
    hide Combined, FactorProduct, AssetLogs, AssetReports, PairRun, AssetSeries, Compound, Run;
    hide Metrics.ReportOf, Metrics.Curve;
    var count := MinCount(window, spec.assets);
    if count < 4 {
      return Failure(InsufficientHistory);
    }
    if spec.mode == CrossSectional {
      var a, b := spec.assets[0], spec.assets[1];
      if a == b {
        return Failure(NeedsExactlyTwoAssets);
      }
      BeforeIsTotal(a, b);
      var legs := if Before(a, b) then [a, b] else [b, a];
      var left, right := AssetSeries(window, legs[0]), AssetSeries(window, legs[1]);
      var times := CommonTimes(left, right);
      JoinIsPositive(left, times);
      JoinIsPositive(right, times);
      var pair := RunCrossSectional(spec, ClosesAt(left, times), ClosesAt(right, times), count);
      var metrics, _ := Metrics.CalculateMetrics(pair.earned);
      return Success(PairResult(legs, times, pair, metrics.(tradeCount := |pair.trades|)));
    }
    var items, logs, perAsset := RunAssets(spec, window, count);
    var earned := Values(SortByTime(items));
    MergedFactorIsProduct(spec, window, spec.assets, count);
    Metrics.TotalIsCompound(earned);
    var metrics, equity := Metrics.CalculateMetrics(earned);
    metrics := metrics.(tradeCount := Rows(logs));
    result := Success(DailyResult(earned, equity, metrics, logs, perAsset));
  }
}
