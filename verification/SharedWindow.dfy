/** Two assets share one window clamp in a lab run, so the length of one series can rewrite the
    trades of the other. */
module SharedWindow {
  import opened StrategySpecs
  import opened DailyEngine
  import opened Causality
  import opened Portfolio

  function Shorter(n: nat, m: nat): nat { if m < n then m else n }

  /** A lab window whose two assets have so many bars. */
  predicate HasBars(window: map<string, seq<Bar>>, first: string, second: string, n: nat, m: nat) {
    |AssetSeries(window, first)| == n && |AssetSeries(window, second)| == m
  }

  /** The log of a two-asset run's first asset. */
  function FirstLog(spec: StrategySpec, window: map<string, seq<Bar>>): seq<Trade>
    requires spec.Valid() && |spec.assets| == 2
  {
    AssetLogs(spec, window, spec.assets, MinCount(window, spec.assets))[0]
  }

  lemma {:induction false} LogsAreRuns(spec: StrategySpec, window: map<string, seq<Bar>>, assets: seq<string>,
      count: nat)
    requires spec.Valid()
    ensures |AssetLogs(spec, window, assets, count)| == |assets|
    ensures forall i :: 0 <= i < |assets| ==>
              AssetLogs(spec, window, assets, count)[i]
              == Run(spec, Closes(AssetSeries(window, assets[i])), count).trades
  {
    hide Run, AssetSeries;
    if assets != [] {
      LogsAreRuns(spec, window, assets[..|assets| - 1], count);
    }
  }

  lemma FirstLogIsRun(spec: StrategySpec, window: map<string, seq<Bar>>)
    requires spec.Valid() && |spec.assets| == 2
    ensures var series, other := AssetSeries(window, spec.assets[0]), AssetSeries(window, spec.assets[1]);
            FirstLog(spec, window) == Run(spec, Closes(series), Shorter(|series|, |other|)).trades
  {
    hide Run, AssetSeries, AssetLogs;
    LogsAreRuns(spec, window, spec.assets, MinCount(window, spec.assets));
    assert spec.assets[..1] == [spec.assets[0]];
  }

  /** Whatever the prices, the first asset's log does not show whether the second has m or k bars. */
  ghost predicate OtherLengthHidden(fastWindow: nat, slowWindow: nat, n: nat, m: nat, k: nat) {
    forall spec: StrategySpec, v: map<string, seq<Bar>>, w: map<string, seq<Bar>> ::
      spec.Valid() && |spec.assets| == 2 && spec.fastWindow == fastWindow && spec.slowWindow == slowWindow
      && HasBars(v, spec.assets[0], spec.assets[1], n, m) && HasBars(w, spec.assets[0], spec.assets[1], n, k)
      && AssetSeries(v, spec.assets[0]) == AssetSeries(w, spec.assets[0]) ==>
        FirstLog(spec, v) == FirstLog(spec, w)
  }

  // -------------------------------------------------------------------------- a witness

  function BarsOf(closes: seq<real>): (bars: seq<Bar>)
    ensures Closes(bars) == closes && |bars| == |closes|
    ensures forall i :: 0 <= i < |closes| ==> bars[i] == Bar(86_400 * i, closes[i])
  {
    seq(|closes|, i requires 0 <= i < |closes| => Bar(86_400 * i, closes[i]))
  }

  lemma {:induction false} PositiveIsClean(bars: seq<Bar>)
    requires forall i :: 0 <= i < |bars| ==> bars[i].close > 0.0
    ensures CleanSeries(bars) == bars
  {
    if bars != [] {
      PositiveIsClean(bars[..|bars| - 1]);
    }
  }

  function TwoAssets(closes: seq<real>, m: nat): map<string, seq<Bar>> {
    map["BTC" := BarsOf(closes), "ETH" := BarsOf(Spike(m, 0))]
  }

  lemma TwoAssetsHaveBars(closes: seq<real>, m: nat)
    requires Positive(closes)
    ensures AssetSeries(TwoAssets(closes, m), "BTC") == BarsOf(closes)
    ensures HasBars(TwoAssets(closes, m), "BTC", "ETH", |closes|, m)
  {
    hide CleanSeries;
    PositiveIsClean(BarsOf(closes));
    PositiveIsClean(BarsOf(Spike(m, 0)));
  }

  lemma OtherLengthShows(fastWindow: nat, slowWindow: nat, n: nat, m: nat, k: nat, closes: seq<real>)
    requires 2 <= fastWindow <= 120 && fastWindow < slowWindow <= 250 && Positive(closes) && |closes| == n
    requires var spec := Eager(fastWindow, slowWindow);
             Run(spec, closes, Shorter(n, m)).trades != Run(spec, closes, Shorter(n, k)).trades
    ensures !OtherLengthHidden(fastWindow, slowWindow, n, m, k)
  {
    hide Run, FirstLog, AssetSeries, TwoAssets, Shorter;
    var spec := Eager(fastWindow, slowWindow);
    var v, w := TwoAssets(closes, m), TwoAssets(closes, k);
    TwoAssetsHaveBars(closes, m);
    TwoAssetsHaveBars(closes, k);
    FirstLogIsRun(spec, v);
    FirstLogIsRun(spec, w);
    assert spec.assets[0] == "BTC" && spec.assets[1] == "ETH";
    assert FirstLog(spec, v) != FirstLog(spec, w);
  }

  /** Exactly when bars added to one asset of a lab run leave the other's trades alone, for every
      strategy with these windows and all prices: when both shorter lengths clamp to one window. */
  lemma OtherLengthHiddenIff(fastWindow: nat, slowWindow: nat, n: nat, m: nat, k: nat)
    requires 2 <= fastWindow <= 120 && fastWindow < slowWindow <= 250 && n >= 4 && m >= 4 && k >= 4
    ensures OtherLengthHidden(fastWindow, slowWindow, n, m, k)
       <==> EffectiveSlow(slowWindow, Shorter(n, m)) == EffectiveSlow(slowWindow, Shorter(n, k))
  {
    hide Run, FirstLog, AssetSeries, Spike;
    var p, q := Shorter(n, m), Shorter(n, k);
    ClampHiddenIff(fastWindow, slowWindow, n, p, q);
    if EffectiveSlow(slowWindow, p) == EffectiveSlow(slowWindow, q) {
      forall spec: StrategySpec, v: map<string, seq<Bar>>, w: map<string, seq<Bar>> |
        spec.Valid() && |spec.assets| == 2 && spec.fastWindow == fastWindow && spec.slowWindow == slowWindow
        && HasBars(v, spec.assets[0], spec.assets[1], n, m) && HasBars(w, spec.assets[0], spec.assets[1], n, k)
        && AssetSeries(v, spec.assets[0]) == AssetSeries(w, spec.assets[0])
        ensures FirstLog(spec, v) == FirstLog(spec, w)
      {
        FirstLogIsRun(spec, v);
        FirstLogIsRun(spec, w);
      }
    } else if EffectiveSlow(slowWindow, p) < EffectiveSlow(slowWindow, q) {
      SpikeShowsClamp(fastWindow, slowWindow, n, p, q);
      OtherLengthShows(fastWindow, slowWindow, n, m, k, Spike(n, EffectiveSlow(slowWindow, p) - 1));
    } else {
      SpikeShowsClamp(fastWindow, slowWindow, n, q, p);
      OtherLengthShows(fastWindow, slowWindow, n, m, k, Spike(n, EffectiveSlow(slowWindow, q) - 1));
    }
  }
}
