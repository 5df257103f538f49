/** Theorems about whole runs of the daily engine: what a run may depend on, what its trade
    log determines, and what its stop-loss machine guarantees. */
module DailyRuns {
  import opened RealMath
  import opened StrategySpecs
  import opened DailyEngine

  /** The loop variables after bar `i` of the engine's own run over `closes`. */
  function At(spec: StrategySpec, closes: seq<real>, i: nat): State
    requires spec.Valid() && Positive(closes) && i < |closes|
  {
    After(spec, RunSignals(spec, closes, 0), closes, i)
  }

  function Target(spec: StrategySpec, closes: seq<real>, i: nat): real
    requires spec.Valid() && Positive(closes) && i < |closes|
  {
    At(spec, closes, i).previous
  }

  // ---------------------------------------------------------------- the trade log

  /** Position after bar `bar` according to the log alone, starting flat. */
  function Replay(trades: seq<Trade>, bar: nat): real {
    if trades == [] then 0.0
    else
      var last := trades[|trades| - 1];
      if last.bar <= bar then last.to else Replay(trades[..|trades| - 1], bar)
  }

  /** The rows of the log up to a bar. */
  function UpTo(trades: seq<Trade>, bar: nat): seq<Trade> {
    if trades == [] || trades[|trades| - 1].bar <= bar then trades
    else UpTo(trades[..|trades| - 1], bar)
  }

  function Turnover(trades: seq<Trade>): real {
    if trades == [] then 0.0
    else
      var last := trades[|trades| - 1];
      Turnover(trades[..|trades| - 1]) + Abs(last.to - last.from)
  }

  /** Rows record real changes, in bar order, and each starts where the previous one ended. */
  predicate Chained(trades: seq<Trade>) {
    && (trades != [] ==> trades[0].from == 0.0 && trades[0].bar >= 1)
    && (forall j :: 0 <= j < |trades| ==> trades[j].from != trades[j].to)
    && (forall j :: 1 <= j < |trades| ==> trades[j].from == trades[j - 1].to && trades[j - 1].bar < trades[j].bar)
  }

  /** Gross profit of the positions in a log over the first `n` bars. */
  function GrossProfit(closes: seq<real>, trades: seq<Trade>, n: nat): real
    requires Positive(closes) && (n == 0 || n < |closes|)
  {
    if n == 0 then 0.0
    else GrossProfit(closes, trades, n - 1) + Profit(Replay(trades, n - 1), AssetReturn(closes, n))
  }

  predicate EndsAt(trades: seq<Trade>, target: real, i: nat) {
    && Chained(trades)
    && (trades == [] ==> target == 0.0)
    && (trades != [] ==> trades[|trades| - 1].to == target && trades[|trades| - 1].bar <= i)
  }

  lemma LogStepEnds(trades: seq<Trade>, from: real, i: nat, to: real)
    requires i >= 1 && EndsAt(trades, from, i - 1)
    ensures EndsAt(if to - from != 0.0 then trades + [Trade(i, from, to)] else trades, to, i)
  {
  }

  lemma {:induction false} LogEndsAtTarget(spec: StrategySpec, signals: seq<real>, closes: seq<real>, i: nat)
    requires Positive(closes) && |signals| == |closes| && i < |closes|
    ensures var s := After(spec, signals, closes, i);
            && Chained(s.trades)
            && (s.trades == [] ==> s.previous == 0.0)
            && (s.trades != [] ==> s.trades[|s.trades| - 1].to == s.previous && s.trades[|s.trades| - 1].bar <= i)
  {
    hide PeriodReturn, Grow, AssetReturn, Decide, Chained;
    if i > 0 {
      LogEndsAtTarget(spec, signals, closes, i - 1);
      var p := After(spec, signals, closes, i - 1);
      LogStepEnds(p.trades, p.previous, i, After(spec, signals, closes, i).previous);
    } else {
      EmptyIsChained();
    }
  }

  lemma EmptyIsChained()
    ensures Chained([])
  {
  }

  /** A later state extends every earlier one. */
  lemma {:induction false} LaterExtendsEarlier(spec: StrategySpec, signals: seq<real>, closes: seq<real>,
        i: nat, j: nat)
    requires Positive(closes) && |signals| == |closes| && i <= j < |closes|
    ensures var a, b := After(spec, signals, closes, i), After(spec, signals, closes, j);
            b.earned[..i] == a.earned && b.equity[..i] == a.equity
    decreases j
  {
    hide PeriodReturn, Grow, AssetReturn, Decide;
    if i < j {
      LaterExtendsEarlier(spec, signals, closes, i, j - 1);
    }
  }

  /** Rows added later belong to later bars, so the log of a run answers for every bar. */
  lemma {:induction false} LogAnswersForEveryBar(spec: StrategySpec, signals: seq<real>, closes: seq<real>,
        i: nat, j: nat)
    requires Positive(closes) && |signals| == |closes| && i <= j < |closes|
    ensures var a, b := After(spec, signals, closes, i), After(spec, signals, closes, j);
            UpTo(b.trades, i) == a.trades && Replay(b.trades, i) == a.previous
    decreases j
  {
    hide PeriodReturn, Grow, AssetReturn, Decide;
    if i == j {
      LogEndsAtTarget(spec, signals, closes, i);
    } else {
      LogAnswersForEveryBar(spec, signals, closes, i, j - 1);
      var b, c := After(spec, signals, closes, j).trades, After(spec, signals, closes, j - 1).trades;
      if b != c {
        assert b[..|b| - 1] == c && b[|b| - 1].bar == j;
      }
    }
  }

  /** Each bar's return is what the logged positions earn, less the fee on the logged change. */
  lemma LogDeterminesReturn(spec: StrategySpec, signals: seq<real>, closes: seq<real>, n: nat, i: nat)
    requires Positive(closes) && |signals| == |closes| && 1 <= i <= n < |closes|
    ensures var s := After(spec, signals, closes, n);
            s.earned[i - 1]
            == PeriodReturn(Replay(s.trades, i - 1), Replay(s.trades, i), AssetReturn(closes, i), spec.feeBps)
  {
    hide Decide, Grow, AssetReturn, PeriodReturn;
    LaterExtendsEarlier(spec, signals, closes, i, n);
    LogAnswersForEveryBar(spec, signals, closes, i - 1, n);
    LogAnswersForEveryBar(spec, signals, closes, i, n);
    var a, s := After(spec, signals, closes, i), After(spec, signals, closes, n);
    assert s.earned[i - 1] == s.earned[..i][i - 1] == a.earned[i - 1];
  }

  lemma {:induction false} GrossProfitOfSameLog(closes: seq<real>, a: seq<Trade>, b: seq<Trade>, n: nat)
    requires Positive(closes) && (n == 0 || n < |closes|)
    requires forall i: nat :: i < n ==> Replay(a, i) == Replay(b, i)
    ensures GrossProfit(closes, a, n) == GrossProfit(closes, b, n)
  {
    if n > 0 {
      GrossProfitOfSameLog(closes, a, b, n - 1);
    }
  }

  lemma TurnoverStep(trades: seq<Trade>, bar: nat, from: real, to: real)
    ensures Turnover(if to - from != 0.0 then trades + [Trade(bar, from, to)] else trades)
         == Turnover(trades) + Abs(to - from)
  {
    assert (trades + [Trade(bar, from, to)])[..|trades|] == trades;
  }

  /** How the returns and the log grow over one bar. */
  lemma ReturnGrowth(spec: StrategySpec, signals: seq<real>, closes: seq<real>, n: nat)
    requires Positive(closes) && |signals| == |closes| && 1 <= n < |closes|
    ensures var p, s := After(spec, signals, closes, n - 1), After(spec, signals, closes, n);
            Sum(s.earned) == Sum(p.earned) + Profit(p.previous, AssetReturn(closes, n))
                             - Fee(Abs(s.previous - p.previous), spec.feeBps)
  {
    hide Decide, AssetReturn, Profit, Fee, Grow, Abs, Sum;
    var p, s := After(spec, signals, closes, n - 1), After(spec, signals, closes, n);
    SumSnoc(p.earned, PeriodReturn(p.previous, s.previous, AssetReturn(closes, n), spec.feeBps));
  }

  lemma TurnoverGrowth(spec: StrategySpec, signals: seq<real>, closes: seq<real>, n: nat)
    requires Positive(closes) && |signals| == |closes| && 1 <= n < |closes|
    ensures var p, s := After(spec, signals, closes, n - 1), After(spec, signals, closes, n);
            Turnover(s.trades) == Turnover(p.trades) + Abs(s.previous - p.previous)
  {
    hide Decide, AssetReturn, PeriodReturn, Grow, Abs, Turnover;
    var p, s := After(spec, signals, closes, n - 1), After(spec, signals, closes, n);
    TurnoverStep(p.trades, n, p.previous, s.previous);
  }

  lemma GrossProfitGrowth(spec: StrategySpec, signals: seq<real>, closes: seq<real>, n: nat)
    requires Positive(closes) && |signals| == |closes| && 1 <= n < |closes|
    ensures var p, s := After(spec, signals, closes, n - 1), After(spec, signals, closes, n);
            GrossProfit(closes, s.trades, n)
            == GrossProfit(closes, p.trades, n - 1) + Profit(p.previous, AssetReturn(closes, n))
  {
    hide Decide, AssetReturn, PeriodReturn, Profit;
    var p, s := After(spec, signals, closes, n - 1).trades, After(spec, signals, closes, n).trades;
    LogAnswersForEveryBar(spec, signals, closes, n - 1, n);
    forall i: nat | i < n - 1
      ensures Replay(s, i) == Replay(p, i)
    {
      LogAnswersForEveryBar(spec, signals, closes, i, n);
      LogAnswersForEveryBar(spec, signals, closes, i, n - 1);
    }
    GrossProfitOfSameLog(closes, s, p, n - 1);
  }

  lemma BalancedAtStart(spec: StrategySpec, signals: seq<real>, closes: seq<real>)
    requires Positive(closes) && |signals| == |closes| && closes != []
    ensures var s := After(spec, signals, closes, 0);
            Sum(s.earned) == GrossProfit(closes, s.trades, 0) - Fee(Turnover(s.trades), spec.feeBps)
  {
  }

  /** Conservation: the summed returns are the gross profit of the logged positions less the
      fee rate times the logged turnover. */
  lemma {:induction false} ReturnsBalance(spec: StrategySpec, signals: seq<real>, closes: seq<real>, n: nat)
    requires Positive(closes) && |signals| == |closes| && n < |closes|
    ensures var s := After(spec, signals, closes, n);
            Sum(s.earned) == GrossProfit(closes, s.trades, n) - Fee(Turnover(s.trades), spec.feeBps)
  {
    hide After, AssetReturn, Profit, Fee;
    if n == 0 {
      BalancedAtStart(spec, signals, closes);
    } else {
      ReturnsBalance(spec, signals, closes, n - 1);
      ReturnGrowth(spec, signals, closes, n);
      TurnoverGrowth(spec, signals, closes, n);
      GrossProfitGrowth(spec, signals, closes, n);
      var p, s := After(spec, signals, closes, n - 1), After(spec, signals, closes, n);
      FeeIsAdditive(Turnover(p.trades), Abs(s.previous - p.previous), spec.feeBps);
    }
  }

  /** The equity curve compounds the returns. */
  lemma {:induction false} EquityCompounds(spec: StrategySpec, signals: seq<real>, closes: seq<real>, n: nat)
    requires Positive(closes) && |signals| == |closes| && n < |closes|
    ensures var s := After(spec, signals, closes, n);
            s.value == Compound(s.earned) && (n > 0 ==> s.equity[n - 1] == s.value)
  {
    hide Decide, AssetReturn, PeriodReturn, Profit;
    if n > 0 {
      EquityCompounds(spec, signals, closes, n - 1);
      var s, p := After(spec, signals, closes, n), After(spec, signals, closes, n - 1);
      var earned := PeriodReturn(p.previous, s.previous, AssetReturn(closes, n), spec.feeBps);
      assert s.earned == p.earned + [earned] && s.value == Grow(p.value, earned);
      CompoundSnoc(p.earned, earned);
    }
  }

  lemma EquityCurveCompounds(spec: StrategySpec, signals: seq<real>, closes: seq<real>, n: nat, i: nat)
    requires Positive(closes) && |signals| == |closes| && 1 <= i <= n < |closes|
    ensures var s := After(spec, signals, closes, n);
            s.equity[i - 1] == Compound(s.earned[..i])
  {
    hide After, Compound;
    EquityCompounds(spec, signals, closes, i);
    LaterExtendsEarlier(spec, signals, closes, i, n);
    var a, s := After(spec, signals, closes, i), After(spec, signals, closes, n);
    assert s.equity[i - 1] == s.equity[..i][i - 1];
  }

  /** Signals take three levels, and the short one only in long/short mode. */
  lemma SignalLevels(spec: StrategySpec, history: seq<real>, fast: nat, slow: nat)
    requires spec.Valid() && 0 < fast && 0 < slow
    ensures Level(spec, DailySignal(spec, history, fast, slow))
  {
    hide MovingAverage, Deviation, MaxOf, MinOf, RaiseBy, LowerBy;
  }

  predicate Level(spec: StrategySpec, position: real) {
    position == spec.maxPosition || position == 0.0 || (spec.longShort && position == -spec.maxPosition)
  }

  lemma RunSignalLevels(spec: StrategySpec, closes: seq<real>, minCount: nat, i: nat)
    requires spec.Valid() && i < |closes|
    ensures Level(spec, RunSignals(spec, closes, minCount)[i])
  {
    hide DailySignal;
    var slow := EffectiveSlow(spec.slowWindow, if minCount == 0 then |closes| else minCount);
    SignalLevels(spec, closes[..i], EffectiveFast(spec.fastWindow, slow), slow);
  }

  /** The stop-loss machine only ever replaces a signal by flat. */
  lemma {:induction false} TargetLevels(spec: StrategySpec, signals: seq<real>, closes: seq<real>, n: nat)
    requires Positive(closes) && |signals| == |closes| && n < |closes|
    requires forall i :: 0 <= i < |signals| ==> Level(spec, signals[i])
    ensures var s := After(spec, signals, closes, n);
            Level(spec, s.previous) && forall t :: t in s.trades ==> Level(spec, t.to)
  {
    hide PeriodReturn, Grow, AssetReturn, StopCheck, Level;
    if n == 0 {
      FlatIsALevel(spec);
    } else {
      TargetLevels(spec, signals, closes, n - 1);
      FlatIsALevel(spec);
    }
  }

  lemma FlatIsALevel(spec: StrategySpec)
    ensures Level(spec, 0.0)
  {
  }

  /** Main result on the log: it chains from flat, stays within the position bound, and
      together with the prices alone determines every return, the equity curve and the
      total cost of a run. */
  lemma TradeLogIsComplete(spec: StrategySpec, closes: seq<real>, minCount: nat)
    requires spec.Valid() && Positive(closes) && closes != []
    ensures var r := Run(spec, closes, minCount);
            && Chained(r.trades)
            && (forall t :: t in r.trades ==> Level(spec, t.to))
            && |r.dailyReturns| == |r.equity| == |closes| - 1
    ensures var r := Run(spec, closes, minCount);
            forall i :: 1 <= i < |closes| ==>
              && r.dailyReturns[i - 1]
                 == PeriodReturn(Replay(r.trades, i - 1), Replay(r.trades, i), AssetReturn(closes, i), spec.feeBps)
              && r.equity[i - 1] == Compound(r.dailyReturns[..i])
    ensures var r := Run(spec, closes, minCount);
            Sum(r.dailyReturns)
            == GrossProfit(closes, r.trades, |closes| - 1) - Fee(Turnover(r.trades), spec.feeBps)
  {
    hide AssetReturn, PeriodReturn, After, Level, RunSignals;
    var n, signals := |closes| - 1, RunSignals(spec, closes, minCount);
    var s, r := After(spec, signals, closes, n), Run(spec, closes, minCount);
    assert r == EngineResult(s.equity, s.trades, s.earned);
    LogEndsAtTarget(spec, signals, closes, n);
    forall i | 0 <= i < |signals|
      ensures Level(spec, signals[i])
    {
      RunSignalLevels(spec, closes, minCount, i);
    }
    TargetLevels(spec, signals, closes, n);
    ReturnsBalance(spec, signals, closes, n);
    forall i | 1 <= i < |closes|
      ensures s.earned[i - 1]
              == PeriodReturn(Replay(s.trades, i - 1), Replay(s.trades, i), AssetReturn(closes, i), spec.feeBps)
      ensures s.equity[i - 1] == Compound(s.earned[..i])
    {
      LogDeterminesReturn(spec, signals, closes, n, i);
      EquityCurveCompounds(spec, signals, closes, n, i);
    }
  }

  /** Without a stop loss the target is the signal. */
  lemma {:induction false} NeverStopped(spec: StrategySpec, signals: seq<real>, closes: seq<real>, i: nat)
    requires spec.stopLossPct == None
    requires Positive(closes) && |signals| == |closes| && i < |closes|
    ensures var s := After(spec, signals, closes, i);
            s.previous == (if i == 0 then 0.0 else signals[i]) && s.stoppedUntil == -1
  {
    hide PeriodReturn, Grow, AssetReturn;
    if i > 0 {
      NeverStopped(spec, signals, closes, i - 1);
    }
  }
}
