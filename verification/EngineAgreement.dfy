/** The separately written engines agree.  The exact relation between the lab engine and the
    VectorBT-compatible engine holds for every position bound and slippage; on the shared
    settings they are equal, and the momentum simulation joins them beyond the clamp. */
module EngineAgreement {
  import opened RealMath
  import opened StrategySpecs
  import opened DailyEngine
  import opened DailyRuns
  import opened VectorbtEngine
  import opened MomentumSimulation

  /** Neither engine overrides or reinterprets the signal. */
  predicate Comparable(spec: StrategySpec) {
    spec.Valid() && spec.signal != RelativeStrength && spec.stopLossPct == None
  }

  lemma SameClamp(spec: StrategySpec, bars: nat)
    requires spec.Valid()
    ensures var c := ReadConfig(spec);
            var slow := EffectiveSlow(spec.slowWindow, bars);
            && ClampSlow(c.slow, bars) == slow
            && ClampFast(c.fast, slow) == EffectiveFast(spec.fastWindow, slow)
            && c.fast == spec.fastWindow && c.slow == spec.slowWindow
            && c.costBps == spec.feeBps + spec.slippageBps
  {
  }

  /** Bar by bar the lab signal is the compatible engine's signal scaled by the position bound. */
  lemma SameSignal(spec: StrategySpec, closes: seq<real>, index: nat, fast: nat, slow: nat)
    requires Comparable(spec) && 0 < fast && 0 < slow && index <= |closes|
    ensures DailySignal(spec, closes[..index], fast, slow)
         == Scale(spec.maxPosition, VbtSignal(closes, index, fast, slow, ReadConfig(spec)))
  {
    hide MovingAverage, MaxOf, MinOf, LastN, Deviation;
  }

  lemma SignalsScale(spec: StrategySpec, closes: seq<real>, i: nat)
    requires Comparable(spec) && i < |closes|
    ensures RunSignals(spec, closes, 0)[i] == Scale(spec.maxPosition, VbtSignals(ReadConfig(spec), closes)[i])
  {
    hide DailySignal, VbtSignal, Scale;
    SameClamp(spec, |closes|);
    var slow := EffectiveSlow(spec.slowWindow, |closes|);
    SameSignal(spec, closes, i, EffectiveFast(spec.fastWindow, slow), slow);
  }

  /** Scaling both positions by k > 0 scales the bar's return; slippage is charged by one engine
      only. */
  lemma ScaledPeriodReturn(k: real, previous: real, target: real, assetReturn: real, feeBps: real, slippageBps: real)
    requires k > 0.0
    ensures PeriodReturn(Scale(k, previous), Scale(k, target), assetReturn, feeBps)
         == Scale(k, PeriodReturn(previous, target, assetReturn, feeBps + slippageBps)
                     + Fee(Abs(target - previous), slippageBps))
  {
    ScaledChange(k, previous, target);
    FeeScales(k, Abs(target - previous), feeBps, slippageBps);
    ScaledSum(k, Profit(previous, assetReturn), Fee(Abs(target - previous), feeBps));
    assert Profit(Scale(k, previous), assetReturn) == Scale(k, Profit(previous, assetReturn));
  }

  lemma ScaledSum(k: real, x: real, y: real)
    ensures Scale(k, x - y) == Scale(k, x) - Scale(k, y)
  {
  }

  lemma FeeScales(k: real, change: real, feeBps: real, slippageBps: real)
    ensures Fee(Scale(k, change), feeBps) == Scale(k, Fee(change, feeBps))
    ensures Fee(change, feeBps + slippageBps) == Fee(change, feeBps) + Fee(change, slippageBps)
  {
  }

  lemma ScaledChange(k: real, previous: real, target: real)
    requires k > 0.0
    ensures Abs(Scale(k, target) - Scale(k, previous)) == Scale(k, Abs(target - previous))
    ensures Scale(k, target) - Scale(k, previous) == 0.0 <==> target - previous == 0.0
  {
    ScaledSum(k, target, previous);
    ProductSign(k, target - previous);
  }

  lemma ProductSign(k: real, x: real)
    requires k > 0.0
    ensures Scale(k, x) == 0.0 <==> x == 0.0
    ensures Scale(k, x) < 0.0 <==> x < 0.0
    ensures Scale(k, -x) == -Scale(k, x)
  {
  }

  /** One log is the other scaled by k. */
  predicate LogScales(k: real, lab: seq<Trade>, vbt: seq<VbtTrade>) {
    |lab| == |vbt| &&
    forall j :: 0 <= j < |lab| ==>
      lab[j].bar == vbt[j].bar && lab[j].from == Scale(k, vbt[j].from) && lab[j].to == Scale(k, vbt[j].to)
  }

  /** The engines' positions and logs, for any two signal paths of which one scales the other. */
  lemma {:induction false} LogsScale(spec: StrategySpec, labSignals: seq<real>, vbtSignals: seq<real>,
        closes: seq<real>, costBps: real, cash: real, n: nat)
    requires Comparable(spec) && Positive(closes) && |labSignals| == |vbtSignals| == |closes| && n < |closes|
    requires forall i :: 1 <= i <= n ==> labSignals[i] == Scale(spec.maxPosition, vbtSignals[i])
    ensures var lab, vbt := After(spec, labSignals, closes, n), VbtAfter(costBps, vbtSignals, closes, cash, n);
            && lab.previous == Scale(spec.maxPosition, vbt.previous)
            && LogScales(spec.maxPosition, lab.trades, vbt.trades)
  {
    hide AssetReturn, PeriodReturn, Grow, Abs, Scale;
    if n == 0 {
      ProductSign(spec.maxPosition, 0.0);
    } else {
      LogsScale(spec, labSignals, vbtSignals, closes, costBps, cash, n - 1);
      NeverStopped(spec, labSignals, closes, n);
      ScaledChange(spec.maxPosition, VbtAfter(costBps, vbtSignals, closes, cash, n - 1).previous, vbtSignals[n]);
    }
  }

  /** The bar returns: scaled, and short of the slippage that only one engine charges. */
  lemma LastReturnScales(spec: StrategySpec, labSignals: seq<real>, vbtSignals: seq<real>, closes: seq<real>,
        cash: real, n: nat)
    requires Comparable(spec) && Positive(closes) && |labSignals| == |vbtSignals| == |closes| && 1 <= n < |closes|
    requires forall j :: 1 <= j <= n ==> labSignals[j] == Scale(spec.maxPosition, vbtSignals[j])
    ensures var costBps := spec.feeBps + spec.slippageBps;
            var lab, vbt := After(spec, labSignals, closes, n), VbtAfter(costBps, vbtSignals, closes, cash, n);
            var change := Abs(vbtSignals[n] - VbtAfter(costBps, vbtSignals, closes, cash, n - 1).previous);
            lab.earned[n - 1] == Scale(spec.maxPosition, vbt.earned[n - 1] + Fee(change, spec.slippageBps))
  {
    hide AssetReturn, PeriodReturn, Grow, Abs, Scale, Fee, Decide;
    var costBps := spec.feeBps + spec.slippageBps;
    LogsScale(spec, labSignals, vbtSignals, closes, costBps, cash, n - 1);
    NeverStopped(spec, labSignals, closes, n);
    ScaledPeriodReturn(spec.maxPosition, VbtAfter(costBps, vbtSignals, closes, cash, n - 1).previous, vbtSignals[n],
                       AssetReturn(closes, n), spec.feeBps, spec.slippageBps);
  }

  /** Neither engine revises a booked return. */
  lemma {:induction false} BookedReturnsStay(spec: StrategySpec, labSignals: seq<real>, costBps: real,
        vbtSignals: seq<real>, closes: seq<real>, cash: real, i: nat, n: nat)
    requires Positive(closes) && |labSignals| == |vbtSignals| == |closes| && 1 <= i <= n < |closes|
    ensures After(spec, labSignals, closes, n).earned[i - 1] == After(spec, labSignals, closes, i).earned[i - 1]
    ensures VbtAfter(costBps, vbtSignals, closes, cash, n).earned[i - 1]
         == VbtAfter(costBps, vbtSignals, closes, cash, i).earned[i - 1]
    decreases n
  {
    hide AssetReturn, PeriodReturn, Grow, Abs, Decide;
    if i < n {
      BookedReturnsStay(spec, labSignals, costBps, vbtSignals, closes, cash, i, n - 1);
    }
  }

  /** The weight held after bar `i` of a finished compatible run. */
  function WeightAfter(vbt: VbtState, i: nat): real
    requires i <= |vbt.weights|
  {
    if i == 0 then 0.0 else vbt.weights[i - 1]
  }

  lemma {:induction false} WeightsAreTargets(costBps: real, signals: seq<real>, closes: seq<real>, cash: real,
        n: nat, i: nat)
    requires Positive(closes) && |signals| == |closes| && i <= n < |closes|
    ensures WeightAfter(VbtAfter(costBps, signals, closes, cash, n), i) == if i == 0 then 0.0 else signals[i]
    ensures VbtAfter(costBps, signals, closes, cash, i).previous == if i == 0 then 0.0 else signals[i]
  {
    hide AssetReturn, PeriodReturn, Grow, Abs;
    if i < n {
      WeightsAreTargets(costBps, signals, closes, cash, n - 1, i);
    }
  }

  lemma EverySignalScales(spec: StrategySpec, closes: seq<real>)
    requires Comparable(spec) && Positive(closes) && |closes| >= 4
    ensures var lab, vbt := RunSignals(spec, closes, 0), VbtSignals(ReadConfig(spec), closes);
            |lab| == |vbt| == |closes| && forall i :: 1 <= i < |closes| ==> lab[i] == Scale(spec.maxPosition, vbt[i])
  {
    hide Scale, RunSignals, VbtSignals, ReadConfig;
    forall i | 1 <= i < |closes|
      ensures RunSignals(spec, closes, 0)[i] == Scale(spec.maxPosition, VbtSignals(ReadConfig(spec), closes)[i])
    {
      SignalsScale(spec, closes, i);
    }
  }

  /** The bar returns of finished runs over two signal paths of which one scales the other. */
  lemma BookedReturnScales(spec: StrategySpec, labSignals: seq<real>, vbtSignals: seq<real>, closes: seq<real>,
        cash: real, i: nat, n: nat)
    requires Comparable(spec) && Positive(closes) && |labSignals| == |vbtSignals| == |closes| && 1 <= i <= n < |closes|
    requires forall j :: 1 <= j < |closes| ==> labSignals[j] == Scale(spec.maxPosition, vbtSignals[j])
    ensures var lab := After(spec, labSignals, closes, n);
            var vbt := VbtAfter(spec.feeBps + spec.slippageBps, vbtSignals, closes, cash, n);
            lab.earned[i - 1]
            == Scale(spec.maxPosition,
                     vbt.earned[i - 1] + Fee(Abs(WeightAfter(vbt, i) - WeightAfter(vbt, i - 1)), spec.slippageBps))
  {
    hide Abs, Scale, Fee, After, VbtAfter, WeightAfter;
    var costBps := spec.feeBps + spec.slippageBps;
    LastReturnScales(spec, labSignals, vbtSignals, closes, cash, i);
    BookedReturnsStay(spec, labSignals, costBps, vbtSignals, closes, cash, i, n);
    WeightsAreTargets(costBps, vbtSignals, closes, cash, n, i);
    WeightsAreTargets(costBps, vbtSignals, closes, cash, n, i - 1);
    WeightsAreTargets(costBps, vbtSignals, closes, cash, i - 1, i - 1);
  }

  /** Main result.  On any series of at least four closes, at any position bound and slippage:
      the lab log is the compatible log scaled by the bound ... */
  lemma EngineLogsAgree(spec: StrategySpec, closes: seq<real>, cash: real)
    requires Comparable(spec) && Positive(closes) && |closes| >= 4
    ensures var vbt := VbtRun(spec, closes, cash);
            vbt.Some? && LogScales(spec.maxPosition, Run(spec, closes, 0).trades, vbt.value.trades)
  {
    hide AssetReturn, PeriodReturn, Grow, Abs, Scale, Fee;
    hide After, VbtAfter, RunSignals, VbtSignals, LogScales, ReadConfig;
    var n, c := |closes| - 1, ReadConfig(spec);
    EverySignalScales(spec, closes);
    LogsScale(spec, RunSignals(spec, closes, 0), VbtSignals(c, closes), closes, c.costBps, cash, n);
  }

  /** ... and every lab return is the scaled compatible return with the slippage of that bar's
      turnover given back. */
  lemma EngineReturnsAgree(spec: StrategySpec, closes: seq<real>, cash: real, i: nat)
    requires Comparable(spec) && Positive(closes) && |closes| >= 4 && 1 <= i < |closes|
    ensures var lab, vbt := Run(spec, closes, 0), VbtRun(spec, closes, cash).value;
            lab.dailyReturns[i - 1]
            == Scale(spec.maxPosition,
                     vbt.earned[i - 1] + Fee(Abs(WeightAfter(vbt, i) - WeightAfter(vbt, i - 1)), spec.slippageBps))
  {
    hide Abs, Scale, Fee, After, VbtAfter, RunSignals, VbtSignals, WeightAfter, ReadConfig;
    EverySignalScales(spec, closes);
    SameClamp(spec, |closes|);
    BookedReturnScales(
      spec, RunSignals(spec, closes, 0), VbtSignals(ReadConfig(spec), closes), closes, cash, i, |closes| - 1);
  }

  /** At full position and without slippage the engines return the same thing: equal bar
      returns, equal (bar, from, to) logs, and compounded equity equal up to the cash. */
  lemma EnginesEqualAtFullPosition(spec: StrategySpec, closes: seq<real>, cash: real)
    requires Comparable(spec) && Positive(closes) && |closes| >= 4
    requires spec.maxPosition == 1.0 && spec.slippageBps == 0.0
    ensures VbtRun(spec, closes, cash).Some?
    ensures var lab, vbt := Run(spec, closes, 0), VbtRun(spec, closes, cash).value;
            && lab.dailyReturns == vbt.earned
            && |lab.trades| == |vbt.trades|
            && (forall j :: 0 <= j < |lab.trades| ==>
                  lab.trades[j] == Trade(vbt.trades[j].bar, vbt.trades[j].from, vbt.trades[j].to))
            && forall i :: 0 <= i < |lab.equity| ==> lab.equity[i] == Compound(vbt.earned[..i + 1])
  {
    hide AssetReturn, PeriodReturn, Grow, Abs, After, VbtAfter, RunSignals, VbtSignals, WeightAfter, Compound;
    EngineLogsAgree(spec, closes, cash);
    var lab, vbt := Run(spec, closes, 0), VbtRun(spec, closes, cash).value;
    forall j | 0 <= j < |closes| - 1
      ensures lab.dailyReturns[j] == vbt.earned[j]
    {
      EngineReturnsAgree(spec, closes, cash, j + 1);
    }
    assert lab.dailyReturns == vbt.earned;
    forall i | 0 <= i < |lab.equity|
      ensures lab.equity[i] == Compound(lab.dailyReturns[..i + 1])
    {
      EquityCurveCompounds(spec, RunSignals(spec, closes, 0), closes, |closes| - 1, i + 1);
    }
  }

  /** A series that never moves. */
  function Flat(n: nat): (closes: seq<real>)
    ensures |closes| == n && Positive(closes)
  {
    seq(n, i => 1.0)
  }

  /** The excluded signal really disagrees: at threshold zero the lab engine reads
      relative_strength as a breakout and goes long on a flat series, the compatible engine
      reads it as momentum and stays flat. */
  lemma RelativeStrengthDisagrees(spec: StrategySpec, n: nat)
    requires spec.Valid() && spec.signal == RelativeStrength && spec.entryThreshold == 0.0
    requires spec.stopLossPct == None && n >= 4
    ensures var bar := EffectiveSlow(spec.slowWindow, n);
            && 1 <= bar < n
            && Target(spec, Flat(n), bar) == spec.maxPosition
            && VbtSignals(ReadConfig(spec), Flat(n))[bar] == 0.0
  {
    hide PeriodReturn, Grow, AssetReturn, After, Sum;
    SameClamp(spec, n);
    var slow := EffectiveSlow(spec.slowWindow, n);
    var fast := EffectiveFast(spec.fastWindow, slow);
    var history := Flat(n)[..slow];
    NeverStopped(spec, RunSignals(spec, Flat(n), 0), Flat(n), slow);
    assert forall x :: x in LastN(history, slow) ==> x == 1.0;
    assert MaxOf(LastN(history, slow)) == 1.0;
    FlatAverage(history, slow);
    FlatAverage(history, fast);
  }

  lemma {:induction false} SumOfEqual(xs: seq<real>, x: real)
    requires forall i :: 0 <= i < |xs| ==> xs[i] == x
    ensures Sum(xs) == |xs| as real * x
  {
    if xs != [] {
      SumOfEqual(xs[..|xs| - 1], x);
    }
  }

  lemma FlatAverage(history: seq<real>, window: nat)
    requires 0 < window <= |history|
    requires forall i :: 0 <= i < |history| ==> history[i] == 1.0
    ensures MovingAverage(history, window) == 1.0
  {
    SumOfEqual(LastN(history, window), 1.0);
  }

  // ------------------------------------------------------------ the momentum simulation

  /** The settings the simulation implements. */
  predicate PlainMomentum(spec: StrategySpec) {
    && spec.Valid() && spec.signal == Momentum && spec.entryThreshold == 0.0 && !spec.longShort
    && spec.maxPosition == 1.0 && spec.stopLossPct == None
  }

  lemma SimSignalAgrees(spec: StrategySpec, closes: seq<real>, i: nat)
    requires PlainMomentum(spec) && Positive(closes) && i <= |closes|
    ensures SimPosition(closes, i, spec.fastWindow, spec.slowWindow)
         == DailySignal(spec, closes[..i], spec.fastWindow, spec.slowWindow)
  {
    if i >= spec.slowWindow {
      AveragePositive(closes[..i], spec.slowWindow);
      hide MovingAverage;
      var f, s := MovingAverage(closes[..i], spec.fastWindow), MovingAverage(closes[..i], spec.slowWindow);
      QuotientSign(f, s);
    }
  }

  lemma QuotientSign(f: real, s: real)
    requires s > 0.0
    ensures (f - s) / s > 0.0 <==> f > s
  {
    var q := (f - s) / s;
    assert q * s == f - s;
  }

  lemma NoTurnover()
    ensures Turnover([]) == 0.0
  {
  }

  lemma AbsZero(x: real)
    ensures Abs(x) == 0.0 <==> x == 0.0
  {
  }

  lemma {:induction false} SimulationFollows(spec: StrategySpec, signals: seq<real>, positions: seq<real>,
        closes: seq<real>, n: nat)
    requires PlainMomentum(spec) && Positive(closes) && |signals| == |positions| == |closes| && n < |closes|
    requires forall i :: 1 <= i <= n ==> signals[i] == positions[i]
    ensures var lab, sim := After(spec, signals, closes, n), SimAfter(spec.feeBps, positions, closes, n);
            && lab.earned == sim.earned && lab.previous == sim.previous
            && |lab.trades| == sim.trades && Turnover(lab.trades) == sim.turnover
  {
    hide AssetReturn, Grow, Fee, Profit, Decide, Abs, Turnover;
    if n == 0 {
      NoTurnover();
    } else {
      SimulationFollows(spec, signals, positions, closes, n - 1);
      NeverStopped(spec, signals, closes, n);
      var p := After(spec, signals, closes, n - 1);
      TurnoverStep(p.trades, n, p.previous, signals[n]);
      AbsZero(signals[n] - p.previous);
    }
  }

  /** Beyond the clamp the third engine agrees too: same returns, trade count and turnover. */
  lemma SimulationAgrees(spec: StrategySpec, closes: seq<real>)
    requires PlainMomentum(spec) && Positive(closes) && |closes| >= spec.slowWindow + 2
    ensures var lab, sim := Run(spec, closes, 0), Simulate(spec.fastWindow, spec.slowWindow, spec.feeBps, closes);
            && lab.dailyReturns == sim.earned
            && |lab.trades| == sim.trades
            && Turnover(lab.trades) == sim.turnover
  {
    hide After, SimAfter, SimPosition, DailySignal, AssetReturn;
    var fast, slow := spec.fastWindow, spec.slowWindow;
    assert EffectiveSlow(slow, |closes|) == slow && EffectiveFast(fast, slow) == fast;
    var signals, positions := RunSignals(spec, closes, 0), SimPositions(closes, fast, slow);
    forall i | 1 <= i < |closes|
      ensures signals[i] == positions[i]
    {
      SimSignalAgrees(spec, closes, i);
    }
    SimulationFollows(spec, signals, positions, closes, |closes| - 1);
  }
}
