/** When a breakout trades: its window includes the last close, so with a positive threshold never. */
module BreakoutRuns {
  import opened RealMath
  import opened StrategySpecs
  import opened DailyEngine
  import opened DailyRuns
  import opened VectorbtEngine
  import opened EngineAgreement

  /** The signals the lab engine treats as breakouts. */
  predicate LabBreakout(spec: StrategySpec) {
    spec.Valid() && (spec.signal == Breakout || spec.signal == RelativeStrength)
  }

  /** The window high and low include the last close, so no close clears a raised high or a
      lowered low. */
  lemma NoCloseClears(window: seq<real>, threshold: real)
    requires window != [] && Positive(window) && threshold > 0.0
    ensures var last := window[|window| - 1];
            LowerBy(MinOf(window), threshold) < last < RaiseBy(MaxOf(window), threshold)
  {
    hide RaiseBy, LowerBy;
    assert window[|window| - 1] in window;
    RaiseLower(MaxOf(window), threshold);
    RaiseLower(MinOf(window), threshold);
  }

  lemma BreakoutSignalsAreZero(spec: StrategySpec, closes: seq<real>, i: nat)
    requires spec.Valid() && spec.entryThreshold > 0.0 && Positive(closes) && i < |closes|
    ensures LabBreakout(spec) ==> RunSignals(spec, closes, 0)[i] == 0.0
    ensures spec.signal == Breakout ==> VbtSignals(ReadConfig(spec), closes)[i] == 0.0
  {
    hide MovingAverage, MaxOf, MinOf, RaiseBy, LowerBy, Deviation;
    SameClamp(spec, |closes|);
    var slow := EffectiveSlow(spec.slowWindow, |closes|);
    if i >= slow {
      var window := LastN(closes[..i], slow);
      assert window[slow - 1] == closes[i - 1];
      NoCloseClears(window, spec.entryThreshold);
    }
  }

  function Zeros(n: nat): seq<real> { seq(n, i => 0.0) }

  function Ones(n: nat): seq<real> { seq(n, i => 1.0) }

  /** Without a signal nothing ever happens, whatever the stop. */
  lemma {:induction false} QuietRun(spec: StrategySpec, signals: seq<real>, closes: seq<real>, n: nat)
    requires Positive(closes) && |signals| == |closes| && n < |closes|
    requires forall i :: 1 <= i <= n ==> signals[i] == 0.0
    ensures var s := After(spec, signals, closes, n);
            && s.previous == 0.0 && s.trades == [] && s.stoppedUntil == -1
            && s.earned == Zeros(n) && s.equity == Ones(n) && s.value == 1.0
  {
    if n > 0 {
      hide AssetReturn;
      QuietRun(spec, signals, closes, n - 1);
      QuietBar(AssetReturn(closes, n), spec.feeBps);
      assert Zeros(n) == Zeros(n - 1) + [0.0] && Ones(n) == Ones(n - 1) + [1.0];
    }
  }

  lemma QuietBar(assetReturn: real, feeBps: real)
    ensures PeriodReturn(0.0, 0.0, assetReturn, feeBps) == 0.0 && Grow(1.0, 0.0) == 1.0
  {
  }

  lemma {:induction false} QuietVbtRun(costBps: real, signals: seq<real>, closes: seq<real>, cash: real, n: nat)
    requires Positive(closes) && |signals| == |closes| && n < |closes|
    requires forall i :: 1 <= i <= n ==> signals[i] == 0.0
    ensures var s := VbtAfter(costBps, signals, closes, cash, n);
            s.previous == 0.0 && s.trades == [] && s.earned == Zeros(n) && s.equitySoFar == cash
  {
    if n > 0 {
      hide AssetReturn;
      QuietVbtRun(costBps, signals, closes, cash, n - 1);
      QuietBar(AssetReturn(closes, n), costBps);
      assert Zeros(n) == Zeros(n - 1) + [0.0];
    }
  }

  /** A breakout with a positive threshold is inert in both engines: no trade, zero returns,
      equity that never moves. */
  lemma PositiveThresholdIsInert(spec: StrategySpec, closes: seq<real>, cash: real)
    requires spec.Valid() && spec.entryThreshold > 0.0 && Positive(closes) && |closes| >= 4
    ensures LabBreakout(spec) ==>
              Run(spec, closes, 0) == EngineResult(Ones(|closes| - 1), [], Zeros(|closes| - 1))
    ensures spec.signal == Breakout ==>
              var vbt := VbtRun(spec, closes, cash);
              vbt.Some? && vbt.value.trades == [] && vbt.value.earned == Zeros(|closes| - 1)
              && vbt.value.equitySoFar == cash
  {
    hide After, VbtAfter, RunSignals, VbtSignals;
    forall i | 1 <= i < |closes|
      ensures LabBreakout(spec) ==> RunSignals(spec, closes, 0)[i] == 0.0
      ensures spec.signal == Breakout ==> VbtSignals(ReadConfig(spec), closes)[i] == 0.0
    {
      BreakoutSignalsAreZero(spec, closes, i);
    }
    if LabBreakout(spec) {
      QuietRun(spec, RunSignals(spec, closes, 0), closes, |closes| - 1);
    }
    if spec.signal == Breakout {
      var c := ReadConfig(spec);
      QuietVbtRun(c.costBps, VbtSignals(c, closes), closes, cash, |closes| - 1);
    }
  }

  /** At threshold zero a long is taken exactly when the last close is the window maximum. */
  lemma ZeroThresholdBuysHighs(spec: StrategySpec, history: seq<real>, fast: nat, slow: nat)
    requires LabBreakout(spec) && spec.entryThreshold == 0.0
    requires 0 < fast && 0 < slow <= |history|
    ensures DailySignal(spec, history, fast, slow) == spec.maxPosition
       <==> forall x :: x in LastN(history, slow) ==> x <= history[|history| - 1]
  {
    hide MovingAverage, RaiseBy, LowerBy;
    var window := LastN(history, slow);
    RaiseByZero(MaxOf(window));
    assert window[slow - 1] == history[|history| - 1];
  }

  /** Does every run over n positive closes end without a trade? */
  ghost predicate Inert(spec: StrategySpec, n: nat)
    requires spec.Valid()
  {
    forall closes: seq<real> :: Positive(closes) && |closes| == n ==> Run(spec, closes, 0).trades == []
  }

  /** For runs the lab accepts, a breakout strategy is inert exactly when its threshold is
      positive. */
  lemma BreakoutInertIff(spec: StrategySpec, n: nat)
    requires LabBreakout(spec) && n >= 4
    ensures Inert(spec, n) <==> spec.entryThreshold > 0.0
  {
    if spec.entryThreshold > 0.0 {
      forall closes: seq<real> | Positive(closes) && |closes| == n
        ensures Run(spec, closes, 0).trades == []
      {
        PositiveThresholdIsInert(spec, closes, 1.0);
      }
    } else {
      FlatSeriesTrades(spec, n);
    }
  }

  lemma FlatSeriesTrades(spec: StrategySpec, n: nat)
    requires LabBreakout(spec) && spec.entryThreshold == 0.0 && n >= 4
    ensures Run(spec, Flat(n), 0).trades != []
  {
    hide AssetReturn, PeriodReturn, Grow, DailySignal, MovingAverage;
    var slow := EffectiveSlow(spec.slowWindow, n);
    var fast := EffectiveFast(spec.fastWindow, slow);
    var signals := RunSignals(spec, Flat(n), 0);
    forall i | 1 <= i < slow
      ensures signals[i] == 0.0
    {
      ShortHistory(spec, Flat(n)[..i], fast, slow);
    }
    QuietRun(spec, signals, Flat(n), slow - 1);
    ZeroThresholdBuysHighs(spec, Flat(n)[..slow], fast, slow);
    assert signals[slow] == spec.maxPosition;
    assert After(spec, signals, Flat(n), slow).previous == spec.maxPosition;
    LogAnswersForEveryBar(spec, signals, Flat(n), slow, n - 1);
  }

  lemma ShortHistory(spec: StrategySpec, history: seq<real>, fast: nat, slow: nat)
    requires 0 < fast && |history| < slow
    ensures DailySignal(spec, history, fast, slow) == 0.0
  {
  }
}
