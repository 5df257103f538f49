/** The stop-loss machine inside the daily engine, for any signals. */
module StopLoss {
  import opened RealMath
  import opened StrategySpecs
  import opened DailyEngine

  /** Was the position held into bar i long? */
  predicate LongInto(spec: StrategySpec, signals: seq<real>, closes: seq<real>, i: nat)
    requires Positive(closes) && |signals| == |closes| && 1 <= i < |closes|
  {
    After(spec, signals, closes, i - 1).previous > 0.0
  }

  /** Did the stop fire at bar i? */
  predicate Fired(spec: StrategySpec, signals: seq<real>, closes: seq<real>, i: nat)
    requires Positive(closes) && |signals| == |closes|
  {
    1 <= i < |closes| &&
    var s := After(spec, signals, closes, i - 1);
    StopCheck(spec, s.previous, s.peak, closes[i - 1]).1
  }

  /** Is bar i inside the cool-down of a stop that fired at or before it? */
  predicate CoolingDown(spec: StrategySpec, signals: seq<real>, closes: seq<real>, i: nat)
    requires Positive(closes) && |signals| == |closes|
  {
    exists t: nat :: t <= i < t + spec.rebalanceDays && Fired(spec, signals, closes, t)
  }

  /** The stop a strategy may carry. */
  predicate Stops(spec: StrategySpec) {
    spec.stopLossPct.Some? && 0.0 < spec.stopLossPct.value < 1.0 && spec.rebalanceDays >= 1
  }

  /** The peak moves up only, and only to a close seen while long. */
  lemma PeakMoves(spec: StrategySpec, previous: real, peak: real, last: real)
    requires Stops(spec) && peak > 0.0
    ensures StopCheck(spec, previous, peak, last).0 == if previous > 0.0 then Max(peak, last) else peak
  {
    var stop := spec.stopLossPct.value;
    RaiseLower(peak, stop);
  }

  /** The reference peak: the first close, or the highest close before a bar entered long. */
  function HighWater(spec: StrategySpec, signals: seq<real>, closes: seq<real>, i: nat): real
    requires Positive(closes) && |signals| == |closes| && i < |closes|
  {
    if i == 0 then closes[0]
    else
      var before := HighWater(spec, signals, closes, i - 1);
      if LongInto(spec, signals, closes, i) then Max(before, closes[i - 1]) else before
  }

  /** The engine's running peak is the high-water mark: it starts at the first close and never
      decreases; in particular the `min` of the short branch never lowers it. */
  lemma {:induction false} PeakIsHighWater(spec: StrategySpec, signals: seq<real>, closes: seq<real>, i: nat)
    requires Stops(spec) && Positive(closes) && |signals| == |closes| && i < |closes|
    ensures After(spec, signals, closes, i).peak == HighWater(spec, signals, closes, i) > 0.0
    ensures i > 0 ==> After(spec, signals, closes, i).peak >= After(spec, signals, closes, i - 1).peak
  {
    hide PeriodReturn, Grow, AssetReturn, StopCheck;
    if i > 0 {
      PeakIsHighWater(spec, signals, closes, i - 1);
      var s := After(spec, signals, closes, i - 1);
      PeakMoves(spec, s.previous, s.peak, closes[i - 1]);
    }
  }

  /** When the stop fires, in terms of the high-water mark: a long at or below the trailing
      level, a short at or above the mirrored one. */
  lemma FiredIff(spec: StrategySpec, signals: seq<real>, closes: seq<real>, i: nat)
    requires Stops(spec) && Positive(closes) && |signals| == |closes| && 1 <= i < |closes|
    ensures Fired(spec, signals, closes, i) <==>
            var held := After(spec, signals, closes, i - 1).previous;
            var mark := HighWater(spec, signals, closes, i);
            || (held > 0.0 && closes[i - 1] <= LowerBy(mark, spec.stopLossPct.value))
            || (held < 0.0 && closes[i - 1] >= RaiseBy(mark, spec.stopLossPct.value))
  {
    hide After, RaiseBy, LowerBy;
    PeakIsHighWater(spec, signals, closes, i - 1);
  }

  /** The cool-down register holds the end of the latest stop's cool-down. */
  ghost predicate RegisterOk(spec: StrategySpec, signals: seq<real>, closes: seq<real>, i: nat)
    requires Positive(closes) && |signals| == |closes| && i < |closes|
  {
    var until := After(spec, signals, closes, i).stoppedUntil;
    && (until == -1 || exists t: nat :: t <= i && until == t + spec.rebalanceDays && Fired(spec, signals, closes, t))
    && (forall t: nat :: t <= i && Fired(spec, signals, closes, t) ==> t + spec.rebalanceDays <= until)
  }

  lemma {:induction false} RegisterHolds(spec: StrategySpec, signals: seq<real>, closes: seq<real>, i: nat)
    requires Positive(closes) && |signals| == |closes| && i < |closes|
    ensures RegisterOk(spec, signals, closes, i)
  {
    hide PeriodReturn, Grow, AssetReturn, StopCheck;
    if i > 0 {
      RegisterHolds(spec, signals, closes, i - 1);
      var s := After(spec, signals, closes, i);
      var p := After(spec, signals, closes, i - 1);
      if Fired(spec, signals, closes, i) {
        assert s.stoppedUntil == i + spec.rebalanceDays;
      } else {
        assert s.stoppedUntil == p.stoppedUntil;
      }
    }
  }

  /** Main result: at every bar the engine is flat exactly when some stop is cooling down, and
      otherwise takes its signal. */
  lemma TargetIsGatedSignal(spec: StrategySpec, signals: seq<real>, closes: seq<real>, i: nat)
    requires Stops(spec) && Positive(closes) && |signals| == |closes| && 1 <= i < |closes|
    ensures After(spec, signals, closes, i).previous
         == if CoolingDown(spec, signals, closes, i) then 0.0 else signals[i]
  {
    hide PeriodReturn, Grow, AssetReturn, StopCheck;
    RegisterHolds(spec, signals, closes, i);
    var s := After(spec, signals, closes, i);
    if Fired(spec, signals, closes, i) {
      assert CoolingDown(spec, signals, closes, i);
    } else if i < s.stoppedUntil {
      var t: nat :| t <= i && s.stoppedUntil == t + spec.rebalanceDays && Fired(spec, signals, closes, t);
      assert CoolingDown(spec, signals, closes, i);
    }
  }

  /** Two stops are more than a cool-down apart: a stop needs a position, and the first one can
      only be held into the bar after the cool-down ends. */
  lemma StopsAreApart(spec: StrategySpec, signals: seq<real>, closes: seq<real>, i: nat, j: nat)
    requires Stops(spec) && Positive(closes) && |signals| == |closes|
    requires i < j && Fired(spec, signals, closes, i) && Fired(spec, signals, closes, j)
    ensures j >= i + spec.rebalanceDays + 1
  {
    if j < i + spec.rebalanceDays + 1 {
      assert CoolingDown(spec, signals, closes, j - 1);
      TargetIsGatedSignal(spec, signals, closes, j - 1);
    }
  }

  /** A position carried through a bar is strictly inside its stop. */
  lemma CarriedPositionIsInsideStop(spec: StrategySpec, signals: seq<real>, closes: seq<real>, i: nat)
    requires Stops(spec) && Positive(closes) && |signals| == |closes| && 1 <= i < |closes|
    ensures var stop := spec.stopLossPct.value;
            var before, after := After(spec, signals, closes, i - 1), After(spec, signals, closes, i);
            && (before.previous > 0.0 && after.previous != 0.0 ==> closes[i - 1] > LowerBy(after.peak, stop))
            && (before.previous < 0.0 && after.previous != 0.0 ==> closes[i - 1] < RaiseBy(after.peak, stop))
  {
    hide After, RaiseBy, LowerBy, Fired;
    PeakIsHighWater(spec, signals, closes, i);
    FiredIff(spec, signals, closes, i);
    TargetIsGatedSignal(spec, signals, closes, i);
    if Fired(spec, signals, closes, i) {
      assert CoolingDown(spec, signals, closes, i);
    }
  }
}
