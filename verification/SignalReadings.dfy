/** When the lab engine and the compatible engine log the same trades.  They read every signal the
    same way but relative_strength, which one takes for a breakout and the other for momentum. */
module SignalReadings {
  import opened RealMath
  import opened StrategySpecs
  import opened DailyEngine
  import opened VectorbtEngine
  import opened EngineAgreement
  import opened BreakoutRuns

  /** On every series of n closes the lab log is the compatible log scaled by the position bound. */
  ghost predicate LogsAgree(spec: StrategySpec, n: nat)
    requires spec.Valid() && n >= 4
  {
    forall closes: seq<real>, cash: real :: Positive(closes) && |closes| == n ==>
      LogScales(spec.maxPosition, Run(spec, closes, 0).trades, VbtRun(spec, closes, cash).value.trades)
  }

  /** The windows of a run over n closes. */
  function Slow(spec: StrategySpec, n: nat): nat { EffectiveSlow(spec.slowWindow, n) }

  function Fast(spec: StrategySpec, n: nat): nat { EffectiveFast(spec.fastWindow, Slow(spec, n)) }

  lemma WindowsFit(spec: StrategySpec, n: nat)
    requires spec.Valid() && n >= 4
    ensures 2 <= Fast(spec, n) < Slow(spec, n) < n
  {
  }

  /** The compatible engine logs a trade exactly when some bar has a signal. */
  lemma {:induction false} TradesIffSignal(costBps: real, signals: seq<real>, closes: seq<real>, cash: real, n: nat)
    requires Positive(closes) && |signals| == |closes| && n < |closes|
    ensures VbtAfter(costBps, signals, closes, cash, n).trades == []
       <==> forall i :: 1 <= i <= n ==> signals[i] == 0.0
  {
    hide AssetReturn, PeriodReturn, Grow, Abs;
    if n > 0 {
      TradesIffSignal(costBps, signals, closes, cash, n - 1);
      WeightsAreTargets(costBps, signals, closes, cash, n - 1, n - 1);
    }
  }

  // ------------------------------------------------------------------------- the spread

  lemma DeviationBeyond(x: real, base: real, threshold: real)
    requires base > 0.0
    ensures Deviation(x, base) > threshold <==> x > RaiseBy(base, threshold)
    ensures Deviation(x, base) < -threshold <==> x < LowerBy(base, threshold)
  {
    var q := Deviation(x, base);
    assert q * base == x - base;
    SignOfProduct(q - threshold, base);
    SignOfProduct(q + threshold, base);
    assert (q - threshold) * base == x - RaiseBy(base, threshold);
    assert (q + threshold) * base == x - LowerBy(base, threshold);
  }

  lemma SignOfProduct(x: real, y: real)
    requires y > 0.0
    ensures x * y > 0.0 <==> x > 0.0
    ensures x * y < 0.0 <==> x < 0.0
  {
    if x > 0.0 {
      assert x * y > 0.0;
    } else if x < 0.0 {
      assert (-x) * y > 0.0;
    }
  }

  /** The slow window ends with the fast one. */
  lemma WindowSplits(history: seq<real>, fast: nat, slow: nat)
    requires Positive(history) && 0 < fast < slow <= |history|
    ensures var whole := LastN(history, slow);
            |whole| == slow && whole == whole[..slow - fast] + LastN(history, fast) && Positive(whole)
    ensures |LastN(history, fast)| == fast && Positive(LastN(history, fast))
  {
    var whole, tail := LastN(history, slow), LastN(history, fast);
    assert forall i :: 0 <= i < fast ==> whole[slow - fast + i] == tail[i];
  }

  /** So its sum is the larger one. */
  lemma SlowSumExceeds(history: seq<real>, fast: nat, slow: nat)
    requires Positive(history) && 0 < fast < slow <= |history|
    ensures 0.0 < Sum(LastN(history, fast)) < Sum(LastN(history, slow))
  {
    WindowSplits(history, fast, slow);
    hide LastN, Sum;
    var head := LastN(history, slow)[..slow - fast];
    SumConcat(head, LastN(history, fast));
    SumPositive(head);
    SumPositive(LastN(history, fast));
  }

  /** So the fast average stays below slow/fast times the slow one. */
  lemma AveragesBounded(a: real, b: real, fast: real, slow: real, threshold: real)
    requires 0.0 < a < b && 0.0 < fast && 0.0 < slow && slow <= RaiseBy(fast, threshold)
    ensures a / fast <= RaiseBy(b / slow, threshold)
  {
    var x, y := a / fast, b / slow;
    assert x * fast == a && y * slow == b;
    SignOfProduct(y, slow);
    SignOfProduct(RaiseBy(fast, threshold) - slow, y);
    assert (RaiseBy(y, threshold) - x) * fast == (RaiseBy(fast, threshold) - slow) * y + (b - a);
    SignOfProduct(RaiseBy(y, threshold) - x, fast);
  }

  lemma SpreadStaysInside(history: seq<real>, fast: nat, slow: nat, threshold: real)
    requires Positive(history) && 0 < fast < slow <= |history|
    requires slow as real <= RaiseBy(fast as real, threshold)
    ensures Deviation(MovingAverage(history, fast), MovingAverage(history, slow)) <= threshold
  {
    hide RaiseBy, LowerBy, Deviation;
    SlowSumExceeds(history, fast, slow);
    AveragePositive(history, slow);
    AveragesBounded(Sum(LastN(history, fast)), Sum(LastN(history, slow)), fast as real, slow as real, threshold);
    DeviationBeyond(MovingAverage(history, fast), MovingAverage(history, slow), threshold);
  }

  // -------------------------------------------------------------------- two-level series

  /** Some closes at one level, the rest at another. */
  function Levels(n: nat, k: nat, a: real, b: real): (closes: seq<real>)
    ensures |closes| == n && forall i :: 0 <= i < n ==> closes[i] == if i < k then a else b
  {
    seq(n, i => if i < k then a else b)
  }

  /** The slow window of such a history is the part at the first level and then the fast window. */
  lemma LevelWindows(n: nat, fast: nat, slow: nat, a: real, b: real)
    requires 0 < fast < slow <= n
    ensures var history := Levels(n, slow - fast, a, b)[..slow];
            LastN(history, slow) == history[..slow - fast] + LastN(history, fast)
    ensures var head := Levels(n, slow - fast, a, b)[..slow][..slow - fast];
            |head| == slow - fast && forall i :: 0 <= i < |head| ==> head[i] == a
    ensures var tail := LastN(Levels(n, slow - fast, a, b)[..slow], fast);
            |tail| == fast && forall i :: 0 <= i < |tail| ==> tail[i] == b
  {
  }

  lemma LevelAverages(n: nat, fast: nat, slow: nat, a: real, b: real)
    requires 0 < fast < slow <= n
    ensures var history := Levels(n, slow - fast, a, b)[..slow];
            && MovingAverage(history, fast) == b
            && Sum(LastN(history, slow)) == Scale((slow - fast) as real, a) + Scale(fast as real, b)
  {
    LevelWindows(n, fast, slow, a, b);
    hide Levels, LastN, Sum, Scale;
    var history := Levels(n, slow - fast, a, b)[..slow];
    SumIsScaled(LastN(history, fast), b);
    SumIsScaled(history[..slow - fast], a);
    SumConcat(history[..slow - fast], LastN(history, fast));
    Cancel(fast as real, b);
  }

  lemma SumIsScaled(xs: seq<real>, x: real)
    requires forall i :: 0 <= i < |xs| ==> xs[i] == x
    ensures Sum(xs) == Scale(|xs| as real, x)
  {
    SumOfEqual(xs, x);
  }

  lemma Cancel(n: real, x: real)
    requires n > 0.0
    ensures Scale(n, x) / n == x
  {
  }

  /** Comparing with a quotient. */
  lemma AboveQuotient(x: real, sum: real, n: real, threshold: real)
    requires n > 0.0
    ensures x > RaiseBy(sum / n, threshold) <==> Scale(n, x) > RaiseBy(sum, threshold)
    ensures x < LowerBy(sum / n, threshold) <==> Scale(n, x) < LowerBy(sum, threshold)
  {
    var q := sum / n;
    assert q * n == sum;
    assert (x - RaiseBy(q, threshold)) * n == Scale(n, x) - RaiseBy(sum, threshold);
    assert (x - LowerBy(q, threshold)) * n == Scale(n, x) - LowerBy(sum, threshold);
    SignOfProduct(x - RaiseBy(q, threshold), n);
    SignOfProduct(x - LowerBy(q, threshold), n);
  }

  /** How high a rise has to be for the spread to clear the threshold. */
  function Peak(fast: real, slow: real, threshold: real): real
    requires slow - RaiseBy(fast, threshold) > 0.0
  {
    (RaiseBy(slow - fast, threshold) + 1.0) / (slow - RaiseBy(fast, threshold))
  }

  lemma PeakClears(fast: real, slow: real, threshold: real)
    requires 0.0 < fast < slow && threshold >= 0.0 && slow - RaiseBy(fast, threshold) > 0.0
    ensures var peak := Peak(fast, slow, threshold);
            peak > 0.0 && Scale(slow, peak) > RaiseBy(Scale(slow - fast, 1.0) + Scale(fast, peak), threshold)
  {
    var room, peak := slow - RaiseBy(fast, threshold), Peak(fast, slow, threshold);
    assert peak * room == RaiseBy(slow - fast, threshold) + 1.0;
    assert (slow - fast) * threshold >= 0.0;
    SignOfProduct(peak, room);
    assert peak * room == Scale(slow, peak) - RaiseBy(Scale(fast, peak), threshold);
  }

  lemma FallClears(fast: real, slow: real, threshold: real)
    requires 0.0 < fast && fast + 1.0 <= slow && 0.0 <= threshold <= 0.5
    ensures Scale(slow, 1.0) < LowerBy(Scale(slow - fast, 2.0 * slow) + Scale(fast, 1.0), threshold)
  {
    var sum := Scale(slow - fast, 2.0 * slow) + Scale(fast, 1.0);
    AtLeastOnce(slow - fast, 2.0 * slow);
    assert sum >= 2.0 * slow + fast;
    HalfAtMost(sum, threshold);
  }

  lemma AtLeastOnce(times: real, x: real)
    requires times >= 1.0 && x > 0.0
    ensures Scale(times, x) >= x
  {
    SignOfProduct(times - 1.0, x);
    assert Scale(times, x) == (times - 1.0) * x + x;
  }

  lemma HalfAtMost(x: real, threshold: real)
    requires x > 0.0 && threshold <= 0.5
    ensures LowerBy(x, threshold) >= x / 2.0
  {
    SignOfProduct(0.5 - threshold, x);
    assert LowerBy(x, threshold) == (0.5 - threshold) * x + x / 2.0;
  }

  // ---------------------------------------------------------------------- the condition

  /** No series of n closes can move the compatible engine off flat under this reading. */
  predicate SpreadCannotClear(spec: StrategySpec, n: nat)
    requires spec.Valid() && n >= 4
  {
    !spec.longShort && Slow(spec, n) as real <= RaiseBy(Fast(spec, n) as real, spec.entryThreshold)
  }

  predicate Rereads(spec: StrategySpec) {
    spec.Valid() && spec.signal == RelativeStrength && spec.stopLossPct == None
  }

  lemma InsideSpreadIsQuiet(spec: StrategySpec, closes: seq<real>, i: nat)
    requires Rereads(spec) && Positive(closes) && |closes| >= 4 && i < |closes|
    requires SpreadCannotClear(spec, |closes|)
    ensures VbtSignals(ReadConfig(spec), closes)[i] == 0.0
  {
    hide MovingAverage, Deviation, RaiseBy;
    SameClamp(spec, |closes|);
    WindowsFit(spec, |closes|);
    if i >= Slow(spec, |closes|) {
      SpreadStaysInside(closes[..i], Fast(spec, |closes|), Slow(spec, |closes|), spec.entryThreshold);
    }
  }

  /** A series on which the compatible engine does trade when the spread can clear. */
  function Clearing(spec: StrategySpec, n: nat): seq<real>
    requires spec.Valid() && n >= 4 && !SpreadCannotClear(spec, n)
  {
    var fast, slow := Fast(spec, n), Slow(spec, n);
    if slow as real > RaiseBy(fast as real, spec.entryThreshold)
    then Levels(n, slow - fast, 1.0, Peak(fast as real, slow as real, spec.entryThreshold))
    else Levels(n, slow - fast, 2.0 * slow as real, 1.0)
  }

  /** There the spread clears the threshold as soon as the slow window fills. */
  lemma SpreadClears(spec: StrategySpec, n: nat)
    requires spec.Valid() && n >= 4 && !SpreadCannotClear(spec, n)
    ensures |Clearing(spec, n)| == n && Positive(Clearing(spec, n)) && Slow(spec, n) < n
    ensures var history := Clearing(spec, n)[..Slow(spec, n)];
            var spread := Deviation(MovingAverage(history, Fast(spec, n)), MovingAverage(history, Slow(spec, n)));
            spread > spec.entryThreshold || (spec.longShort && spread < -spec.entryThreshold)
  {
    hide MovingAverage, Deviation, RaiseBy, LowerBy, Scale, Peak, Sum, LastN;
    WindowsFit(spec, n);
    var fast, slow, threshold := Fast(spec, n), Slow(spec, n), spec.entryThreshold;
    var closes := Clearing(spec, n);
    var history := closes[..slow];
    var sum := Sum(LastN(history, slow));
    if slow as real > RaiseBy(fast as real, threshold) {
      PeakClears(fast as real, slow as real, threshold);
      LevelAverages(n, fast, slow, 1.0, Peak(fast as real, slow as real, threshold));
    } else {
      FallClears(fast as real, slow as real, threshold);
      LevelAverages(n, fast, slow, 2.0 * slow as real, 1.0);
    }
    AveragePositive(history, slow);
    AverageIs(history, slow);
    AboveQuotient(MovingAverage(history, fast), sum, slow as real, threshold);
    DeviationBeyond(MovingAverage(history, fast), MovingAverage(history, slow), threshold);
  }

  lemma ClearingClears(spec: StrategySpec, n: nat)
    requires Rereads(spec) && n >= 4 && !SpreadCannotClear(spec, n)
    ensures var closes := Clearing(spec, n);
            |closes| == n && Positive(closes) && VbtSignals(ReadConfig(spec), closes)[Slow(spec, n)] != 0.0
  {
    hide MovingAverage, Deviation, SpreadCannotClear, Clearing;
    SameClamp(spec, n);
    SpreadClears(spec, n);
    AveragePositive(Clearing(spec, n)[..Slow(spec, n)], Slow(spec, n));
  }

  lemma AverageIs(values: seq<real>, window: nat)
    requires window > 0
    ensures MovingAverage(values, window) == Sum(LastN(values, window)) / window as real
  {
  }

  /** Exactly when the engines log the same trades on every series of n closes, at any position
      bound and slippage: always but for relative_strength, and then only when neither can trade. */
  lemma LogsAgreeIff(spec: StrategySpec, n: nat)
    requires spec.Valid() && spec.stopLossPct == None && n >= 4
    ensures LogsAgree(spec, n) <==>
            (spec.signal != RelativeStrength || (spec.entryThreshold > 0.0 && SpreadCannotClear(spec, n)))
  {
    hide SpreadCannotClear, Run, VbtAfter, VbtSignals, Clearing;
    if spec.signal != RelativeStrength {
      forall closes: seq<real>, cash: real | Positive(closes) && |closes| == n
        ensures LogScales(spec.maxPosition, Run(spec, closes, 0).trades, VbtRun(spec, closes, cash).value.trades)
      {
        EngineLogsAgree(spec, closes, cash);
      }
    } else if spec.entryThreshold == 0.0 {
      FlatLogsDiffer(spec, n);
    } else if SpreadCannotClear(spec, n) {
      forall closes: seq<real>, cash: real | Positive(closes) && |closes| == n
        ensures LogScales(spec.maxPosition, Run(spec, closes, 0).trades, VbtRun(spec, closes, cash).value.trades)
      {
        BothQuiet(spec, closes, cash);
      }
    } else {
      ClearingLogsDiffer(spec, n);
    }
  }

  lemma BothQuiet(spec: StrategySpec, closes: seq<real>, cash: real)
    requires Rereads(spec) && spec.entryThreshold > 0.0 && Positive(closes) && |closes| >= 4
    requires SpreadCannotClear(spec, |closes|)
    ensures Run(spec, closes, 0).trades == [] && VbtRun(spec, closes, cash).value.trades == []
  {
    hide VbtSignals, VbtAfter, SpreadCannotClear, Run;
    PositiveThresholdIsInert(spec, closes, cash);
    var c := ReadConfig(spec);
    forall i | 0 <= i < |closes|
      ensures VbtSignals(c, closes)[i] == 0.0
    {
      InsideSpreadIsQuiet(spec, closes, i);
    }
    TradesIffSignal(c.costBps, VbtSignals(c, closes), closes, cash, |closes| - 1);
  }

  lemma ClearingLogsDiffer(spec: StrategySpec, n: nat)
    requires Rereads(spec) && spec.entryThreshold > 0.0 && n >= 4 && !SpreadCannotClear(spec, n)
    ensures var closes := Clearing(spec, n);
            && |closes| == n && Positive(closes)
            && Run(spec, closes, 0).trades == [] && VbtRun(spec, closes, 1.0).value.trades != []
  {
    hide VbtSignals, VbtAfter, SpreadCannotClear, Clearing, Run;
    var closes := Clearing(spec, n);
    ClearingClears(spec, n);
    WindowsFit(spec, n);
    PositiveThresholdIsInert(spec, closes, 1.0);
    var c := ReadConfig(spec);
    TradesIffSignal(c.costBps, VbtSignals(c, closes), closes, 1.0, n - 1);
  }

  lemma FlatLogsDiffer(spec: StrategySpec, n: nat)
    requires Rereads(spec) && spec.entryThreshold == 0.0 && n >= 4
    ensures Run(spec, Flat(n), 0).trades != [] && VbtRun(spec, Flat(n), 1.0).value.trades == []
  {
    hide VbtSignals, VbtAfter, Run;
    FlatSeriesTrades(spec, n);
    var c := ReadConfig(spec);
    forall i | 0 <= i < n
      ensures VbtSignals(c, Flat(n))[i] == 0.0
    {
      FlatIsQuiet(spec, n, i);
    }
    TradesIffSignal(c.costBps, VbtSignals(c, Flat(n)), Flat(n), 1.0, n - 1);
  }

  lemma FlatIsQuiet(spec: StrategySpec, n: nat, i: nat)
    requires Rereads(spec) && spec.entryThreshold == 0.0 && i < n && n >= 4
    ensures VbtSignals(ReadConfig(spec), Flat(n))[i] == 0.0
  {
    hide MovingAverage;
    SameClamp(spec, n);
    WindowsFit(spec, n);
    if i >= Slow(spec, n) {
      FlatAverage(Flat(n)[..i], Fast(spec, n));
      FlatAverage(Flat(n)[..i], Slow(spec, n));
    }
  }
}
