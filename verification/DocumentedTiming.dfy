/** The documented timing of returns: the target of a bar earns that bar's return.  The loop earns it
    with the target of the bar before, so the contract holds at a bar for all prices exactly when the
    strategy cannot trade there. */
module DocumentedTiming {
  import opened RealMath
  import opened StrategySpecs
  import opened DailyEngine
  import opened DailyRuns
  import opened BreakoutRuns
  import opened Causality
  import opened SignalReadings

  /** The return of bar i as documented: the target chosen at bar i earns bar i's return. */
  function DocumentedReturn(spec: StrategySpec, signals: seq<real>, closes: seq<real>, i: nat): real
    requires Positive(closes) && |signals| == |closes| && 1 <= i < |closes|
  {
    var before, after := After(spec, signals, closes, i - 1).previous, After(spec, signals, closes, i).previous;
    Profit(after, AssetReturn(closes, i)) - Fee(Abs(after - before), spec.feeBps)
  }

  /** The code earns bar i with the target of bar i-1; it meets the documented contract exactly
      on bars where the target does not change or the price does not move. */
  lemma DocumentedReturnIff(spec: StrategySpec, signals: seq<real>, closes: seq<real>, i: nat)
    requires Positive(closes) && |signals| == |closes| && 1 <= i < |closes|
    ensures After(spec, signals, closes, i).earned[i - 1] == DocumentedReturn(spec, signals, closes, i)
       <==> (After(spec, signals, closes, i).previous == After(spec, signals, closes, i - 1).previous
             || closes[i] == closes[i - 1])
  {
    hide Decide, Grow, Fee;
    var before, after := After(spec, signals, closes, i - 1).previous, After(spec, signals, closes, i).previous;
    ReturnZero(closes[i], closes[i - 1]);
    SameProfit(before, after, AssetReturn(closes, i));
  }

  lemma ReturnZero(close: real, before: real)
    requires before > 0.0
    ensures close / before - 1.0 == 0.0 <==> close == before
  {
    assert close == (close / before) * before;
  }

  lemma SameProfit(a: real, b: real, r: real)
    ensures Profit(a, r) == Profit(b, r) <==> (a == b || r == 0.0)
  {
    assert (a - b) * r == a * r - b * r;
  }

  /** On every series of n closes bar i earns what is documented. */
  ghost predicate Documented(spec: StrategySpec, n: nat, i: nat)
    requires spec.Valid() && 1 <= i < n
  {
    forall closes: seq<real> {:trigger RunSignals(spec, closes, 0)} :: Positive(closes) && |closes| == n ==>
      At(spec, closes, i).earned[i - 1] == DocumentedReturn(spec, RunSignals(spec, closes, 0), closes, i)
  }

  /** No series of n closes changes the target at bar i. */
  ghost predicate TargetFixed(spec: StrategySpec, n: nat, i: nat)
    requires spec.Valid() && 1 <= i < n
  {
    forall closes: seq<real> :: Positive(closes) && |closes| == n ==>
      Target(spec, closes, i) == Target(spec, closes, i - 1)
  }

  /** A target that changes at a bar changes there whatever the bar's own close is, and then there is
      a close at which the documented return differs. */
  lemma ChangeShows(spec: StrategySpec, closes: seq<real>, i: nat)
    requires spec.Valid() && Positive(closes) && 1 <= i < |closes|
    requires Target(spec, closes, i) != Target(spec, closes, i - 1)
    ensures var moved := closes[i := closes[i - 1] + 1.0];
            && Positive(moved) && |moved| == |closes|
            && At(spec, moved, i).earned[i - 1] != DocumentedReturn(spec, RunSignals(spec, moved, 0), moved, i)
  {
    hide After, RunSignals, DocumentedReturn;
    var moved := closes[i := closes[i - 1] + 1.0];
    assert closes[..i] == moved[..i];
    RunSettledByPrefix(spec, closes, 0, moved, 0, i, i);
    RunSettledByPrefix(spec, closes, 0, moved, 0, i, i - 1);
    DocumentedReturnIff(spec, RunSignals(spec, moved, 0), moved, i);
  }

  /** A strategy meets the documented contract at a bar, for all prices, exactly when no prices make
      it trade there. */
  lemma DocumentedIffTargetFixed(spec: StrategySpec, n: nat, i: nat)
    requires spec.Valid() && 1 <= i < n
    ensures Documented(spec, n, i) <==> TargetFixed(spec, n, i)
  {
    hide After, RunSignals, DocumentedReturn;
    if TargetFixed(spec, n, i) {
      forall closes: seq<real> {:trigger RunSignals(spec, closes, 0)} | Positive(closes) && |closes| == n
        ensures At(spec, closes, i).earned[i - 1] == DocumentedReturn(spec, RunSignals(spec, closes, 0), closes, i)
      {
        assert Target(spec, closes, i) == Target(spec, closes, i - 1);
        DocumentedReturnIff(spec, RunSignals(spec, closes, 0), closes, i);
      }
    } else {
      var closes: seq<real> :|
        Positive(closes) && |closes| == n && Target(spec, closes, i) != Target(spec, closes, i - 1);
      ChangeShows(spec, closes, i);
      assert |RunSignals(spec, closes[i := closes[i - 1] + 1.0], 0)| == n;
    }
  }

  // ------------------------------------------------------------------- first signals

  /** A strategy that has had no signal is flat and has never been stopped. */
  lemma FirstSignalMoves(spec: StrategySpec, closes: seq<real>, i: nat)
    requires spec.Valid() && Positive(closes) && 1 <= i < |closes|
    requires forall j :: 1 <= j < i ==> RunSignals(spec, closes, 0)[j] == 0.0
    ensures Target(spec, closes, i - 1) == 0.0
    ensures Target(spec, closes, i) == RunSignals(spec, closes, 0)[i]
  {
    hide RunSignals, PeriodReturn, Grow, AssetReturn;
    QuietRun(spec, RunSignals(spec, closes, 0), closes, i - 1);
  }

  /** The signal of a bar with a full window. */
  function SignalAt(spec: StrategySpec, closes: seq<real>, j: nat): real
    requires spec.Valid() && |closes| >= 4 && j < |closes|
  {
    DailySignal(spec, closes[..j], Fast(spec, |closes|), Slow(spec, |closes|))
  }

  lemma SignalsAre(spec: StrategySpec, closes: seq<real>, j: nat)
    requires spec.Valid() && |closes| >= 4 && j < |closes|
    ensures RunSignals(spec, closes, 0)[j] == SignalAt(spec, closes, j)
    ensures j < Slow(spec, |closes|) ==> SignalAt(spec, closes, j) == 0.0
  {
    hide MovingAverage, Deviation, RaiseBy, LowerBy, MaxOf, MinOf, LastN;
  }

  /** Closes on which the first signal comes at bar i change the target there. */
  lemma FirstSignalShows(spec: StrategySpec, closes: seq<real>, i: nat)
    requires spec.Valid() && Positive(closes) && |closes| >= 4 && 1 <= i < |closes|
    requires forall j :: Slow(spec, |closes|) <= j < i ==> SignalAt(spec, closes, j) == 0.0
    requires SignalAt(spec, closes, i) != 0.0
    ensures !TargetFixed(spec, |closes|, i)
  {
    hide SignalAt, Slow, RunSignals, Target;
    forall j | 1 <= j <= i
      ensures RunSignals(spec, closes, 0)[j] == SignalAt(spec, closes, j)
      ensures j < i ==> RunSignals(spec, closes, 0)[j] == 0.0
    {
      SignalsAre(spec, closes, j);
    }
    FirstSignalMoves(spec, closes, i);
  }

  /** Where no closes give a signal up to bar i, the target is fixed. */
  lemma NoSignalFixes(spec: StrategySpec, n: nat, i: nat)
    requires spec.Valid() && n >= 4 && 1 <= i < n
    requires forall closes: seq<real>, j: nat :: Positive(closes) && |closes| == n && j <= i ==>
               SignalAt(spec, closes, j) == 0.0
    ensures TargetFixed(spec, n, i)
  {
    hide SignalAt, RunSignals, Target;
    forall closes: seq<real> | Positive(closes) && |closes| == n
      ensures Target(spec, closes, i) == Target(spec, closes, i - 1)
    {
      forall j: nat | j <= i
        ensures RunSignals(spec, closes, 0)[j] == 0.0
      {
        SignalsAre(spec, closes, j);
        assert SignalAt(spec, closes, j) == 0.0;
      }
      FirstSignalMoves(spec, closes, i);
    }
  }

  // ------------------------------------------------------------------------ two levels

  /** A signal only reads its slow window. */
  lemma SignalReadsWindow(spec: StrategySpec, history: seq<real>, fast: nat, slow: nat)
    requires 0 < fast <= slow <= |history|
    ensures DailySignal(spec, history, fast, slow) == DailySignal(spec, LastN(history, slow), fast, slow)
  {
    hide RaiseBy, LowerBy, Deviation, MaxOf, MinOf;
    var window := LastN(history, slow);
    assert LastN(window, slow) == window;
    assert LastN(window, fast) == LastN(history, fast);
    assert window[slow - 1] == history[|history| - 1];
    hide LastN;
  }

  /** The signal on a window whose last m closes are at a new level. */
  function LevelSignal(spec: StrategySpec, n: nat, a: real, b: real, m: nat): real
    requires spec.Valid() && n >= 4 && m <= Slow(spec, n)
  {
    DailySignal(spec, Levels(Slow(spec, n), Slow(spec, n) - m, a, b), Fast(spec, n), Slow(spec, n))
  }

  /** On two levels the bars see window after window, with ever more closes at the new level. */
  lemma LevelSignals(spec: StrategySpec, n: nat, a: real, b: real, start: nat, j: nat)
    requires spec.Valid() && n >= 4 && Slow(spec, n) <= j < n && j <= start + Slow(spec, n)
    ensures SignalAt(spec, Levels(n, start, a, b), j)
         == LevelSignal(spec, n, a, b, if j > start then j - start else 0)
  {
    hide Fast, Slow, DailySignal;
    WindowsFit(spec, n);
    var slow := Slow(spec, n);
    var m := if j > start then j - start else 0;
    var h, g := Levels(n, start, a, b)[..j], Levels(slow, slow - m, a, b);
    assert LastN(h, slow) == g;
    SignalReadsWindow(spec, h, Fast(spec, n), slow);
  }

  lemma {:induction false} FirstLevel(spec: StrategySpec, n: nat, a: real, b: real, top: nat) returns (m: nat)
    requires spec.Valid() && n >= 4 && 1 <= top <= Slow(spec, n)
    requires LevelSignal(spec, n, a, b, 0) == 0.0 && LevelSignal(spec, n, a, b, top) != 0.0
    ensures 1 <= m <= top && LevelSignal(spec, n, a, b, m) != 0.0
    ensures forall k :: 0 <= k < m ==> LevelSignal(spec, n, a, b, k) == 0.0
  {
    hide LevelSignal, Slow;
    m := 1;
    while LevelSignal(spec, n, a, b, m) == 0.0
      invariant 1 <= m <= top && forall k :: 0 <= k < m ==> LevelSignal(spec, n, a, b, k) == 0.0
      decreases top - m
    {
      m := m + 1;
    }
  }

  /** Two levels with a signal on some window have a first one at any bar with a full window. */
  lemma LevelsShow(spec: StrategySpec, n: nat, a: real, b: real, top: nat, i: nat)
    requires spec.Valid() && n >= 4 && a > 0.0 && b > 0.0 && 1 <= top <= Slow(spec, n) <= i < n
    requires LevelSignal(spec, n, a, b, 0) == 0.0 && LevelSignal(spec, n, a, b, top) != 0.0
    ensures !TargetFixed(spec, n, i)
  {
    hide LevelSignal, SignalAt, Slow, TargetFixed;
    var m := FirstLevel(spec, n, a, b, top);
    var closes := Levels(n, i - m, a, b);
    forall j | Slow(spec, n) <= j <= i
      ensures SignalAt(spec, closes, j) == LevelSignal(spec, n, a, b, if j > i - m then j - (i - m) else 0)
    {
      LevelSignals(spec, n, a, b, i - m, j);
    }
    FirstSignalShows(spec, closes, i);
  }

  // -------------------------------------------------------------------------- momentum

  lemma SteadyAverage(history: seq<real>, window: nat, x: real)
    requires 0 < window <= |history| && forall k :: 0 <= k < |history| ==> history[k] == x
    ensures MovingAverage(history, window) == x
  {
    hide Sum;
    SumIsScaled(LastN(history, window), x);
    Cancel(window as real, x);
  }

  /** Steady closes give a momentum or mean-reverting strategy nothing to do. */
  lemma SteadyIsQuiet(spec: StrategySpec, n: nat, a: real, b: real)
    requires spec.Valid() && n >= 4 && a > 0.0 && (spec.signal == Momentum || spec.signal == MeanReversion)
    ensures LevelSignal(spec, n, a, b, 0) == 0.0
  {
    hide Fast, Slow, MovingAverage;
    WindowsFit(spec, n);
    var window := Levels(Slow(spec, n), Slow(spec, n), a, b);
    SteadyAverage(window, Fast(spec, n), a);
    SteadyAverage(window, Slow(spec, n), a);
  }

  /** The levels of the series on which the spread clears. */
  lemma ClearingLevels(spec: StrategySpec, n: nat) returns (a: real, b: real)
    requires spec.Valid() && n >= 4 && !SpreadCannotClear(spec, n)
    ensures 1 <= Fast(spec, n) < Slow(spec, n) < n
    ensures var fast, slow := Fast(spec, n), Slow(spec, n);
            Clearing(spec, n) == Levels(n, slow - fast, a, b)
  {
    hide RaiseBy, Peak;
    WindowsFit(spec, n);
    var fast, slow, threshold := Fast(spec, n), Slow(spec, n), spec.entryThreshold;
    if slow as real > RaiseBy(fast as real, threshold) {
      a, b := 1.0, Peak(fast as real, slow as real, threshold);
    } else {
      a, b := 2.0 * slow as real, 1.0;
    }
  }

  lemma ClearedSpreadSignals(spec: StrategySpec, history: seq<real>, fast: nat, slow: nat)
    requires spec.signal == Momentum && spec.maxPosition > 0.0 && 0 < fast && 0 < slow <= |history|
    requires var spread := Deviation(MovingAverage(history, fast), MovingAverage(history, slow));
             spread > spec.entryThreshold || (spec.longShort && spread < -spec.entryThreshold)
    ensures DailySignal(spec, history, fast, slow) != 0.0
  {
    hide MovingAverage, Deviation;
  }

  lemma MomentumClears(spec: StrategySpec, n: nat) returns (a: real, b: real)
    requires spec.Valid() && n >= 4 && spec.signal == Momentum && !SpreadCannotClear(spec, n)
    ensures a > 0.0 && b > 0.0 && 1 <= Fast(spec, n) <= Slow(spec, n)
    ensures LevelSignal(spec, n, a, b, Fast(spec, n)) != 0.0
  {
    hide MovingAverage, Deviation, SpreadCannotClear, Clearing, DailySignal, Fast, Slow;
    a, b := ClearingLevels(spec, n);
    SpreadClears(spec, n);
    var fast, slow := Fast(spec, n), Slow(spec, n);
    assert Clearing(spec, n)[0] == a && Clearing(spec, n)[n - 1] == b;
    assert Clearing(spec, n)[..slow] == Levels(slow, slow - fast, a, b);
    ClearedSpreadSignals(spec, Clearing(spec, n)[..slow], fast, slow);
  }

  lemma InsideSpreadIsFixed(spec: StrategySpec, n: nat, i: nat)
    requires spec.Valid() && n >= 4 && spec.signal == Momentum && SpreadCannotClear(spec, n) && 1 <= i < n
    ensures TargetFixed(spec, n, i)
  {
    hide TargetFixed, MovingAverage, Deviation, RaiseBy, Slow, Fast;
    WindowsFit(spec, n);
    forall closes: seq<real>, j: nat | Positive(closes) && |closes| == n && j <= i
      ensures SignalAt(spec, closes, j) == 0.0
    {
      if j >= Slow(spec, n) {
        SpreadStaysInside(closes[..j], Fast(spec, n), Slow(spec, n), spec.entryThreshold);
      }
    }
    NoSignalFixes(spec, n, i);
  }

  // -------------------------------------------------------------------- mean reversion

  /** A drop to a tenth is far below any average of the window it ends. */
  lemma DropClears(spec: StrategySpec, n: nat)
    requires spec.Valid() && n >= 4 && spec.signal == MeanReversion
    ensures LevelSignal(spec, n, 1.0, 0.1, 1) != 0.0 && Slow(spec, n) >= 1
  {
    hide Fast, Slow, MovingAverage, Deviation, LowerBy, Sum, LastN;
    WindowsFit(spec, n);
    var slow := Slow(spec, n);
    var window := Levels(slow, slow - 1, 1.0, 0.1);
    LevelAverages(slow, 1, slow, 1.0, 0.1);
    assert window[..slow] == window;
    AverageIs(window, slow);
    AveragePositive(window, slow);
    TenthIsBelow(slow as real, Sum(LastN(window, slow)), spec.entryThreshold);
    DeviationBeyond(0.1, MovingAverage(window, slow), spec.entryThreshold);
    AboveQuotient(0.1, Sum(LastN(window, slow)), slow as real, spec.entryThreshold);
  }

  lemma TenthIsBelow(slow: real, sum: real, threshold: real)
    requires slow >= 3.0 && sum == Scale(slow - 1.0, 1.0) + Scale(1.0, 0.1) && threshold <= 0.5
    ensures Scale(slow, 0.1) < LowerBy(sum, threshold)
  {
    HalfAtMost(sum, threshold);
  }

  // -------------------------------------------------------------------------- breakouts

  /** Closes that swing ever less around two. */
  function Swing(k: nat): real { 2.0 + (if k % 2 == 0 then 1.0 else -1.0) / (k + 1) as real }

  /** Every close lies strictly between the two before it. */
  lemma SwingNarrows(k: nat)
    requires k >= 2
    ensures Swing(k - 1) < Swing(k) < Swing(k - 2) || Swing(k - 2) < Swing(k) < Swing(k - 1)
    ensures Swing(k) < 10.0
  {
    ReciprocalsOrdered((k - 1) as real, (k + 1) as real);
    SignOfReciprocal((k + 1) as real);
    SignOfReciprocal(k as real);
  }

  lemma SignOfReciprocal(x: real)
    requires x >= 1.0
    ensures 0.0 < 1.0 / x <= 1.0 && -1.0 / x == -(1.0 / x)
  {
    assert (1.0 / x) * x == 1.0;
  }

  lemma SwingIsPositive(k: nat)
    ensures 0.0 < Swing(k) < 10.0
  {
    SignOfReciprocal((k + 1) as real);
  }

  /** Swings, and at last a high. */
  function High(n: nat, i: nat): (closes: seq<real>)
    requires 1 <= i < n
    ensures |closes| == n && Positive(closes)
    ensures forall k :: 0 <= k < n ==> closes[k] == if k < i - 1 then Swing(k) else 10.0
  {
    hide Swing;
    assert forall k: nat :: Swing(k) > 0.0 by {
      forall k: nat
        ensures Swing(k) > 0.0
      {
        SwingIsPositive(k);
      }
    }
    seq(n, k requires 0 <= k < n => if k < i - 1 then Swing(k) else 10.0)
  }

  /** No swing is the high or the low of its window ... */
  lemma SwingIsQuiet(spec: StrategySpec, n: nat, i: nat, j: nat)
    requires LabBreakout(spec) && spec.entryThreshold == 0.0 && n >= 4 && Slow(spec, n) <= j < i < n
    ensures SignalAt(spec, High(n, i), j) == 0.0
  {
    hide Fast, Slow, MovingAverage, Swing;
    WindowsFit(spec, n);
    var slow := Slow(spec, n);
    var window := LastN(High(n, i)[..j], slow);
    assert slow >= 3;
    SwingNarrows(j - 1);
    assert window[slow - 1] == Swing(j - 1) && window[slow - 2] == Swing(j - 2) && window[slow - 3] == Swing(j - 3);
    assert window[slow - 2] in window && window[slow - 3] in window;
    RaiseByZero(MaxOf(window));
    RaiseByZero(MinOf(window));
  }

  /** ... and the high is bought. */
  lemma HighIsBought(spec: StrategySpec, n: nat, i: nat)
    requires LabBreakout(spec) && spec.entryThreshold == 0.0 && n >= 4 && Slow(spec, n) <= i < n
    ensures SignalAt(spec, High(n, i), i) != 0.0
  {
    hide Fast, Slow, DailySignal, Swing;
    WindowsFit(spec, n);
    var history := High(n, i)[..i];
    forall x | x in LastN(history, Slow(spec, n))
      ensures x <= history[i - 1]
    {
      var k :| 0 <= k < |LastN(history, Slow(spec, n))| && LastN(history, Slow(spec, n))[k] == x;
      var at := i - Slow(spec, n) + k;
      assert x == history[at];
      SwingIsPositive(at);
    }
    ZeroThresholdBuysHighs(spec, history, Fast(spec, n), Slow(spec, n));
  }

  lemma PositiveThresholdIsFixed(spec: StrategySpec, n: nat, i: nat)
    requires LabBreakout(spec) && spec.entryThreshold > 0.0 && n >= 4 && 1 <= i < n
    ensures TargetFixed(spec, n, i)
  {
    hide TargetFixed, SignalAt, RunSignals;
    forall closes: seq<real>, j: nat | Positive(closes) && |closes| == n && j <= i
      ensures SignalAt(spec, closes, j) == 0.0
    {
      BreakoutSignalsAreZero(spec, closes, j);
      SignalsAre(spec, closes, j);
    }
    NoSignalFixes(spec, n, i);
  }

  // ------------------------------------------------------------------------ main result

  /** A strategy that cannot trade at bar i of a series of n closes: its window is not full yet, or it
      is a breakout over a window that includes the close it compares, or its averages can never be
      that far apart. */
  predicate CannotTrade(spec: StrategySpec, n: nat, i: nat)
    requires spec.Valid() && n >= 4
  {
    || i < Slow(spec, n)
    || (LabBreakout(spec) && spec.entryThreshold > 0.0)
    || (spec.signal == Momentum && SpreadCannotClear(spec, n))
  }

  lemma ShortWindowIsFixed(spec: StrategySpec, n: nat, i: nat)
    requires spec.Valid() && n >= 4 && 1 <= i < n && i < Slow(spec, n)
    ensures TargetFixed(spec, n, i)
  {
    hide TargetFixed, SignalAt, RunSignals, Slow;
    forall closes: seq<real>, j: nat | Positive(closes) && |closes| == n && j <= i
      ensures SignalAt(spec, closes, j) == 0.0
    {
      SignalsAre(spec, closes, j);
    }
    NoSignalFixes(spec, n, i);
  }

  /** Every other strategy trades there on some prices. */
  lemma OtherwiseTrades(spec: StrategySpec, n: nat, i: nat)
    requires spec.Valid() && n >= 4 && 1 <= i < n && !CannotTrade(spec, n, i)
    ensures !TargetFixed(spec, n, i)
  {
    hide TargetFixed, SignalAt, LevelSignal, SpreadCannotClear, Slow, Fast, Swing;
    if LabBreakout(spec) {
      forall j | Slow(spec, n) <= j < i
        ensures SignalAt(spec, High(n, i), j) == 0.0
      {
        SwingIsQuiet(spec, n, i, j);
      }
      HighIsBought(spec, n, i);
      FirstSignalShows(spec, High(n, i), i);
    } else if spec.signal == Momentum {
      var a, b := MomentumClears(spec, n);
      SteadyIsQuiet(spec, n, a, b);
      LevelsShow(spec, n, a, b, Fast(spec, n), i);
    } else {
      DropClears(spec, n);
      SteadyIsQuiet(spec, n, 1.0, 0.1);
      LevelsShow(spec, n, 1.0, 0.1, 1, i);
    }
  }

  /** Exactly when a strategy meets the documented contract at a bar, for all closes of a length: when
      it cannot trade there.  Everything in the condition is known before the run. */
  lemma DocumentedIff(spec: StrategySpec, n: nat, i: nat)
    requires spec.Valid() && n >= 4 && 1 <= i < n
    ensures Documented(spec, n, i) <==> CannotTrade(spec, n, i)
  {
    hide Documented, TargetFixed, SpreadCannotClear, Slow, Fast;
    DocumentedIffTargetFixed(spec, n, i);
    if i < Slow(spec, n) {
      ShortWindowIsFixed(spec, n, i);
    } else if LabBreakout(spec) && spec.entryThreshold > 0.0 {
      PositiveThresholdIsFixed(spec, n, i);
    } else if spec.signal == Momentum && SpreadCannotClear(spec, n) {
      InsideSpreadIsFixed(spec, n, i);
    } else {
      OtherwiseTrades(spec, n, i);
    }
  }

  /** Ones, a two as the slow window fills, and a three. */
  function Rise(n: nat, slow: nat): (closes: seq<real>)
    requires 1 <= slow < n
    ensures |closes| == n && Positive(closes) && closes[..slow] == Spike(n, slow - 1)[..slow]
  {
    Spike(n, slow - 1)[slow := 3.0]
  }

  /** Runs of the engine that differ from its documentation, for any windows and any length: the eager
      strategy buys on the rise and is booked nothing there, where the documentation earns it a half. */
  lemma DocumentedReturnFails(fastWindow: nat, slowWindow: nat, n: nat)
    requires 2 <= fastWindow <= 120 && fastWindow < slowWindow <= 250 && n >= 4
    ensures Eager(fastWindow, slowWindow).Valid() && 1 <= EffectiveSlow(slowWindow, n) < n
    ensures var spec, slow := Eager(fastWindow, slowWindow), EffectiveSlow(slowWindow, n);
            var closes := Rise(n, slow);
            && Run(spec, closes, 0).dailyReturns[slow - 1] == 0.0
            && DocumentedReturn(spec, RunSignals(spec, closes, 0), closes, slow) == 0.5
  {
    hide RunSignals, After, DocumentedReturn, PeriodReturn, AssetReturn, Rise, DailySignal;
    var spec, slow := Eager(fastWindow, slowWindow), EffectiveSlow(slowWindow, n);
    var closes := Rise(n, slow);
    var signals := RunSignals(spec, closes, 0);
    RiseIsBought(fastWindow, slowWindow, n);
    NeverStopped(spec, signals, closes, slow - 1);
    NeverStopped(spec, signals, closes, slow);
    BothReturns(spec, signals, closes, slow);
    RiseByHalf(n, slow);
    EntryReturns();
    LaterExtendsEarlier(spec, signals, closes, slow, n - 1);
    assert Run(spec, closes, 0).dailyReturns[slow - 1] == After(spec, signals, closes, slow).earned[slow - 1];
  }

  lemma RiseByHalf(n: nat, slow: nat)
    requires 2 <= slow < n
    ensures AssetReturn(Rise(n, slow), slow) == 0.5
  {
    var closes := Rise(n, slow);
    assert closes[slow] == 3.0 && closes[slow - 1] == 2.0;
    hide Rise, Spike;
  }

  lemma EntryReturns()
    ensures PeriodReturn(0.0, 1.0, 0.5, 0.0) == 0.0 && Profit(1.0, 0.5) - Fee(Abs(1.0 - 0.0), 0.0) == 0.5
  {
  }

  lemma BothReturns(spec: StrategySpec, signals: seq<real>, closes: seq<real>, i: nat)
    requires Positive(closes) && |signals| == |closes| && 1 <= i < |closes|
    ensures var before, after := After(spec, signals, closes, i - 1), After(spec, signals, closes, i);
            && after.earned[i - 1] == PeriodReturn(before.previous, after.previous, AssetReturn(closes, i), spec.feeBps)
            && DocumentedReturn(spec, signals, closes, i)
               == Profit(after.previous, AssetReturn(closes, i))
                  - Fee(Abs(after.previous - before.previous), spec.feeBps)
  {
    hide PeriodReturn, AssetReturn, Grow, Decide, Profit, Fee;
  }

  lemma RiseIsBought(fastWindow: nat, slowWindow: nat, n: nat)
    requires 2 <= fastWindow <= 120 && fastWindow < slowWindow <= 250 && n >= 4
    ensures 3 <= EffectiveSlow(slowWindow, n) < n && Eager(fastWindow, slowWindow).Valid()
    ensures var slow := EffectiveSlow(slowWindow, n);
            var signals := RunSignals(Eager(fastWindow, slowWindow), Rise(n, slow), 0);
            signals[slow - 1] == 0.0 && signals[slow] == 1.0
  {
    hide MovingAverage, Deviation, Rise;
    var slow := EffectiveSlow(slowWindow, n);
    EagerBuysSpike(fastWindow, slowWindow, n, EffectiveFast(fastWindow, slow), slow);
  }
}
