/** The single-asset daily engine of daily_engine.py: the signal, the window clamp and the
    bar loop with its stop-loss state. */
module DailyEngine {
  import opened RealMath
  import opened StrategySpecs

  /** A log row; the source stores the bar's timestamp, here `bar` is the bar's index. */
  datatype Trade = Trade(bar: nat, from: real, to: real)

  /** The loop variables of the bar loop after some bar. */
  datatype State = State(
    previous: real,
    value: real,
    peak: real,
    stoppedUntil: int,
    earned: seq<real>,
    equity: seq<real>,
    trades: seq<Trade>)

  /** Target position from trailing closes; relative_strength falls through to breakout. */
  function DailySignal(spec: StrategySpec, history: seq<real>, fast: nat, slow: nat): real
    requires 0 < fast && 0 < slow
  {
    if |history| < slow then 0.0
    else
      var slowAverage := MovingAverage(history, slow);
      var last := history[|history| - 1];
      match spec.signal
      case Momentum =>
        var spread := Deviation(MovingAverage(history, fast), slowAverage);
        if spread > spec.entryThreshold then spec.maxPosition
        else if spec.longShort && spread < -spec.entryThreshold then -spec.maxPosition
        else 0.0
      case MeanReversion =>
        var deviation := Deviation(last, slowAverage);
        if deviation < -spec.entryThreshold then spec.maxPosition
        else if deviation > spec.entryThreshold then
          if spec.longShort then -spec.maxPosition else 0.0
        else 0.0
      case _ =>
        var window := LastN(history, slow);
        if last >= RaiseBy(MaxOf(window), spec.entryThreshold) then spec.maxPosition
        else if spec.longShort && last <= LowerBy(MinOf(window), spec.entryThreshold) then -spec.maxPosition
        else 0.0
  }

  /** Clamp of the slow window to the loaded history. */
  function EffectiveSlow(slowWindow: nat, minCount: nat): (slow: nat) {
    var room := if minCount as int - 2 > 3 then minCount - 2 else 3;
    if room < slowWindow then room else slowWindow
  }

  function EffectiveFast(fastWindow: nat, slow: nat): (fast: nat) {
    var room := if slow as int - 1 > 2 then slow - 1 else 2;
    if room < fastWindow then room else fastWindow
  }

  /** The running peak after the stop-loss check at a bar, and whether the stop fired. */
  function StopCheck(spec: StrategySpec, previous: real, peak: real, last: real): (real, bool) {
    if spec.stopLossPct.None? || spec.stopLossPct.value == 0.0 || previous == 0.0 then (peak, false)
    else
      var stop := spec.stopLossPct.value;
      if previous > 0.0 then
        var raised := Max(peak, last);
        (raised, last <= LowerBy(raised, stop))
      else if last >= RaiseBy(peak, stop) then
        (if peak != 0.0 then Min(peak, last) else last, true)
      else
        (peak, false)
  }

  function Init(closes: seq<real>): State {
    State(0.0, 1.0, if closes != [] then closes[0] else 0.0, -1, [], [], [])
  }

  /** What the engine settles before it books a bar. */
  datatype Decision = Decision(target: real, peak: real, stoppedUntil: int)

  /** Stop-loss and cool-down override the signal. */
  function Decide(spec: StrategySpec, signal: real, last: real, index: nat, s: State): Decision {
    var (peak, fired) := StopCheck(spec, s.previous, s.peak, last);
    var stoppedUntil := if fired then index + spec.rebalanceDays else s.stoppedUntil;
    Decision(if fired || index < stoppedUntil then 0.0 else signal, peak, stoppedUntil)
  }


  /** Books one bar. */
  function Book(spec: StrategySpec, assetReturn: real, index: nat, s: State, d: Decision): State {
    var periodReturn := PeriodReturn(s.previous, d.target, assetReturn, spec.feeBps);
    var value := Grow(s.value, periodReturn);
    State(d.target, value, d.peak, d.stoppedUntil, s.earned + [periodReturn], s.equity + [value],
          if d.target - s.previous != 0.0 then s.trades + [Trade(index, s.previous, d.target)] else s.trades)
  }

  /** One iteration of the bar loop, given the signal for the bar. */
  function Step(spec: StrategySpec, signal: real, closes: seq<real>, index: nat, s: State): State
    requires Positive(closes) && 1 <= index < |closes|
  {
    Book(spec, AssetReturn(closes, index), index, s, Decide(spec, signal, closes[index - 1], index, s))
  }

  /** The signal computed at every bar: the one at bar i sees the closes before bar i. */
  function Signals(spec: StrategySpec, fast: nat, slow: nat, closes: seq<real>): (signals: seq<real>)
    requires 0 < fast && 0 < slow
    ensures |signals| == |closes|
    ensures forall i :: 0 <= i < |closes| ==> signals[i] == DailySignal(spec, closes[..i], fast, slow)
  {
    seq(|closes|, i requires 0 <= i < |closes| => DailySignal(spec, closes[..i], fast, slow))
  }

  /** The loop variables after bars 1 .. index, for any sequence of signals. */
  function After(spec: StrategySpec, signals: seq<real>, closes: seq<real>, index: nat): (s: State)
    requires Positive(closes) && |signals| == |closes|
    requires index == 0 || index < |closes|
    ensures |s.earned| == |s.equity| == index
  {
    if index == 0 then Init(closes)
    else Step(spec, signals[index], closes, index, After(spec, signals, closes, index - 1))
  }

  /** What a run returns: unrounded equity, the trade log and the per-bar returns. */
  datatype EngineResult = EngineResult(equity: seq<real>, trades: seq<Trade>, dailyReturns: seq<real>)

  function LastBar(closes: seq<real>): nat {
    if closes == [] then 0 else |closes| - 1
  }

  /** The signals of a run over `closes` whose windows are clamped to `minCount` bars. */
  function RunSignals(spec: StrategySpec, closes: seq<real>, minCount: nat): (signals: seq<real>)
    requires spec.Valid()
    ensures |signals| == |closes|
  {
    var slow := EffectiveSlow(spec.slowWindow, if minCount == 0 then |closes| else minCount);
    Signals(spec, EffectiveFast(spec.fastWindow, slow), slow, closes)
  }

  /** The whole run as a value. */
  function Run(spec: StrategySpec, closes: seq<real>, minCount: nat): EngineResult
    requires spec.Valid() && Positive(closes)
  {
    var s := After(spec, RunSignals(spec, closes, minCount), closes, LastBar(closes));
    EngineResult(s.equity, s.trades, s.earned)
  }

  /** The stop-loss branch of the loop body. */
  method ApplyStop(spec: StrategySpec, signal: real, last: real, index: nat, s: State) returns (d: Decision)
    ensures d == Decide(spec, signal, last, index, s)
  {
    var target, peak, stoppedUntil := signal, s.peak, s.stoppedUntil;
    if spec.stopLossPct.Some? && spec.stopLossPct.value != 0.0 && s.previous != 0.0 {
      var stop := spec.stopLossPct.value;
      if s.previous > 0.0 {
        peak := Max(peak, last);
        if last <= LowerBy(peak, stop) {
          target := 0.0;
          stoppedUntil := index + spec.rebalanceDays;
        }
      } else if last >= RaiseBy(peak, stop) {
        peak := if peak != 0.0 then Min(peak, last) else last;
        target := 0.0;
        stoppedUntil := index + spec.rebalanceDays;
      }
    }
    if index < stoppedUntil {
      target := 0.0;
    }
    d := Decision(target, peak, stoppedUntil);
  }

  method RunDailyAsset(spec: StrategySpec, bars: seq<Bar>, minCount: nat) returns (result: EngineResult)
    requires spec.Valid() && Positive(Closes(bars))
    ensures result == Run(spec, Closes(bars), minCount)
  {
    hide DailySignal, AssetReturn, PeriodReturn, Grow;
    var closes := Closes(bars);
    var slow := EffectiveSlow(spec.slowWindow, if minCount == 0 then |bars| else minCount);
    var fast := EffectiveFast(spec.fastWindow, slow);
    ghost var signals := RunSignals(spec, closes, minCount);
    var s := Init(closes);
    var index := 1;
    while index < |bars|
      invariant 1 <= index <= LastBar(closes) + 1
      invariant s == After(spec, signals, closes, index - 1)
    {
      var signal := DailySignal(spec, closes[..index], fast, slow);
      assert signal == signals[index];
      ghost var next := Step(spec, signal, closes, index, s);
      var d := ApplyStop(spec, signal, closes[index - 1], index, s);
      var change := d.target - s.previous;
      var trades := s.trades;
      if change != 0.0 {
        trades := trades + [Trade(index, s.previous, d.target)];
      }
      var periodReturn := PeriodReturn(s.previous, d.target, AssetReturn(closes, index), spec.feeBps);
      var value := Grow(s.value, periodReturn);
      s := State(d.target, value, d.peak, d.stoppedUntil, s.earned + [periodReturn], s.equity + [value], trades);
      assert s == next;
      index := index + 1;
    }
    result := EngineResult(s.equity, s.trades, s.earned);
  }
}
