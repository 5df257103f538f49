/** The momentum simulation behind the research metrics (_strategy_metrics in engine.py). */
module MomentumSimulation {
  import opened RealMath
  import opened StrategySpecs

  datatype SimState = SimState(previous: real, earned: seq<real>, exposures: seq<real>, trades: nat, turnover: real)

  /** Long when the fast average is above the slow one; no clamp of the windows. */
  function SimPosition(closes: seq<real>, index: nat, fast: nat, slow: nat): real
    requires 0 < fast && 0 < slow && index <= |closes|
  {
    if index < slow then 0.0
    else if MovingAverage(closes[..index], fast) > MovingAverage(closes[..index], slow) then 1.0
    else 0.0
  }

  function SimStep(feeBps: real, position: real, closes: seq<real>, index: nat, s: SimState): SimState
    requires Positive(closes) && 1 <= index < |closes|
  {
    var change := Abs(position - s.previous);
    SimState(position,
             s.earned + [Profit(s.previous, AssetReturn(closes, index)) - Fee(change, feeBps)],
             s.exposures + [s.previous],
             if change != 0.0 then s.trades + 1 else s.trades,
             if change != 0.0 then s.turnover + change else s.turnover)
  }

  function SimPositions(closes: seq<real>, fast: nat, slow: nat): (positions: seq<real>)
    requires 0 < fast && 0 < slow
    ensures |positions| == |closes|
    ensures forall i :: 0 <= i < |closes| ==> positions[i] == SimPosition(closes, i, fast, slow)
  {
    seq(|closes|, i requires 0 <= i < |closes| => SimPosition(closes, i, fast, slow))
  }

  function SimAfter(feeBps: real, positions: seq<real>, closes: seq<real>, index: nat): (s: SimState)
    requires Positive(closes) && |positions| == |closes| && (index == 0 || index < |closes|)
    ensures |s.earned| == |s.exposures| == index
  {
    if index == 0 then SimState(0.0, [], [], 0, 0.0)
    else SimStep(feeBps, positions[index], closes, index, SimAfter(feeBps, positions, closes, index - 1))
  }

  function FastOf(fastWindow: int): (fast: nat)
    ensures fast >= 2
  {
    if fastWindow > 2 then fastWindow else 2
  }

  function SlowOf(slowWindow: int, fast: nat): (slow: nat)
    ensures slow > fast
  {
    if slowWindow > fast + 1 then slowWindow else fast + 1
  }

  /** The finished simulation over at least three closes. */
  function Simulate(fastWindow: int, slowWindow: int, feeBps: real, closes: seq<real>): SimState
    requires Positive(closes) && |closes| >= 3
  {
    var fast := FastOf(fastWindow);
    var slow := SlowOf(slowWindow, fast);
    SimAfter(Max(0.0, feeBps), SimPositions(closes, fast, slow), closes, |closes| - 1)
  }

  /** The body of the simulation loop. */
  method OnBar(feeBps: real, position: real, closes: seq<real>, index: nat, s: SimState) returns (next: SimState)
    requires Positive(closes) && 1 <= index < |closes|
    ensures next == SimStep(feeBps, position, closes, index, s)
  {
    hide AssetReturn, Profit, Fee, Abs;
    var change := Abs(position - s.previous);
    var trades, turnover := s.trades, s.turnover;
    if change != 0.0 {
      trades := trades + 1;
      turnover := turnover + change;
    }
    var earned := Profit(s.previous, AssetReturn(closes, index)) - Fee(change, feeBps);
    next := SimState(position, s.earned + [earned], s.exposures + [s.previous], trades, turnover);
  }

  /** None stands for the all-zero metrics of a history shorter than three closes. */
  method StrategyMetrics(fastWindow: int, slowWindow: int, feeBps: real, closes: seq<real>)
    returns (result: Option<SimState>)
    requires Positive(closes)
    ensures result == if |closes| < 3 then None else Some(Simulate(fastWindow, slowWindow, feeBps, closes))
  {
    if |closes| < 3 {
      return None;
    }
    hide SimPosition, SimStep, FastOf, SlowOf, Max;
    var fast := FastOf(fastWindow);
    var slow := SlowOf(slowWindow, fast);
    var fee := Max(0.0, feeBps);
    ghost var positions := SimPositions(closes, fast, slow);
    var s := SimState(0.0, [], [], 0, 0.0);
    var index := 1;
    while index < |closes|
      invariant 1 <= index <= |closes|
      invariant s == SimAfter(fee, positions, closes, index - 1)
    {
      var position := SimPosition(closes, index, fast, slow);
      assert position == positions[index];
      s := OnBar(fee, position, closes, index, s);
      index := index + 1;
    }
    assert s == SimAfter(fee, positions, closes, |closes| - 1);
    result := Some(s);
  }
}
