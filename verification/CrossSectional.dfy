/** The two-leg cross-sectional engine of daily_engine.py.  Python's negative index is explicit:
    on the first bar that can rebalance, the look-back of one window reads the last close. */
module CrossSectional {
  import opened RealMath
  import opened StrategySpecs
  import opened DailyEngine

  datatype Pair = Pair(left: real, right: real)

  /** A trade row; `bar` stands for the bar's timestamp. */
  datatype PairTrade = PairTrade(bar: nat, left: real, right: real)

  datatype PairState = PairState(
    previous: Pair,
    value: real,
    earned: seq<real>,
    equity: seq<real>,
    trades: seq<PairTrade>)

  /** Python's `xs[k]`. */
  function PyIndex(xs: seq<real>, k: int): real
    requires -|xs| <= k < |xs|
  {
    if k < 0 then xs[|xs| + k] else xs[k]
  }

  /** Growth over one slow window up to the close before `index`. */
  function LegMomentum(closes: seq<real>, index: nat, slow: nat): real
    requires Positive(closes) && slow <= index < |closes| && 1 <= index
  {
    closes[index - 1] / PyIndex(closes, index - 1 - slow) - 1.0
  }

  predicate Rebalances(spec: StrategySpec, slow: nat, index: nat)
    requires spec.rebalanceDays >= 1
  {
    index % spec.rebalanceDays == 0 && index >= slow
  }

  /** The targets for a spread of the legs' momenta. */
  function PairTarget(spec: StrategySpec, spread: real): Pair {
    var shorted := if spec.longShort then -spec.maxPosition else 0.0;
    if Abs(spread) <= spec.exitThreshold then Pair(0.0, 0.0)
    else if spread > spec.entryThreshold then Pair(spec.maxPosition, shorted)
    else Pair(shorted, spec.maxPosition)
  }

  function Spread(slow: nat, left: seq<real>, right: seq<real>, index: nat): real
    requires Positive(left) && Positive(right) && |left| == |right|
    requires 1 <= index < |left| && slow <= index
  {
    LegMomentum(left, index, slow) - LegMomentum(right, index, slow)
  }

  /** The targets held after bar i. */
  function Path(spec: StrategySpec, slow: nat, left: seq<real>, right: seq<real>, i: nat): Pair
    requires spec.rebalanceDays >= 1 && Positive(left) && Positive(right) && |left| == |right|
    requires i == 0 || i < |left|
  {
    if i == 0 then Pair(0.0, 0.0)
    else if Rebalances(spec, slow, i) then PairTarget(spec, Spread(slow, left, right, i))
    else Path(spec, slow, left, right, i - 1)
  }

  function PairReturn(previous: Pair, target: Pair, leftReturn: real, rightReturn: real, feeBps: real): real {
    Profit(previous.left, leftReturn) + Profit(previous.right, rightReturn)
    - Fee(Abs(target.left - previous.left) + Abs(target.right - previous.right), feeBps)
  }

  function PairStep(feeBps: real, target: Pair, left: seq<real>, right: seq<real>, index: nat, s: PairState): PairState
    requires Positive(left) && Positive(right) && |left| == |right| && 1 <= index < |left|
  {
    var turnover := Abs(target.left - s.previous.left) + Abs(target.right - s.previous.right);
    var periodReturn :=
      PairReturn(s.previous, target, AssetReturn(left, index), AssetReturn(right, index), feeBps);
    var value := Grow(s.value, periodReturn);
    PairState(target, value, s.earned + [periodReturn], s.equity + [value],
              if turnover != 0.0 then s.trades + [PairTrade(index, target.left, target.right)] else s.trades)
  }

  function PairInit(): PairState { PairState(Pair(0.0, 0.0), 1.0, [], [], []) }

  function PairAfter(spec: StrategySpec, slow: nat, left: seq<real>, right: seq<real>, i: nat): (s: PairState)
    requires spec.rebalanceDays >= 1 && Positive(left) && Positive(right) && |left| == |right|
    requires i == 0 || i < |left|
    ensures s.previous == Path(spec, slow, left, right, i)
    ensures |s.earned| == |s.equity| == i
  {
    if i == 0 then PairInit()
    else
      PairStep(spec.feeBps, Path(spec, slow, left, right, i), left, right, i,
               PairAfter(spec, slow, left, right, i - 1))
  }

  /** The finished run over the joined closes; empty when the join is too short. */
  function PairRun(spec: StrategySpec, left: seq<real>, right: seq<real>, minCount: nat): PairState
    requires spec.Valid() && Positive(left) && Positive(right) && |left| == |right|
  {
    var slow := EffectiveSlow(spec.slowWindow, if minCount == 0 then |left| else minCount);
    if |left| < slow + 2 then PairInit() else PairAfter(spec, slow, left, right, |left| - 1)
  }

  /** The rebalancing branch of the loop body. */
  method ChooseTargets(spec: StrategySpec, slow: nat, left: seq<real>, right: seq<real>, index: nat, previous: Pair)
    returns (target: Pair)
    requires spec.rebalanceDays >= 1 && Positive(left) && Positive(right) && |left| == |right| && 1 <= index < |left|
    requires previous == Path(spec, slow, left, right, index - 1)
    ensures target == Path(spec, slow, left, right, index)
  {
    if index % spec.rebalanceDays == 0 && index >= slow {
      var leftMomentum := left[index - 1] / PyIndex(left, index - 1 - slow) - 1.0;
      var rightMomentum := right[index - 1] / PyIndex(right, index - 1 - slow) - 1.0;
      var spread := leftMomentum - rightMomentum;
      if Abs(spread) <= spec.exitThreshold {
        target := Pair(0.0, 0.0);
      } else if spread > spec.entryThreshold {
        target := Pair(spec.maxPosition, if spec.longShort then -spec.maxPosition else 0.0);
      } else {
        target := Pair(if spec.longShort then -spec.maxPosition else 0.0, spec.maxPosition);
      }
    } else {
      target := previous;
    }
  }

  method RunCrossSectional(spec: StrategySpec, left: seq<real>, right: seq<real>, minCount: nat) returns (s: PairState)
    requires spec.Valid() && Positive(left) && Positive(right) && |left| == |right|
    ensures s == PairRun(spec, left, right, minCount)
  {
    hide AssetReturn, PairReturn, Grow, Abs;
    s := PairInit();
    var slow := EffectiveSlow(spec.slowWindow, if minCount == 0 then |left| else minCount);
    if |left| < slow + 2 {
      return;
    }
    var index := 1;
    while index < |left|
      invariant 1 <= index <= |left|
      invariant s == PairAfter(spec, slow, left, right, index - 1)
    {
      var target := ChooseTargets(spec, slow, left, right, index, s.previous);
      var turnover := Abs(target.left - s.previous.left) + Abs(target.right - s.previous.right);
      var trades := s.trades;
      if turnover != 0.0 {
        trades := trades + [PairTrade(index, target.left, target.right)];
      }
      var periodReturn :=
        PairReturn(s.previous, target, AssetReturn(left, index), AssetReturn(right, index), spec.feeBps);
      var value := Grow(s.value, periodReturn);
      s := PairState(target, value, s.earned + [periodReturn], s.equity + [value], trades);
      assert s == PairAfter(spec, slow, left, right, index);
      index := index + 1;
    }
    assert s == PairAfter(spec, slow, left, right, |left| - 1);
  }
}
