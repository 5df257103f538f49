/** The declarative strategy specification (strategy_spec.py) and the signal arithmetic that
    the engines share.  Floats are modelled as reals. */
module StrategySpecs {
  import opened RealMath

  datatype Option<+T> = None | Some(value: T)

  datatype Result<+T, +E> = Success(value: T) | Failure(error: E)

  datatype Mode = Daily | CrossSectional

  datatype Signal = Momentum | MeanReversion | Breakout | RelativeStrength

  datatype StrategySpec = StrategySpec(
    mode: Mode,
    signal: Signal,
    assets: seq<string>,
    fastWindow: nat,
    slowWindow: nat,
    entryThreshold: real,
    exitThreshold: real,
    rebalanceDays: nat,
    longShort: bool,
    maxPosition: real,
    feeBps: real,
    slippageBps: real,
    stopLossPct: Option<real>)
  {
    /** The field bounds and the window-ordering validator of the specification. */
    predicate Valid() {
      && 1 <= |assets| <= 2
      && 2 <= fastWindow <= 120
      && 3 <= slowWindow <= 250
      && fastWindow < slowWindow
      && 0.0 <= entryThreshold <= 0.5
      && 0.0 <= exitThreshold <= 0.5
      && 1 <= rebalanceDays <= 60
      && 0.0 < maxPosition <= 1.0
      && 0.0 <= feeBps <= 100.0
      && 0.0 <= slippageBps <= 100.0
      && (stopLossPct.Some? ==> 0.01 <= stopLossPct.value <= 0.5)
      && (mode == CrossSectional ==> |assets| >= 2)
    }
  }

  /** One daily bar.  Times are seconds since the epoch. */
  datatype Bar = Bar(ts: int, close: real)

  predicate Positive(closes: seq<real>) {
    forall i :: 0 <= i < |closes| ==> closes[i] > 0.0
  }

  function Closes(bars: seq<Bar>): (closes: seq<real>)
    ensures |closes| == |bars|
    ensures forall i :: 0 <= i < |bars| ==> closes[i] == bars[i].close
  {
    seq(|bars|, i requires 0 <= i < |bars| => bars[i].close)
  }

  /** Python's `values[-window:]` for a positive window. */
  function LastN(values: seq<real>, window: nat): (tail: seq<real>)
    requires window > 0
    ensures |tail| == if window < |values| then window else |values|
  {
    if window < |values| then
      seq(window, i requires 0 <= i < window => values[|values| - window + i])
    else
      values
  }

  function MovingAverage(values: seq<real>, window: nat): real
    requires window > 0
  {
    Sum(LastN(values, window)) / window as real
  }

  /** Relative distance of `x` from `base`, with the source's guard against a zero base. */
  function Deviation(x: real, base: real): real {
    if base != 0.0 then (x - base) / base else 0.0
  }

  function AssetReturn(closes: seq<real>, index: nat): real
    requires 1 <= index < |closes| && Positive(closes)
  {
    closes[index] / closes[index - 1] - 1.0
  }

  function Profit(position: real, assetReturn: real): real { position * assetReturn }

  function Fee(turnover: real, costBps: real): real { turnover * costBps / 10000.0 }

  /** The position held into the bar earns the bar's return; the fee is charged on the change. */
  function PeriodReturn(previous: real, target: real, assetReturn: real, costBps: real): real {
    Profit(previous, assetReturn) - Fee(Abs(target - previous), costBps)
  }

  function Grow(value: real, periodReturn: real): real { value * (1.0 + periodReturn) }

  lemma FeeIsAdditive(x: real, y: real, costBps: real)
    ensures Fee(x + y, costBps) == Fee(x, costBps) + Fee(y, costBps)
  {
  }

  /** Moving averages of positive closes are positive, so the zero guards never fire. */
  lemma AveragePositive(values: seq<real>, window: nat)
    requires 0 < window <= |values| && Positive(values)
    ensures MovingAverage(values, window) > 0.0
  {
    SumPositive(LastN(values, window));
  }
}
