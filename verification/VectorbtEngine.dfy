/** The pure-Python body of the VectorBT-compatible engine (vectorbt_engine.py), per asset. */
module VectorbtEngine {
  import opened RealMath
  import opened StrategySpecs

  /** A trade row; `bar` stands for the bar's timestamp. */
  datatype VbtTrade = VbtTrade(bar: nat, from: real, to: real, turnover: real)

  datatype VbtState = VbtState(
    previous: real,
    equitySoFar: real,
    earned: seq<real>,
    weights: seq<real>,
    trades: seq<VbtTrade>)

  /** The engine's reading of its specification dictionary. */
  datatype Config = Config(fast: nat, slow: nat, costBps: real, signal: Signal, threshold: real, longShort: bool)

  function ReadConfig(spec: StrategySpec): (c: Config)
    ensures c.fast >= 2 && c.slow > c.fast && c.costBps >= 0.0
  {
    var fast := if spec.fastWindow > 2 then spec.fastWindow else 2;
    var slow := if spec.slowWindow > fast + 1 then spec.slowWindow else fast + 1;
    Config(fast, slow, Max(0.0, spec.feeBps) + Max(0.0, spec.slippageBps),
           spec.signal, spec.entryThreshold, spec.longShort)
  }

  function ClampSlow(slow: nat, bars: nat): (clamped: nat)
    ensures slow >= 3 ==> clamped >= 3
  {
    var limit := if bars > 5 then bars - 2 else 3;
    if limit < slow then limit else slow
  }

  function ClampFast(fast: nat, slow: nat): (clamped: nat)
    ensures fast >= 2 ==> clamped >= 2
  {
    var limit := if slow > 3 then slow - 1 else 2;
    if limit < fast then limit else fast
  }

  function VbtSignal(closes: seq<real>, index: nat, fast: nat, slow: nat, c: Config): real
    requires 0 < fast && 0 < slow && index <= |closes|
  {
    if index < slow then 0.0
    else
      var history := closes[..index];
      var last := history[index - 1];
      var slowAverage := MovingAverage(history, slow);
      if c.signal == MeanReversion then
        var deviation := Deviation(last, slowAverage);
        if deviation < -c.threshold then 1.0
        else if c.longShort && deviation > c.threshold then -1.0
        else 0.0
      else if c.signal == Breakout then
        var window := LastN(history, slow);
        if last >= RaiseBy(MaxOf(window), c.threshold) then 1.0
        else if c.longShort && last <= LowerBy(MinOf(window), c.threshold) then -1.0
        else 0.0
      else
        var spread := Deviation(MovingAverage(history, fast), slowAverage);
        if spread > c.threshold then 1.0
        else if c.longShort && spread < -c.threshold then -1.0
        else 0.0
  }

  function VbtInit(cash: real): VbtState { VbtState(0.0, cash, [], [], []) }

  function VbtStep(costBps: real, target: real, closes: seq<real>, index: nat, s: VbtState): VbtState
    requires Positive(closes) && 1 <= index < |closes|
  {
    var periodReturn := PeriodReturn(s.previous, target, AssetReturn(closes, index), costBps);
    VbtState(target, Grow(s.equitySoFar, periodReturn), s.earned + [periodReturn], s.weights + [target],
             if target - s.previous != 0.0
             then s.trades + [VbtTrade(index, s.previous, target, Abs(target - s.previous))]
             else s.trades)
  }

  function VbtSignals(c: Config, closes: seq<real>): (signals: seq<real>)
    requires c.fast >= 2 && c.slow >= 3
    ensures |signals| == |closes|
    ensures var slow := ClampSlow(c.slow, |closes|); var fast := ClampFast(c.fast, slow);
            forall i :: 0 <= i < |closes| ==> signals[i] == VbtSignal(closes, i, fast, slow, c)
  {
    var slow := ClampSlow(c.slow, |closes|);
    var fast := ClampFast(c.fast, slow);
    seq(|closes|, i requires 0 <= i < |closes| => VbtSignal(closes, i, fast, slow, c))
  }

  function VbtAfter(costBps: real, signals: seq<real>, closes: seq<real>, cash: real, index: nat): (s: VbtState)
    requires Positive(closes) && |signals| == |closes| && (index == 0 || index < |closes|)
    ensures |s.earned| == |s.weights| == index
  {
    if index == 0 then VbtInit(cash)
    else VbtStep(costBps, signals[index], closes, index, VbtAfter(costBps, signals, closes, cash, index - 1))
  }

  /** The finished per-asset run: None when the history is too short. */
  function VbtRun(spec: StrategySpec, closes: seq<real>, cash: real): Option<VbtState>
    requires Positive(closes)
  {
    if |closes| < 4 then None
    else
      var c := ReadConfig(spec);
      Some(VbtAfter(c.costBps, VbtSignals(c, closes), closes, cash, |closes| - 1))
  }

  /** The body of the bar loop. */
  method OnBar(costBps: real, target: real, closes: seq<real>, index: nat, s: VbtState) returns (next: VbtState)
    requires Positive(closes) && 1 <= index < |closes|
    ensures next == VbtStep(costBps, target, closes, index, s)
  {
    hide AssetReturn, PeriodReturn, Grow, Abs;
    var change := target - s.previous;
    var periodReturn := PeriodReturn(s.previous, target, AssetReturn(closes, index), costBps);
    var trades := s.trades;
    if change != 0.0 {
      trades := trades + [VbtTrade(index, s.previous, target, Abs(change))];
    }
    next := VbtState(target, Grow(s.equitySoFar, periodReturn), s.earned + [periodReturn], s.weights + [target], trades);
  }

  method RunVectorbtAsset(spec: StrategySpec, bars: seq<Bar>, cash: real) returns (result: Option<VbtState>)
    requires Positive(Closes(bars))
    ensures result == VbtRun(spec, Closes(bars), cash)
  {
    if |bars| < 4 {
      return None;
    }
    hide VbtSignal, AssetReturn, PeriodReturn, Grow, ClampSlow, ClampFast, ReadConfig, Abs;
    var c := ReadConfig(spec);
    var closes := Closes(bars);
    var slow := ClampSlow(c.slow, |bars|);
    var fast := ClampFast(c.fast, slow);
    ghost var signals := VbtSignals(c, closes);
    var costBps := c.costBps;
    var s := VbtInit(cash);
    var index := 1;
    while index < |bars|
      invariant 1 <= index <= |bars|
      invariant s == VbtAfter(costBps, signals, closes, cash, index - 1)
    {
      var target := VbtSignal(closes, index, fast, slow, c);
      assert target == signals[index];
      s := OnBar(costBps, target, closes, index, s);
      index := index + 1;
    }
    result := Some(s);
  }

  /** The equity curve of the result: the compounded returns in units of the initial cash. */
  method EquityCurve(earned: seq<real>, cash: real) returns (equity: seq<real>)
    ensures |equity| == |earned|
    ensures forall i :: 0 <= i < |earned| ==> equity[i] == Compound(earned[..i + 1]) * cash
  {
    hide Compound;
    CompoundEmpty();
    equity := [];
    var value := 1.0;
    for index := 0 to |earned|
      invariant |equity| == index && value == Compound(earned[..index])
      invariant forall i :: 0 <= i < index ==> equity[i] == Compound(earned[..i + 1]) * cash
    {
      CompoundSnoc(earned[..index], earned[index]);
      assert earned[..index] + [earned[index]] == earned[..index + 1];
      value := value * (1.0 + earned[index]);
      equity := equity + [value * cash];
    }
  }

  // ------------------------------------------------------------- the drawdown curve

  /** Largest of zero and the first n equity points. */
  function RunningPeak(equity: seq<real>, n: nat): real
    requires n <= |equity|
  {
    if n == 0 then 0.0 else Max(RunningPeak(equity, n - 1), equity[n - 1])
  }

  lemma {:induction false} RunningPeakIsMaximum(equity: seq<real>, n: nat)
    requires n <= |equity|
    ensures RunningPeak(equity, n) >= 0.0
    ensures forall i :: 0 <= i < n ==> equity[i] <= RunningPeak(equity, n)
    ensures RunningPeak(equity, n) == 0.0 || exists i :: 0 <= i < n && equity[i] == RunningPeak(equity, n)
  {
    if n > 0 {
      RunningPeakIsMaximum(equity, n - 1);
    }
  }

  function Drawdown(value: real, peak: real): real {
    if peak != 0.0 then value / peak - 1.0 else 0.0
  }

  /** Every point is measured against the highest equity so far. */
  method DrawdownCurve(equity: seq<real>) returns (drawdown: seq<real>)
    ensures |drawdown| == |equity|
    ensures forall i :: 0 <= i < |equity| ==> drawdown[i] == Drawdown(equity[i], RunningPeak(equity, i + 1))
  {
    hide Drawdown;
    var peak := 0.0;
    drawdown := [];
    for index := 0 to |equity|
      invariant |drawdown| == index && peak == RunningPeak(equity, index)
      invariant forall i :: 0 <= i < index ==> drawdown[i] == Drawdown(equity[i], RunningPeak(equity, i + 1))
    {
      peak := Max(peak, equity[index]);
      drawdown := drawdown + [Drawdown(equity[index], peak)];
    }
  }

  /** A drawdown is never positive; on positive equity it stays above minus one and is zero
      exactly at a new high. */
  lemma DrawdownShape(equity: seq<real>, i: nat)
    requires i < |equity|
    ensures Drawdown(equity[i], RunningPeak(equity, i + 1)) <= 0.0
    ensures equity[i] > 0.0 ==> Drawdown(equity[i], RunningPeak(equity, i + 1)) > -1.0
    ensures equity[i] > 0.0 ==>
              (Drawdown(equity[i], RunningPeak(equity, i + 1)) == 0.0 <==>
               forall j :: 0 <= j < i ==> equity[j] <= equity[i])
  {
    hide Drawdown;
    RunningPeakIsMaximum(equity, i);
    DrawdownSign(equity[i], RunningPeak(equity, i + 1));
  }

  lemma DrawdownSign(value: real, peak: real)
    requires value <= peak && peak >= 0.0
    ensures Drawdown(value, peak) <= 0.0
    ensures value > 0.0 ==> (Drawdown(value, peak) == 0.0 <==> value == peak) && Drawdown(value, peak) > -1.0
  {
    if peak != 0.0 {
      assert value == (value / peak) * peak;
    }
  }
}
