/** The log of a two-leg run is complete: with the two price series alone it determines every
    return, the equity and the total cost. */
module PairLedger {
  import opened RealMath
  import opened StrategySpecs
  import opened CrossSectional

  const FLAT := Pair(0.0, 0.0)

  function Row(t: PairTrade): Pair { Pair(t.left, t.right) }

  /** The positions after a bar according to the log alone, starting flat. */
  function Replay(trades: seq<PairTrade>, bar: nat): Pair {
    if trades == [] then FLAT
    else
      var last := trades[|trades| - 1];
      if last.bar <= bar then Row(last) else Replay(trades[..|trades| - 1], bar)
  }

  function Ending(trades: seq<PairTrade>): Pair { if trades == [] then FLAT else Row(trades[|trades| - 1]) }

  function Change(from: Pair, to: Pair): real { Abs(to.left - from.left) + Abs(to.right - from.right) }

  /** What the logged changes of both legs add up to. */
  function Turnover(trades: seq<PairTrade>): real {
    if trades == [] then 0.0
    else
      var init := trades[..|trades| - 1];
      Turnover(init) + Change(Ending(init), Row(trades[|trades| - 1]))
  }

  function LegsProfit(held: Pair, left: seq<real>, right: seq<real>, i: nat): real
    requires Positive(left) && Positive(right) && |left| == |right| && 1 <= i < |left|
  {
    Profit(held.left, AssetReturn(left, i)) + Profit(held.right, AssetReturn(right, i))
  }

  /** Gross profit of the logged positions over the first bars. */
  function GrossProfit(left: seq<real>, right: seq<real>, trades: seq<PairTrade>, n: nat): real
    requires Positive(left) && Positive(right) && |left| == |right| && (n == 0 || n < |left|)
  {
    if n == 0 then 0.0
    else GrossProfit(left, right, trades, n - 1) + LegsProfit(Replay(trades, n - 1), left, right, n)
  }

  /** Rows record real changes, in bar order. */
  predicate InOrder(trades: seq<PairTrade>) {
    && (forall j :: 0 <= j < |trades| ==> trades[j].bar >= 1)
    && (forall j :: 1 <= j < |trades| ==> trades[j - 1].bar < trades[j].bar)
    && (forall j :: 0 <= j < |trades| ==> Ending(trades[..j]) != Row(trades[j]))
  }

  predicate Series(spec: StrategySpec, left: seq<real>, right: seq<real>) {
    spec.rebalanceDays >= 1 && Positive(left) && Positive(right) && |left| == |right|
  }

  lemma NoChange(from: Pair, to: Pair)
    ensures Change(from, to) == 0.0 <==> from == to
  {
  }

  /** How one bar extends the log. */
  lemma LogStep(spec: StrategySpec, slow: nat, left: seq<real>, right: seq<real>, n: nat)
    requires Series(spec, left, right) && 1 <= n < |left|
    ensures var p, s := PairAfter(spec, slow, left, right, n - 1), PairAfter(spec, slow, left, right, n);
            && s.trades == (if p.previous == s.previous then p.trades
                            else p.trades + [PairTrade(n, s.previous.left, s.previous.right)])
            && s.earned == p.earned + [LegsProfit(p.previous, left, right, n)
                                       - Fee(Change(p.previous, s.previous), spec.feeBps)]
            && s.value == Grow(p.value, s.earned[n - 1]) && s.equity == p.equity + [s.value]
  {
    hide Path, AssetReturn, Profit, Fee, Grow, Abs;
    var p, s := PairAfter(spec, slow, left, right, n - 1), PairAfter(spec, slow, left, right, n);
    NoChange(p.previous, s.previous);
  }

  lemma InOrderSnoc(trades: seq<PairTrade>, t: PairTrade)
    requires InOrder(trades) && t.bar >= 1 && Ending(trades) != Row(t)
    requires trades != [] ==> trades[|trades| - 1].bar < t.bar
    ensures InOrder(trades + [t]) && Ending(trades + [t]) == Row(t)
  {
    var all := trades + [t];
    forall j | 0 <= j < |all|
      ensures Ending(all[..j]) != Row(all[j])
    {
      assert all[..j] == trades[..j];
      assert trades[..|trades|] == trades;
    }
  }

  lemma {:induction false} LogEndsAtTarget(spec: StrategySpec, slow: nat, left: seq<real>, right: seq<real>, n: nat)
    requires Series(spec, left, right) && n < |left|
    ensures var s := PairAfter(spec, slow, left, right, n);
            && InOrder(s.trades) && Ending(s.trades) == s.previous
            && (s.trades != [] ==> s.trades[|s.trades| - 1].bar <= n)
  {
    hide PairAfter, Path, Fee, Grow, LegsProfit, InOrder;
    if n == 0 {
      EmptyAtStart(spec, slow, left, right);
    } else {
      LogEndsAtTarget(spec, slow, left, right, n - 1);
      LogStep(spec, slow, left, right, n);
      var p, s := PairAfter(spec, slow, left, right, n - 1), PairAfter(spec, slow, left, right, n);
      if p.previous != s.previous {
        InOrderSnoc(p.trades, PairTrade(n, s.previous.left, s.previous.right));
      }
    }
  }

  lemma EmptyAtStart(spec: StrategySpec, slow: nat, left: seq<real>, right: seq<real>)
    requires Series(spec, left, right) && left != []
    ensures PairAfter(spec, slow, left, right, 0) == PairInit() && InOrder([])
  {
  }

  /** The log of a later state answers for every earlier bar ... */
  lemma {:induction false} LogAnswersForEveryBar(spec: StrategySpec, slow: nat, left: seq<real>, right: seq<real>,
      i: nat, n: nat)
    requires Series(spec, left, right) && i <= n < |left|
    ensures Replay(PairAfter(spec, slow, left, right, n).trades, i) == PairAfter(spec, slow, left, right, i).previous
    decreases n
  {
    hide PairAfter, Path, Fee, Grow, LegsProfit, InOrder;
    if i == n {
      LogEndsAtTarget(spec, slow, left, right, n);
    } else {
      LogAnswersForEveryBar(spec, slow, left, right, i, n - 1);
      LogStep(spec, slow, left, right, n);
      var p, s := PairAfter(spec, slow, left, right, n - 1), PairAfter(spec, slow, left, right, n);
      ReplayIgnoresLater(p.trades, PairTrade(n, s.previous.left, s.previous.right), i);
    }
  }

  lemma ReplayIgnoresLater(trades: seq<PairTrade>, t: PairTrade, bar: nat)
    requires t.bar > bar
    ensures Replay(trades + [t], bar) == Replay(trades, bar)
  {
    assert (trades + [t])[..|trades|] == trades;
  }

  /** ... and keeps every return and equity value booked so far. */
  lemma {:induction false} LaterExtendsEarlier(spec: StrategySpec, slow: nat, left: seq<real>, right: seq<real>,
      i: nat, n: nat)
    requires Series(spec, left, right) && i <= n < |left|
    ensures var a, s := PairAfter(spec, slow, left, right, i), PairAfter(spec, slow, left, right, n);
            s.earned[..i] == a.earned && s.equity[..i] == a.equity
    decreases n
  {
    hide PairAfter, Path, Fee, Grow, LegsProfit, Change;
    if i < n {
      LaterExtendsEarlier(spec, slow, left, right, i, n - 1);
      LogStep(spec, slow, left, right, n);
      var p, s := PairAfter(spec, slow, left, right, n - 1), PairAfter(spec, slow, left, right, n);
      assert s.earned[..i] == p.earned[..i] && s.equity[..i] == p.equity[..i];
    }
  }

  // ---------------------------------------------------------------------- conservation

  lemma TurnoverStep(trades: seq<PairTrade>, t: PairTrade)
    ensures Turnover(trades + [t]) == Turnover(trades) + Change(Ending(trades), Row(t))
  {
    assert (trades + [t])[..|trades|] == trades;
  }

  lemma {:induction false} SameReplaySameProfit(left: seq<real>, right: seq<real>, a: seq<PairTrade>,
      b: seq<PairTrade>, n: nat)
    requires Positive(left) && Positive(right) && |left| == |right| && (n == 0 || n < |left|)
    requires forall i: nat :: i < n ==> Replay(a, i) == Replay(b, i)
    ensures GrossProfit(left, right, a, n) == GrossProfit(left, right, b, n)
  {
    if n > 0 {
      SameReplaySameProfit(left, right, a, b, n - 1);
    }
  }

  lemma ProfitGrowth(spec: StrategySpec, slow: nat, left: seq<real>, right: seq<real>, n: nat)
    requires Series(spec, left, right) && 1 <= n < |left|
    ensures var p, s := PairAfter(spec, slow, left, right, n - 1), PairAfter(spec, slow, left, right, n);
            GrossProfit(left, right, s.trades, n)
            == GrossProfit(left, right, p.trades, n - 1) + LegsProfit(p.previous, left, right, n)
  {
    hide PairAfter, LegsProfit, Replay;
    var p, s := PairAfter(spec, slow, left, right, n - 1).trades, PairAfter(spec, slow, left, right, n).trades;
    LogAnswersForEveryBar(spec, slow, left, right, n - 1, n);
    forall i: nat | i < n - 1
      ensures Replay(s, i) == Replay(p, i)
    {
      LogAnswersForEveryBar(spec, slow, left, right, i, n);
      LogAnswersForEveryBar(spec, slow, left, right, i, n - 1);
    }
    SameReplaySameProfit(left, right, s, p, n - 1);
  }

  lemma TurnoverGrowth(spec: StrategySpec, slow: nat, left: seq<real>, right: seq<real>, n: nat)
    requires Series(spec, left, right) && 1 <= n < |left|
    ensures var p, s := PairAfter(spec, slow, left, right, n - 1), PairAfter(spec, slow, left, right, n);
            Turnover(s.trades) == Turnover(p.trades) + Change(p.previous, s.previous)
  {
    hide PairAfter, LegsProfit, Turnover, Fee, Grow, Change;
    var p, s := PairAfter(spec, slow, left, right, n - 1), PairAfter(spec, slow, left, right, n);
    LogStep(spec, slow, left, right, n);
    LogEndsAtTarget(spec, slow, left, right, n - 1);
    NoChange(p.previous, s.previous);
    TurnoverStep(p.trades, PairTrade(n, s.previous.left, s.previous.right));
  }

  /** Conservation: summed returns are the gross profit of the logged positions of both legs less the
      fee rate times the logged turnover. */
  lemma {:induction false} ReturnsBalance(spec: StrategySpec, slow: nat, left: seq<real>, right: seq<real>, n: nat)
    requires Series(spec, left, right) && n < |left|
    ensures var s := PairAfter(spec, slow, left, right, n);
            Sum(s.earned) == GrossProfit(left, right, s.trades, n) - Fee(Turnover(s.trades), spec.feeBps)
  {
    hide PairAfter, LegsProfit, Fee, Grow, Change, Sum, Turnover, GrossProfit;
    if n == 0 {
      BalancedAtStart(spec, slow, left, right);
    } else {
      var p, s := PairAfter(spec, slow, left, right, n - 1), PairAfter(spec, slow, left, right, n);
      ReturnsBalance(spec, slow, left, right, n - 1);
      LogStep(spec, slow, left, right, n);
      var change := Change(p.previous, s.previous);
      SumSnoc(p.earned, LegsProfit(p.previous, left, right, n) - Fee(change, spec.feeBps));
      ProfitGrowth(spec, slow, left, right, n);
      TurnoverGrowth(spec, slow, left, right, n);
      FeeIsAdditive(Turnover(p.trades), change, spec.feeBps);
    }
  }

  lemma BalancedAtStart(spec: StrategySpec, slow: nat, left: seq<real>, right: seq<real>)
    requires Series(spec, left, right) && left != []
    ensures var s := PairAfter(spec, slow, left, right, 0);
            Sum(s.earned) == GrossProfit(left, right, s.trades, 0) - Fee(Turnover(s.trades), spec.feeBps)
  {
  }

  lemma GrowthCompounds(earned: seq<real>, next: real)
    ensures Compound(earned + [next]) == Grow(Compound(earned), next) && Compound([]) == 1.0
  {
    CompoundSnoc(earned, next);
  }

  lemma {:induction false} EquityCompounds(spec: StrategySpec, slow: nat, left: seq<real>, right: seq<real>, n: nat)
    requires Series(spec, left, right) && n < |left|
    ensures var s := PairAfter(spec, slow, left, right, n);
            s.value == Compound(s.earned) && (n > 0 ==> s.equity[n - 1] == s.value)
  {
    hide PairAfter, LegsProfit, Fee, Change, Compound, Grow;
    if n == 0 {
      EmptyAtStart(spec, slow, left, right);
      GrowthCompounds([], 0.0);
    } else {
      EquityCompounds(spec, slow, left, right, n - 1);
      LogStep(spec, slow, left, right, n);
      var p, s := PairAfter(spec, slow, left, right, n - 1), PairAfter(spec, slow, left, right, n);
      assert s.earned == p.earned + [s.earned[n - 1]];
      GrowthCompounds(p.earned, s.earned[n - 1]);
    }
  }

  /** Main result: the log of a two-leg run, in bar order and each row a change, together with the two
      price series determines every return, the equity curve and the total cost. */
  lemma PairLogIsComplete(spec: StrategySpec, slow: nat, left: seq<real>, right: seq<real>)
    requires Series(spec, left, right) && left != []
    ensures var n := |left| - 1; var s := PairAfter(spec, slow, left, right, n);
            && InOrder(s.trades) && |s.earned| == |s.equity| == n
            && Sum(s.earned) == GrossProfit(left, right, s.trades, n) - Fee(Turnover(s.trades), spec.feeBps)
    ensures var n := |left| - 1; var s := PairAfter(spec, slow, left, right, n);
            forall i :: 1 <= i <= n ==>
              && Replay(s.trades, i) == Path(spec, slow, left, right, i)
              && s.earned[i - 1] == LegsProfit(Replay(s.trades, i - 1), left, right, i)
                                    - Fee(Change(Replay(s.trades, i - 1), Replay(s.trades, i)), spec.feeBps)
              && s.equity[i - 1] == Compound(s.earned[..i])
  {
    hide PairAfter, LegsProfit, Fee, Change, Sum, Grow, Compound, Path, Replay, InOrder, Turnover, GrossProfit;
    var n := |left| - 1;
    var s := PairAfter(spec, slow, left, right, n);
    LogEndsAtTarget(spec, slow, left, right, n);
    ReturnsBalance(spec, slow, left, right, n);
    forall i | 1 <= i <= n
      ensures Replay(s.trades, i) == Path(spec, slow, left, right, i)
      ensures s.earned[i - 1] == LegsProfit(Replay(s.trades, i - 1), left, right, i)
                                 - Fee(Change(Replay(s.trades, i - 1), Replay(s.trades, i)), spec.feeBps)
      ensures s.equity[i - 1] == Compound(s.earned[..i])
    {
      var a := PairAfter(spec, slow, left, right, i);
      LogAnswersForEveryBar(spec, slow, left, right, i, n);
      LogAnswersForEveryBar(spec, slow, left, right, i - 1, n);
      LaterExtendsEarlier(spec, slow, left, right, i, n);
      LogStep(spec, slow, left, right, i);
      EquityCompounds(spec, slow, left, right, i);
      assert s.earned[i - 1] == s.earned[..i][i - 1] && s.equity[i - 1] == s.equity[..i][i - 1];
    }
  }
}
