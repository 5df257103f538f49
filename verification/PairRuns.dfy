/** Theorems about the target path of the cross-sectional engine. */
module PairRuns {
  import opened RealMath
  import opened StrategySpecs
  import opened CrossSectional

  /** The latest bar at or before i whose index is a multiple of the rebalance interval. */
  function LastSlot(spec: StrategySpec, i: nat): nat
    requires spec.rebalanceDays >= 1
  {
    i - i % spec.rebalanceDays
  }

  /** Between two slots nothing changes: the slot of a bar that is not one is its predecessor's. */
  lemma SlotStep(i: nat, d: nat)
    requires i >= 1 && d >= 1 && i % d != 0
    ensures i - i % d == (i - 1) - (i - 1) % d
  {
    var q, r := i / d, i % d;
    assert i - 1 == d * q + (r - 1) && 0 <= r - 1 < d;
    Remainder(i - 1, d, q, r - 1);
  }

  lemma Remainder(n: int, d: int, q: int, r: int)
    requires d >= 1 && n == d * q + r && 0 <= r < d
    ensures n % d == r
  {
    var q2, r2 := n / d, n % d;
    assert d * (q - q2) == r2 - r;
    if q > q2 {
      Multiple(d, q - q2);
    } else if q < q2 {
      assert d * (q2 - q) == r - r2;
      Multiple(d, q2 - q);
    }
  }

  lemma Multiple(d: int, k: int)
    requires d >= 1 && k >= 1
    ensures d * k >= d
  {
  }

  /** Closed form of the path: the decision of the latest slot once a full window is behind it. */
  lemma {:induction false} PathIsLastDecision(spec: StrategySpec, slow: nat, left: seq<real>, right: seq<real>, i: nat)
    requires spec.rebalanceDays >= 1 && Positive(left) && Positive(right) && |left| == |right|
    requires slow >= 1 && i < |left|
    ensures var slot := LastSlot(spec, i);
            Path(spec, slow, left, right, i)
            == if slot >= slow then PairTarget(spec, Spread(slow, left, right, slot)) else Pair(0.0, 0.0)
  {
    hide LegMomentum, PairTarget;
    if i > 0 && i % spec.rebalanceDays != 0 {
      SlotStep(i, spec.rebalanceDays);
      PathIsLastDecision(spec, slow, left, right, i - 1);
    } else if 0 < i < slow {
      PathIsLastDecision(spec, slow, left, right, i - 1);
    }
  }

  // ------------------------------------------------------------------- neutrality

  /** With both legs enabled the book is flat in total at every bar of every run. */
  lemma {:induction false} MarketNeutral(spec: StrategySpec, slow: nat, left: seq<real>, right: seq<real>, i: nat)
    requires spec.rebalanceDays >= 1 && Positive(left) && Positive(right) && |left| == |right| && i < |left|
    requires spec.longShort
    ensures var held := Path(spec, slow, left, right, i);
            held.left + held.right == 0.0
  {
    if i > 0 {
      MarketNeutral(spec, slow, left, right, i - 1);
    }
  }

  /** So a move shared by both legs earns nothing: only the fee is left. */
  lemma SharedMoveEarnsNothing(spec: StrategySpec, slow: nat, left: seq<real>, right: seq<real>, i: nat)
    requires spec.rebalanceDays >= 1 && Positive(left) && Positive(right) && |left| == |right| && 1 <= i < |left|
    requires spec.longShort && AssetReturn(left, i) == AssetReturn(right, i)
    ensures var before, after := Path(spec, slow, left, right, i - 1), Path(spec, slow, left, right, i);
            PairAfter(spec, slow, left, right, i).earned[i - 1]
            == -Fee(Abs(after.left - before.left) + Abs(after.right - before.right), spec.feeBps)
  {
    hide AssetReturn, Path, Fee, Abs, Grow;
    MarketNeutral(spec, slow, left, right, i - 1);
    var before := Path(spec, slow, left, right, i - 1);
    OppositeProfits(before.left, before.right, AssetReturn(left, i));
  }

  lemma OppositeProfits(a: real, b: real, r: real)
    requires a + b == 0.0
    ensures Profit(a, r) + Profit(b, r) == 0.0
  {
    assert a * r + b * r == (a + b) * r;
  }

  // ------------------------------------------------------ following the stronger leg

  /** Flat, or long the leg with the greater momentum. */
  predicate FollowsStronger(target: Pair, spread: real) {
    || target == Pair(0.0, 0.0)
    || (spread > 0.0 && target.left > 0.0 && target.right <= 0.0)
    || (spread < 0.0 && target.right > 0.0 && target.left <= 0.0)
  }

  function Swap(p: Pair): Pair { Pair(p.right, p.left) }

  /** The decision goes against the spread exactly in the band above the exit threshold and up
      to the entry threshold, where the source's last branch buys the weaker leg. */
  lemma FollowsStrongerIff(spec: StrategySpec, spread: real)
    requires spec.Valid()
    ensures FollowsStronger(PairTarget(spec, spread), spread)
       <==> !(spec.exitThreshold < spread <= spec.entryThreshold)
  {
  }

  /** Relabelling the legs relabels the decision except in that band and its mirror. */
  lemma DecisionSymmetricIff(spec: StrategySpec, spread: real)
    requires spec.Valid()
    ensures PairTarget(spec, -spread) == Swap(PairTarget(spec, spread))
       <==> !(spec.exitThreshold < Abs(spread) <= spec.entryThreshold)
  {
  }

  /** Every non-flat target of every run is long the leg that was stronger at its slot. */
  lemma RunFollowsStronger(spec: StrategySpec, slow: nat, left: seq<real>, right: seq<real>, i: nat)
    requires spec.Valid() && spec.entryThreshold <= spec.exitThreshold
    requires Positive(left) && Positive(right) && |left| == |right| && slow >= 1 && i < |left|
    ensures var slot := LastSlot(spec, i);
            if slot < slow then Path(spec, slow, left, right, i) == Pair(0.0, 0.0)
            else FollowsStronger(Path(spec, slow, left, right, i), Spread(slow, left, right, slot))
  {
    PathIsLastDecision(spec, slow, left, right, i);
    var slot := LastSlot(spec, i);
    if slot >= slow {
      FollowsStrongerIff(spec, Spread(slow, left, right, slot));
    }
  }

  /** Swapping the two price series swaps the target at bar i, for all series of length n. */
  ghost predicate SwapSymmetric(spec: StrategySpec, slow: nat, n: nat, i: nat)
    requires spec.Valid() && i < n
  {
    forall left: seq<real>, right: seq<real>
      {:trigger Path(spec, slow, left, right, i)} ::
      Positive(left) && Positive(right) && |left| == |right| == n ==>
        Path(spec, slow, right, left, i) == Swap(Path(spec, slow, left, right, i))
  }

  /** A flat series of ones except for one close. */
  function Bump(n: nat, p: nat, close: real): (closes: seq<real>)
    requires close > 0.0
    ensures |closes| == n && Positive(closes)
  {
    seq(n, i => if i == p then close else 1.0)
  }

  /** Swap symmetry at a bar holds exactly when the exit threshold covers the entry threshold,
      or the bar comes before the first decision. */
  lemma SwapSymmetricIff(spec: StrategySpec, slow: nat, n: nat, i: nat)
    requires spec.Valid() && slow >= 1 && n >= slow + 2 && i < n
    ensures SwapSymmetric(spec, slow, n, i)
       <==> (spec.entryThreshold <= spec.exitThreshold || LastSlot(spec, i) < slow)
  {
    var slot := LastSlot(spec, i);
    if spec.entryThreshold <= spec.exitThreshold || slot < slow {
      forall left: seq<real>, right: seq<real>
        {:trigger Path(spec, slow, left, right, i)} |
        Positive(left) && Positive(right) && |left| == |right| == n
        ensures Path(spec, slow, right, left, i) == Swap(Path(spec, slow, left, right, i))
      {
        hide LegMomentum, PairTarget;
        PathIsLastDecision(spec, slow, left, right, i);
        PathIsLastDecision(spec, slow, right, left, i);
        if slot >= slow {
          DecisionSymmetricIff(spec, Spread(slow, left, right, slot));
        }
      }
    } else {
      hide PairTarget;
      var spread := spec.entryThreshold;
      var left, right := Bump(n, slot - 1, 1.0 + spread), Bump(n, slot - 1, 1.0);
      PathIsLastDecision(spec, slow, left, right, i);
      PathIsLastDecision(spec, slow, right, left, i);
      assert Spread(slow, left, right, slot) == spread;
      assert Spread(slow, right, left, slot) == -spread;
      DecisionSymmetricIff(spec, spread);
    }
  }

  // ---------------------------------------------------------------------- causality

  /** The target at bar i is settled by the closes before bar i, for all series of length n. */
  ghost predicate Causal(spec: StrategySpec, slow: nat, n: nat, i: nat)
    requires spec.Valid() && i < n
  {
    forall l1: seq<real>, r1: seq<real>, l2: seq<real>, r2: seq<real>
      {:trigger Path(spec, slow, l1, r1, i), Path(spec, slow, l2, r2, i)} ::
      Positive(l1) && Positive(r1) && Positive(l2) && Positive(r2)
      && |l1| == |r1| == |l2| == |r2| == n && l1[..i] == l2[..i] && r1[..i] == r2[..i] ==>
        Path(spec, slow, l1, r1, i) == Path(spec, slow, l2, r2, i)
  }

  /** A spread measured after the first full window reads only closes before its bar. */
  lemma SpreadFromPast(slow: nat, l1: seq<real>, r1: seq<real>, l2: seq<real>, r2: seq<real>, slot: nat, i: nat)
    requires Positive(l1) && Positive(r1) && Positive(l2) && Positive(r2)
    requires |l1| == |r1| && |l2| == |r2| && 1 <= slow < slot <= i < |l1| && i < |l2|
    requires l1[..i] == l2[..i] && r1[..i] == r2[..i]
    ensures Spread(slow, l1, r1, slot) == Spread(slow, l2, r2, slot)
  {
    forall k | 0 <= k < i
      ensures l1[k] == l2[k] && r1[k] == r2[k]
    {
      assert l1[k] == l1[..i][k] && r1[k] == r1[..i][k];
    }
  }

  /** Exactly where the engine looks ahead.  The target at bar i depends on later closes if and
      only if the window is a multiple of the rebalance interval and i lies in the interval
      that starts at the first full window; from the next rebalance on every target is causal. */
  lemma CausalIff(spec: StrategySpec, slow: nat, n: nat, i: nat)
    requires spec.Valid() && slow >= 1 && n >= slow + 2 && i < n
    ensures Causal(spec, slow, n, i) <==> LastSlot(spec, i) != slow
  {
    var slot := LastSlot(spec, i);
    if slot != slow {
      forall l1: seq<real>, r1: seq<real>, l2: seq<real>, r2: seq<real>
        {:trigger Path(spec, slow, l1, r1, i), Path(spec, slow, l2, r2, i)} |
        Positive(l1) && Positive(r1) && Positive(l2) && Positive(r2)
        && |l1| == |r1| == |l2| == |r2| == n && l1[..i] == l2[..i] && r1[..i] == r2[..i]
        ensures Path(spec, slow, l1, r1, i) == Path(spec, slow, l2, r2, i)
      {
        hide Spread, PairTarget;
        PathIsLastDecision(spec, slow, l1, r1, i);
        PathIsLastDecision(spec, slow, l2, r2, i);
        if slot > slow {
          SpreadFromPast(slow, l1, r1, l2, r2, slot, i);
        }
      }
    } else {
      LastCloseDecides(spec, slow, n, i);
    }
  }

  /** Two series that differ in their last close only, and the targets they get. */
  lemma LastCloseDecides(spec: StrategySpec, slow: nat, n: nat, i: nat)
    requires spec.Valid() && slow >= 1 && n >= slow + 2 && i < n && LastSlot(spec, i) == slow
    ensures Bump(n, n - 1, 1.0)[..i] == Bump(n, n - 1, 0.5)[..i]
    ensures Path(spec, slow, Bump(n, n - 1, 1.0), Bump(n, n - 1, 1.0), i) == Pair(0.0, 0.0)
    ensures Path(spec, slow, Bump(n, n - 1, 0.5), Bump(n, n - 1, 1.0), i).left == spec.maxPosition
  {
    var flat, dropped := Bump(n, n - 1, 1.0), Bump(n, n - 1, 0.5);
    PathIsLastDecision(spec, slow, flat, flat, i);
    PathIsLastDecision(spec, slow, dropped, flat, i);
    assert Spread(slow, flat, flat, slow) == 0.0;
    assert Spread(slow, dropped, flat, slow) == 1.0;
  }

  /** The documented contract for a whole run: no target looks ahead, for any prices, exactly
      when the effective window is not a multiple of the rebalance interval. */
  lemma RunCausalIff(spec: StrategySpec, slow: nat, n: nat)
    requires spec.Valid() && slow >= 1 && n >= slow + 2
    ensures (forall i: nat :: i < n ==> Causal(spec, slow, n, i)) <==> slow % spec.rebalanceDays != 0
  {
    forall i: nat | i < n
      ensures Causal(spec, slow, n, i) <==> LastSlot(spec, i) != slow
    {
      CausalIff(spec, slow, n, i);
    }
    if slow % spec.rebalanceDays == 0 {
      assert LastSlot(spec, slow) == slow;
      assert !Causal(spec, slow, n, slow);
    } else {
      forall i: nat | i < n
        ensures LastSlot(spec, i) != slow
      {
        SlotIsMultiple(i, spec.rebalanceDays);
      }
    }
  }

  lemma SlotIsMultiple(i: nat, d: nat)
    requires d >= 1
    ensures (i - i % d) % d == 0
  {
    Remainder(i - i % d, d, i / d, 0);
  }

  /** From one interval after the window on, every target is causal for every input. */
  lemma CausalAfterFirstInterval(spec: StrategySpec, slow: nat, n: nat, i: nat)
    requires spec.Valid() && slow >= 1 && n >= slow + 2 && slow + spec.rebalanceDays <= i < n
    ensures Causal(spec, slow, n, i)
  {
    CausalIff(spec, slow, n, i);
  }
}
