/** When more history leaves a two-leg run alone: common bars added to both legs may move the window
    clamp, and with it every decision, and always move the last close. */
module PairHistory {
  import opened StrategySpecs
  import opened DailyEngine
  import opened CrossSectional
  import opened PairRuns
  import opened PairLedger

  /** The effective window of a two-leg run, clamped to the shorter of its legs' whole series. */
  function PairWindow(spec: StrategySpec, count: nat): nat { EffectiveSlow(spec.slowWindow, count) }

  /** A join of n bars is long enough to run. */
  predicate Live(spec: StrategySpec, n: nat, count: nat) { n >= PairWindow(spec, count) + 2 }

  /** A run over n common bars decides something before bar `until`. */
  predicate Decides(spec: StrategySpec, n: nat, count: nat, until: nat)
    requires spec.Valid() && until >= 1
  {
    Live(spec, n, count) && LastSlot(spec, until - 1) >= PairWindow(spec, count)
  }

  /** The positions a finished run reports at a bar, from its log. */
  function Reported(spec: StrategySpec, left: seq<real>, right: seq<real>, count: nat, i: nat): Pair
    requires spec.Valid() && Positive(left) && Positive(right) && |left| == |right|
  {
    Replay(PairRun(spec, left, right, count).trades, i)
  }

  lemma ReportedIs(spec: StrategySpec, left: seq<real>, right: seq<real>, count: nat, i: nat)
    requires spec.Valid() && Positive(left) && Positive(right) && |left| == |right| && i < |left| && count >= 1
    ensures Reported(spec, left, right, count, i)
         == if Live(spec, |left|, count) && LastSlot(spec, i) >= PairWindow(spec, count)
            then PairTarget(spec, Spread(PairWindow(spec, count), left, right, LastSlot(spec, i)))
            else FLAT
  {
    hide PairTarget, Spread, LastSlot;
    if Live(spec, |left|, count) {
      LogAnswersForEveryBar(spec, PairWindow(spec, count), left, right, i, |left| - 1);
      PathIsLastDecision(spec, PairWindow(spec, count), left, right, i);
    }
  }

  /** Appending common bars to both legs, whose whole series grow from p to q bars at the least, never
      changes a position already reported. */
  ghost predicate PairPrefixStable(spec: StrategySpec, n: nat, p: nat, m: nat, q: nat)
    requires spec.Valid() && n <= m
  {
    forall left: seq<real>, right: seq<real>, i: nat
      {:trigger Reported(spec, left, right, q, i)} ::
      Positive(left) && Positive(right) && |left| == |right| == m && i < n ==>
        Reported(spec, left[..n], right[..n], p, i) == Reported(spec, left, right, q, i)
  }

  lemma SlotsInOrder(spec: StrategySpec, i: nat, j: nat)
    requires spec.rebalanceDays >= 1 && i <= j
    ensures LastSlot(spec, i) <= LastSlot(spec, j) <= j
  {
    var d := spec.rebalanceDays;
    assert i - i % d == d * (i / d) && j - j % d == d * (j / d);
    QuotientsInOrder(i, j, d);
    if i / d < j / d {
      Multiple(d, j / d - i / d);
      assert d * (j / d) - d * (i / d) == d * (j / d - i / d);
    }
  }

  lemma QuotientsInOrder(i: nat, j: nat, d: nat)
    requires d >= 1 && i <= j
    ensures i / d <= j / d
  {
    if i / d > j / d {
      Multiple(d, i / d - j / d);
      assert false;
    }
  }

  lemma SlotIsItsOwn(spec: StrategySpec, i: nat)
    requires spec.rebalanceDays >= 1
    ensures LastSlot(spec, LastSlot(spec, i)) == LastSlot(spec, i)
  {
    SlotIsMultiple(i, spec.rebalanceDays);
  }

  lemma QuietRunsAreStable(spec: StrategySpec, n: nat, p: nat, m: nat, q: nat)
    requires spec.Valid() && 1 <= n < m && p >= 1 && q >= 1
    requires !Decides(spec, n, p, n) && !Decides(spec, m, q, n)
    ensures PairPrefixStable(spec, n, p, m, q)
  {
    hide LastSlot, PairTarget, Spread, Reported, PairWindow;
    forall left: seq<real>, right: seq<real>, i: nat
      {:trigger Reported(spec, left, right, q, i)} |
      Positive(left) && Positive(right) && |left| == |right| == m && i < n
      ensures Reported(spec, left[..n], right[..n], p, i) == Reported(spec, left, right, q, i)
    {
      SlotsInOrder(spec, i, n - 1);
      ReportedIs(spec, left[..n], right[..n], p, i);
      ReportedIs(spec, left, right, q, i);
    }
  }

  lemma SameWindowIsStable(spec: StrategySpec, n: nat, p: nat, m: nat, q: nat)
    requires spec.Valid() && 1 <= n < m && p >= 1 && q >= 1 && Live(spec, n, p) && Live(spec, m, q)
    requires PairWindow(spec, p) == PairWindow(spec, q) && PairWindow(spec, p) % spec.rebalanceDays != 0
    ensures PairPrefixStable(spec, n, p, m, q)
  {
    hide LastSlot, PairTarget, Spread, Reported;
    var slow := PairWindow(spec, p);
    forall left: seq<real>, right: seq<real>, i: nat
      {:trigger Reported(spec, left, right, q, i)} |
      Positive(left) && Positive(right) && |left| == |right| == m && i < n
      ensures Reported(spec, left[..n], right[..n], p, i) == Reported(spec, left, right, q, i)
    {
      ReportedIs(spec, left[..n], right[..n], p, i);
      ReportedIs(spec, left, right, q, i);
      var slot := LastSlot(spec, i);
      SlotsInOrder(spec, i, i);
      SlotIsNot(spec, i, slow);
      if slot > slow {
        SpreadFromPast(slow, left[..n], right[..n], left, right, slot, i);
      }
    }
  }

  lemma SlotIsNot(spec: StrategySpec, i: nat, slow: nat)
    requires spec.rebalanceDays >= 1 && slow % spec.rebalanceDays != 0
    ensures LastSlot(spec, i) != slow
  {
    SlotIsMultiple(i, spec.rebalanceDays);
  }

  /** A positive spread is traded. */
  lemma UnitSpreadTrades(spec: StrategySpec)
    requires spec.Valid()
    ensures PairTarget(spec, 1.0) != FLAT && PairTarget(spec, 0.0) == FLAT
  {
  }

  /** A close that differs in one leg and in one window only. */
  lemma BumpSpreads(n: nat, at: nat, close: real, slow: nat, slot: nat)
    requires close > 0.0 && 1 <= slow <= slot < n
    ensures var before := if slot == slow then n - 1 else slot - 1 - slow;
            Spread(slow, Bump(n, at, close), Bump(n, at, 1.0), slot)
            == (if at == slot - 1 then close else 1.0) / (if at == before then close else 1.0) - 1.0
  {
    hide Bump;
    var left, right := Bump(n, at, close), Bump(n, at, 1.0);
    BumpAt(n, at, close, slot - 1);
    BumpAt(n, at, 1.0, slot - 1);
    var before := if slot == slow then n - 1 else slot - 1 - slow;
    BumpAt(n, at, close, before);
    BumpAt(n, at, 1.0, before);
  }

  lemma BumpAt(n: nat, at: nat, close: real, k: nat)
    requires close > 0.0 && k < n
    ensures Bump(n, at, close)[k] == if k == at then close else 1.0
  {
  }

  lemma BumpPrefix(n: nat, m: nat, at: nat, close: real)
    requires close > 0.0 && n <= m
    ensures Bump(m, at, close)[..n] == Bump(n, at, close)
  {
  }

  /** Closes that tell two runs apart at a bar. */
  lemma Unstable(spec: StrategySpec, n: nat, p: nat, m: nat, q: nat, left: seq<real>, right: seq<real>, i: nat)
    requires spec.Valid() && n <= m && Positive(left) && Positive(right) && |left| == |right| == m && i < n
    requires Reported(spec, left[..n], right[..n], p, i) != Reported(spec, left, right, q, i)
    ensures !PairPrefixStable(spec, n, p, m, q)
  {
    hide Reported;
  }

  /** Only one of the runs decides anything at bar t: a rise there shows. */
  lemma OnlyOneDecides(spec: StrategySpec, n: nat, p: nat, m: nat, q: nat, t: nat)
    requires spec.Valid() && n < m && p >= 1 && q >= 1 && t < n && LastSlot(spec, t) == t
    requires var earlier, later := Live(spec, n, p) && t >= PairWindow(spec, p),
                                   Live(spec, m, q) && t >= PairWindow(spec, q);
             earlier != later
    ensures !PairPrefixStable(spec, n, p, m, q)
  {
    hide LastSlot, PairTarget, Spread, Reported, Bump, Live;
    var left, right := Bump(m, t - 1, 2.0), Bump(m, t - 1, 1.0);
    WindowsArePositive(spec, p);
    WindowsArePositive(spec, q);
    BumpPrefix(n, m, t - 1, 2.0);
    BumpPrefix(n, m, t - 1, 1.0);
    ReportedIs(spec, left[..n], right[..n], p, t);
    ReportedIs(spec, left, right, q, t);
    UnitSpreadTrades(spec);
    if Live(spec, n, p) && t >= PairWindow(spec, p) {
      BumpSpreads(n, t - 1, 2.0, PairWindow(spec, p), t);
    } else {
      BumpSpreads(m, t - 1, 2.0, PairWindow(spec, q), t);
    }
    Unstable(spec, n, p, m, q, left, right, t);
  }

  lemma WindowsArePositive(spec: StrategySpec, count: nat)
    requires spec.Valid()
    ensures PairWindow(spec, count) >= 3
  {
  }

  /** Both decide at bar t, on different windows: a low where the shorter one starts shows. */
  lemma WindowsDiffer(spec: StrategySpec, n: nat, p: nat, m: nat, q: nat, t: nat)
    requires spec.Valid() && n < m && p >= 1 && q >= 1 && t < n && LastSlot(spec, t) == t
    requires Live(spec, n, p) && Live(spec, m, q) && PairWindow(spec, p) < PairWindow(spec, q) <= t
    ensures !PairPrefixStable(spec, n, p, m, q)
  {
    hide LastSlot, PairTarget, Spread, Reported, Bump, Live;
    WindowsArePositive(spec, p);
    var at := t - 1 - PairWindow(spec, p);
    var left, right := Bump(m, at, 0.5), Bump(m, at, 1.0);
    BumpPrefix(n, m, at, 0.5);
    BumpPrefix(n, m, at, 1.0);
    ReportedIs(spec, left[..n], right[..n], p, t);
    ReportedIs(spec, left, right, q, t);
    UnitSpreadTrades(spec);
    BumpSpreads(n, at, 0.5, PairWindow(spec, p), t);
    BumpSpreads(m, at, 0.5, PairWindow(spec, q), t);
    Unstable(spec, n, p, m, q, left, right, t);
  }

  /** Both measure their first window against the last close: a fall in an appended close shows. */
  lemma LastCloseMoves(spec: StrategySpec, n: nat, p: nat, m: nat, q: nat)
    requires spec.Valid() && n < m && p >= 1 && q >= 1 && Live(spec, n, p) && Live(spec, m, q)
    requires PairWindow(spec, p) == PairWindow(spec, q) && LastSlot(spec, PairWindow(spec, p)) == PairWindow(spec, p)
    ensures !PairPrefixStable(spec, n, p, m, q)
  {
    hide LastSlot, PairTarget, Spread, Reported, Bump;
    var t := PairWindow(spec, p);
    WindowsArePositive(spec, p);
    var left, right := Bump(m, m - 1, 0.5), Bump(m, m - 1, 1.0);
    BumpPrefix(n, m, m - 1, 0.5);
    BumpPrefix(n, m, m - 1, 1.0);
    ReportedIs(spec, left[..n], right[..n], p, t);
    ReportedIs(spec, left, right, q, t);
    UnitSpreadTrades(spec);
    BumpSpreads(n, m - 1, 0.5, t, t);
    BumpSpreads(m, m - 1, 0.5, t, t);
    Unstable(spec, n, p, m, q, left, right, t);
  }

  lemma WindowsGrow(spec: StrategySpec, p: nat, q: nat)
    requires p <= q
    ensures PairWindow(spec, p) <= PairWindow(spec, q)
  {
  }

  /** Exactly when common bars appended to both legs leave every reported position of a two-leg run
      alone, for all prices: when neither run decides anything before the old end, or both run with one
      window, which is no multiple of the rebalance interval. */
  lemma PairPrefixStableIff(spec: StrategySpec, n: nat, p: nat, m: nat, q: nat)
    requires spec.Valid() && 1 <= n < m && n <= p <= q && m <= q
    ensures PairPrefixStable(spec, n, p, m, q) <==>
            || (!Decides(spec, n, p, n) && !Decides(spec, m, q, n))
            || (Live(spec, n, p) && Live(spec, m, q) && PairWindow(spec, p) == PairWindow(spec, q)
                && PairWindow(spec, p) % spec.rebalanceDays != 0)
  {
    hide LastSlot, PairPrefixStable, PairWindow;
    var t := LastSlot(spec, n - 1);
    SlotsInOrder(spec, n - 1, n - 1);
    SlotIsItsOwn(spec, n - 1);
    WindowsGrow(spec, p, q);
    if !Decides(spec, n, p, n) && !Decides(spec, m, q, n) {
      QuietRunsAreStable(spec, n, p, m, q);
    } else if Decides(spec, n, p, n) != Decides(spec, m, q, n) {
      OnlyOneDecides(spec, n, p, m, q, t);
    } else if PairWindow(spec, p) < PairWindow(spec, q) {
      WindowsDiffer(spec, n, p, m, q, t);
    } else if PairWindow(spec, p) % spec.rebalanceDays != 0 {
      SameWindowIsStable(spec, n, p, m, q);
    } else {
      MultipleIsItsOwn(spec, PairWindow(spec, p));
      LastCloseMoves(spec, n, p, m, q);
    }
  }

  lemma MultipleIsItsOwn(spec: StrategySpec, slow: nat)
    requires spec.rebalanceDays >= 1 && slow % spec.rebalanceDays == 0
    ensures LastSlot(spec, slow) == slow
  {
  }
}
