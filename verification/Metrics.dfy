/** The metrics of a list of returns (calculate_metrics), short of rounding. */
module Metrics {
  import opened RealMath
  import Permutations

  /** The Sharpe ratio is given by its signed square. */
  datatype Report = Report(
    totalReturn: real,
    sharpeSquare: real,
    maxDrawdown: real,
    winRate: real,
    tradeCount: nat,
    turnover: real,
    exposure: real,
    tailLoss: real)

  function SumOf(f: real -> real, xs: seq<real>): real {
    if xs == [] then 0.0 else SumOf(f, xs[..|xs| - 1]) + f(xs[|xs| - 1])
  }

  function Count(p: real -> bool, xs: seq<real>): (n: nat)
    ensures n <= |xs|
  {
    if xs == [] then 0 else Count(p, xs[..|xs| - 1]) + if p(xs[|xs| - 1]) then 1 else 0
  }

  predicate Won(x: real) { x > 0.0 }

  predicate Moved(x: real) { x != 0.0 }

  function SquaredDistance(mean: real): real -> real { x => (x - mean) * (x - mean) }

  function Mean(earned: seq<real>): real
    requires earned != []
  {
    Sum(earned) / |earned| as real
  }

  function Variance(earned: seq<real>): real
    requires earned != []
  {
    SumOf(SquaredDistance(Mean(earned)), earned) / |earned| as real
  }

  function SharpeSquare(mean: real, variance: real): real {
    if variance == 0.0 then 0.0 else mean * Abs(mean) * 365.0 / variance
  }

  /** Equity, starting from one unit, after each return. */
  function Curve(earned: seq<real>): (equity: seq<real>)
    ensures |equity| == |earned|
    ensures forall i :: 0 <= i < |earned| ==> equity[i] == Compound(earned[..i + 1])
  {
    seq(|earned|, i requires 0 <= i < |earned| => Compound(earned[..i + 1]))
  }

  /** How far a value lies below a peak; a peak of zero says nothing. */
  function Fall(value: real, peak: real): real { if peak != 0.0 then (value - peak) / peak else 0.0 }

  /** The worst fall of the first n points from the highest point up to then. */
  function Worst(equity: seq<real>, n: nat): real
    requires n <= |equity|
  {
    if n == 0 then 0.0 else Min(Worst(equity, n - 1), Fall(equity[n - 1], MaxOf(equity[..n])))
  }

  function Insert(sorted: seq<real>, x: real): seq<real> {
    if sorted == [] || sorted[|sorted| - 1] <= x then sorted + [x]
    else Insert(sorted[..|sorted| - 1], x) + [sorted[|sorted| - 1]]
  }

  function Sort(xs: seq<real>): (sorted: seq<real>)
  {
    if xs == [] then [] else Insert(Sort(xs[..|xs| - 1]), xs[|xs| - 1])
  }

  /** Position of the 95 % tail in ascending returns. */
  function TailIndex(n: nat): nat { if n / 20 == 0 then 0 else n / 20 - 1 }

  predicate Ascending(xs: seq<real>) { forall i, j :: 0 <= i < j < |xs| ==> xs[i] <= xs[j] }

  lemma {:induction false} InsertKeepsItems(sorted: seq<real>, x: real)
    ensures |Insert(sorted, x)| == |sorted| + 1 && multiset(Insert(sorted, x)) == multiset(sorted) + multiset{x}
  {
    if sorted != [] && sorted[|sorted| - 1] > x {
      InsertKeepsItems(sorted[..|sorted| - 1], x);
      assert sorted == sorted[..|sorted| - 1] + [sorted[|sorted| - 1]];
    }
  }

  lemma {:induction false} InsertSorts(sorted: seq<real>, x: real)
    requires Ascending(sorted)
    ensures Ascending(Insert(sorted, x))
    ensures var r := Insert(sorted, x); r[|r| - 1] == if sorted == [] then x else Max(sorted[|sorted| - 1], x)
  {
    if sorted != [] && sorted[|sorted| - 1] > x {
      var init, last := sorted[..|sorted| - 1], sorted[|sorted| - 1];
      InsertSorts(init, x);
      var r := Insert(init, x);
      assert forall k :: 0 <= k < |r| ==> r[k] <= r[|r| - 1] <= last;
    }
  }

  lemma {:induction false} SortIsSorted(xs: seq<real>)
    ensures var r := Sort(xs);
            |r| == |xs| && multiset(r) == multiset(xs) && Ascending(r)
  {
    if xs != [] {
      assert xs == xs[..|xs| - 1] + [xs[|xs| - 1]];
      SortIsSorted(xs[..|xs| - 1]);
      InsertKeepsItems(Sort(xs[..|xs| - 1]), xs[|xs| - 1]);
      InsertSorts(Sort(xs[..|xs| - 1]), xs[|xs| - 1]);
    }
  }

  function ReportOf(earned: seq<real>): Report {
    if earned == [] then Report(0.0, 0.0, 0.0, 0.0, 0, 0.0, 0.0, 0.0)
    else
      var n := |earned| as real;
      SortIsSorted(earned);
      Report(
        Compound(earned) - 1.0,
        SharpeSquare(Mean(earned), Variance(earned)),
        Worst(Curve(earned), |earned|),
        Count(Won, earned) as real / n,
        Count(Moved, earned),
        SumOf(Abs, earned),
        Count(Moved, earned) as real / n,
        Sort(earned)[TailIndex(|earned|)])
  }

  /** The equity loop. */
  method EquityOf(earned: seq<real>) returns (equity: seq<real>, total: real)
    ensures equity == Curve(earned) && total == Compound(earned)
  {
    equity, total := [], 1.0;
    for index := 0 to |earned|
      invariant total == Compound(earned[..index]) && |equity| == index
      invariant forall i :: 0 <= i < index ==> equity[i] == Compound(earned[..i + 1])
    {
      assert earned[..index + 1][..index] == earned[..index];
      total := total * (1.0 + earned[index]);
      equity := equity + [total];
    }
    assert earned[..|earned|] == earned;
    assert equity == Curve(earned);
  }

  method MaxDrawdown(equity: seq<real>) returns (worst: real)
    ensures worst == Worst(equity, |equity|)
  {
    hide Fall;
    worst := 0.0;
    var peak := if equity == [] then 0.0 else equity[0];
    for index := 0 to |equity|
      invariant worst == Worst(equity, index)
      invariant index == 0 && equity != [] ==> peak == equity[0]
      invariant index > 0 ==> peak == MaxOf(equity[..index])
    {
      MaxOfPrefix(equity, index);
      peak := Max(peak, equity[index]);
      worst := Min(worst, Fall(equity[index], peak));
    }
  }

  lemma MaxOfPrefix(xs: seq<real>, n: nat)
    requires n < |xs|
    ensures MaxOf(xs[..n + 1]) == if n == 0 then xs[0] else Max(MaxOf(xs[..n]), xs[n])
  {
    assert xs[..n + 1][..n] == xs[..n];
  }

  method CalculateMetrics(earned: seq<real>) returns (report: Report, equity: seq<real>)
    ensures report == ReportOf(earned) && equity == Curve(earned)
  {
    if earned == [] {
      return ReportOf([]), [];
    }
    var total: real;
    equity, total := EquityOf(earned);
    var worst := MaxDrawdown(equity);
    var n := |earned| as real;
    SortIsSorted(earned);
    report := Report(
      total - 1.0, SharpeSquare(Mean(earned), Variance(earned)), worst, Count(Won, earned) as real / n,
      Count(Moved, earned), SumOf(Abs, earned), Count(Moved, earned) as real / n,
      Sort(earned)[TailIndex(|earned|)]);
  }

  lemma TotalIsCompound(earned: seq<real>)
    ensures 1.0 + ReportOf(earned).totalReturn == Compound(earned)
  {
    CompoundEmpty();
  }

  // --------------------------------------------------------------------------- drawdown

  predicate NoTotalLoss(earned: seq<real>) { forall i :: 0 <= i < |earned| ==> earned[i] > -1.0 }

  predicate AllPositive(xs: seq<real>) { forall i :: 0 <= i < |xs| ==> xs[i] > 0.0 }

  lemma FallMeans(value: real, peak: real, bound: real)
    requires peak > 0.0
    ensures bound <= Fall(value, peak) <==> RaiseBy(peak, bound) <= value
    ensures RaiseBy(peak, Fall(value, peak)) == value
  {
    assert ((value - peak) / peak) * peak == value - peak;
    if bound <= Fall(value, peak) {
      Monotone(peak, bound, Fall(value, peak));
    } else {
      StrictlyMonotone(peak, Fall(value, peak), bound);
    }
  }

  lemma Monotone(peak: real, a: real, b: real)
    requires peak > 0.0 && a <= b
    ensures RaiseBy(peak, a) <= RaiseBy(peak, b)
  {
    assert peak * (b - a) >= 0.0;
  }

  lemma StrictlyMonotone(peak: real, a: real, b: real)
    requires peak > 0.0 && a < b
    ensures RaiseBy(peak, a) < RaiseBy(peak, b)
  {
    assert peak * (b - a) > 0.0;
  }

  lemma Grows(a: real, b: real)
    requires a >= 0.0 && b >= 0.0
    ensures a * b >= 0.0
  {
  }

  lemma RaisedPeakIsHigher(a: real, b: real, bound: real)
    requires 0.0 < a <= b && bound >= -1.0
    ensures RaiseBy(a, bound) <= RaiseBy(b, bound)
  {
    Grows(b - a, 1.0 + bound);
  }

  /** The last point, measured against the highest, is measured against every point. */
  lemma LastFall(equity: seq<real>, n: nat, bound: real)
    requires AllPositive(equity) && 0 < n <= |equity| && -1.0 <= bound
    ensures bound <= Fall(equity[n - 1], MaxOf(equity[..n]))
       <==> forall i :: 0 <= i < n ==> RaiseBy(equity[i], bound) <= equity[n - 1]
  {
    hide Fall, RaiseBy;
    var peak, last := MaxOf(equity[..n]), equity[n - 1];
    var at :| 0 <= at < n && equity[at] == peak;
    FallMeans(last, peak, bound);
    forall i | 0 <= i < n
      ensures RaiseBy(equity[i], bound) <= RaiseBy(peak, bound)
    {
      assert equity[i] in equity[..n];
      RaisedPeakIsHigher(equity[i], peak, bound);
    }
  }

  /** A number bounds the reported drawdown exactly when no point lies further than that below an
      earlier one: the drawdown is the worst fall from any point to any later one. */
  lemma {:induction false} DrawdownIsWorstFall(equity: seq<real>, n: nat, bound: real)
    requires AllPositive(equity) && n <= |equity| && -1.0 <= bound <= 0.0
    ensures bound <= Worst(equity, n) <==> forall i, j :: 0 <= i <= j < n ==> RaiseBy(equity[i], bound) <= equity[j]
  {
    hide Fall, RaiseBy, MaxOf;
    if n > 0 {
      DrawdownIsWorstFall(equity, n - 1, bound);
      LastFall(equity, n, bound);
    }
  }

  lemma {:induction false} WorstIsAFraction(equity: seq<real>, n: nat)
    requires AllPositive(equity) && n <= |equity|
    ensures -1.0 < Worst(equity, n) <= 0.0
  {
    if n > 0 {
      hide Fall;
      WorstIsAFraction(equity, n - 1);
      var peak := MaxOf(equity[..n]);
      assert equity[n - 1] == equity[..n][n - 1];
      FallAboveMinusOne(equity[n - 1], peak);
    }
  }

  lemma FallAboveMinusOne(value: real, peak: real)
    requires value > 0.0 && peak > 0.0
    ensures Fall(value, peak) > -1.0
  {
    hide Fall;
    FallMeans(value, peak, -1.0);
    assert RaiseBy(peak, -1.0) == 0.0;
  }

  /** The curve starts after the first return, so a loss on the first bar is no drawdown: the
      reported figure is the fall from the initial unit of capital as well exactly when no point
      lies further below that unit than the figure says. */
  lemma CapitalIsCoveredIff(earned: seq<real>)
    requires NoTotalLoss(earned)
    ensures var equity := Curve(earned);
            var worst := ReportOf(earned).maxDrawdown;
            Worst([1.0] + equity, |earned| + 1) == worst
            <==> forall j :: 0 <= j < |equity| ==> equity[j] >= 1.0 + worst
  {
    hide Worst, RaiseBy;
    var equity := Curve(earned);
    var all := [1.0] + equity;
    CurveIsPositive(earned);
    EmptyCurve();
    var worst, whole := Worst(equity, |equity|), Worst(all, |all|);
    assert ReportOf(earned).maxDrawdown == worst;
    WorstIsAFraction(equity, |equity|);
    WorstIsAFraction(all, |all|);
    DrawdownIsWorstFall(equity, |equity|, worst);
    DrawdownIsWorstFall(all, |all|, worst);
    DrawdownIsWorstFall(equity, |equity|, whole);
    DrawdownIsWorstFall(all, |all|, whole);
    forall i, j | 0 <= i <= j < |equity|
      ensures RaiseBy(equity[i], whole) <= equity[j]
    {
      assert RaiseBy(all[i + 1], whole) <= all[j + 1];
    }
    RaisedUnit(worst);
    if forall j :: 0 <= j < |equity| ==> equity[j] >= 1.0 + worst {
      forall i, j | 0 <= i <= j < |all|
        ensures RaiseBy(all[i], worst) <= all[j]
      {
        if i > 0 {
          assert RaiseBy(equity[i - 1], worst) <= equity[j - 1];
        }
      }
    } else {
      var j :| 0 <= j < |equity| && equity[j] < 1.0 + worst;
      assert RaiseBy(all[0], worst) > all[j + 1];
    }
  }

  lemma RaisedUnit(fraction: real)
    ensures RaiseBy(1.0, fraction) == 1.0 + fraction
  {
  }

  lemma EmptyCurve()
    ensures Worst([], 0) == 0.0 && Curve([]) == []
  {
  }

  lemma CurveIsPositive(earned: seq<real>)
    requires NoTotalLoss(earned)
    ensures AllPositive(Curve(earned)) && AllPositive([1.0] + Curve(earned))
  {
    forall i | 0 <= i < |earned|
      ensures Curve(earned)[i] > 0.0
    {
      GrowthIsPositive(earned[..i + 1]);
    }
  }

  lemma StaysPositive(a: real, b: real)
    requires a > 0.0 && b > 0.0
    ensures a * b > 0.0
  {
  }

  lemma {:induction false} GrowthIsPositive(earned: seq<real>)
    requires NoTotalLoss(earned)
    ensures Compound(earned) > 0.0
  {
    if earned != [] {
      GrowthIsPositive(earned[..|earned| - 1]);
      StaysPositive(Compound(earned[..|earned| - 1]), 1.0 + earned[|earned| - 1]);
    }
  }

  // ------------------------------------------------------------------ order of returns

  lemma {:induction false} SumOfConcat(f: real -> real, xs: seq<real>, ys: seq<real>)
    ensures SumOf(f, xs + ys) == SumOf(f, xs) + SumOf(f, ys)
  {
    if ys == [] {
      assert xs + ys == xs;
    } else {
      assert (xs + ys)[..|xs + ys| - 1] == xs + ys[..|ys| - 1];
      SumOfConcat(f, xs, ys[..|ys| - 1]);
    }
  }

  lemma {:induction false} SumOfPermutation(f: real -> real, xs: seq<real>, ys: seq<real>)
    requires multiset(xs) == multiset(ys)
    ensures SumOf(f, xs) == SumOf(f, ys)
  {
    if xs == [] {
      assert |multiset(ys)| == 0;
    } else {
      var last := xs[|xs| - 1];
      var before, after := Permutations.SplitLast(xs, ys);
      SumOfPermutation(f, xs[..|xs| - 1], before + after);
      SumOfConcat(f, before + [last], after);
      SumOfConcat(f, before, [last]);
      SumOfConcat(f, before, after);
    }
  }

  function One(p: real -> bool): real -> real { x => if p(x) then 1.0 else 0.0 }

  lemma {:induction false} CountIsSum(p: real -> bool, xs: seq<real>)
    ensures Count(p, xs) as real == SumOf(One(p), xs)
  {
    if xs != [] {
      CountIsSum(p, xs[..|xs| - 1]);
    }
  }

  lemma CountOfPermutation(p: real -> bool, xs: seq<real>, ys: seq<real>)
    requires multiset(xs) == multiset(ys)
    ensures Count(p, xs) == Count(p, ys)
  {
    CountIsSum(p, xs);
    CountIsSum(p, ys);
    SumOfPermutation(One(p), xs, ys);
  }

  lemma {:induction false} SumIsSumOf(xs: seq<real>)
    ensures Sum(xs) == SumOf(x => x, xs)
  {
    if xs != [] {
      SumIsSumOf(xs[..|xs| - 1]);
    }
  }

  lemma LastIsLargest(xs: seq<real>, y: real)
    requires Ascending(xs) && y in multiset(xs)
    ensures y <= xs[|xs| - 1]
  {
  }

  lemma InitAscends(xs: seq<real>)
    requires Ascending(xs) && xs != []
    ensures Ascending(xs[..|xs| - 1])
  {
  }

  lemma SameLength(xs: seq<real>, ys: seq<real>)
    requires multiset(xs) == multiset(ys)
    ensures |xs| == |ys|
  {
    assert |multiset(xs)| == |xs| && |multiset(ys)| == |ys|;
  }

  lemma SameLast(xs: seq<real>, ys: seq<real>)
    requires Ascending(xs) && Ascending(ys) && multiset(xs) == multiset(ys) && |xs| == |ys| > 0
    ensures xs[|xs| - 1] == ys[|ys| - 1]
  {
    var x, y := xs[|xs| - 1], ys[|ys| - 1];
    hide Ascending;
    assert x in multiset(xs) && y in multiset(ys);
    LastIsLargest(xs, y);
    LastIsLargest(ys, x);
  }

  lemma WithoutLast(some: seq<real>, other: seq<real>, x: real)
    requires multiset(some + [x]) == multiset(other + [x])
    ensures multiset(some) == multiset(other)
  {
    assert multiset(some) == multiset(some + [x]) - multiset{x};
    assert multiset(other) == multiset(other + [x]) - multiset{x};
  }

  /** Ascending sequences of the same items are the same. */
  lemma {:induction false} AscendingIsUnique(xs: seq<real>, ys: seq<real>)
    requires Ascending(xs) && Ascending(ys) && multiset(xs) == multiset(ys)
    ensures xs == ys
  {
    if xs == [] {
      assert |multiset(ys)| == 0;
    } else {
      SameLength(xs, ys);
      var x, y := xs[|xs| - 1], ys[|ys| - 1];
      SameLast(xs, ys);
      var some, other := xs[..|xs| - 1], ys[..|ys| - 1];
      assert xs == some + [x] && ys == other + [y];
      WithoutLast(some, other, x);
      InitAscends(xs);
      InitAscends(ys);
      AscendingIsUnique(some, other);
    }
  }

  /** The order of the returns shows in the drawdown only: every other figure is that of any
      permutation of them. */
  lemma OrderShowsInDrawdownOnly(xs: seq<real>, ys: seq<real>)
    requires multiset(xs) == multiset(ys)
    ensures ReportOf(xs) == ReportOf(ys).(maxDrawdown := ReportOf(xs).maxDrawdown)
  {
    hide Worst, Compound, Sort, Ascending;
    assert |xs| == |multiset(xs)| == |multiset(ys)| == |ys|;
    if xs != [] {
      CompoundOfPermutation(xs, ys);
      SumIsSumOf(xs);
      SumIsSumOf(ys);
      SumOfPermutation(x => x, xs, ys);
      SumOfPermutation(SquaredDistance(Mean(xs)), xs, ys);
      SumOfPermutation(Abs, xs, ys);
      CountOfPermutation(Won, xs, ys);
      CountOfPermutation(Moved, xs, ys);
      SortIsSorted(xs);
      SortIsSorted(ys);
      AscendingIsUnique(Sort(xs), Sort(ys));
    }
  }
}
