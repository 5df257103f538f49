/** Real arithmetic shared by the engines: sums, compounded factors and extrema of
    sequences.  Every sequence recursion peels the last element, the order in which the
    engines' loops append. */
module RealMath {
  import Permutations

  function Abs(x: real): real { if x < 0.0 then -x else x }

  function Max(x: real, y: real): real { if y > x then y else x }

  function Min(x: real, y: real): real { if y < x then y else x }

  /** x moved up, or down, by a fraction of itself. */
  function RaiseBy(x: real, fraction: real): real { x * (1.0 + fraction) }

  function LowerBy(x: real, fraction: real): real { x * (1.0 - fraction) }

  lemma RaiseLower(x: real, fraction: real)
    requires x > 0.0 && fraction > 0.0
    ensures LowerBy(x, fraction) < x < RaiseBy(x, fraction)
  {
    assert x * fraction > 0.0;
  }

  lemma RaiseByZero(x: real)
    ensures RaiseBy(x, 0.0) == x == LowerBy(x, 0.0)
  {
  }

  function Scale(k: real, x: real): real { k * x }

  function Sum(xs: seq<real>): real {
    if xs == [] then 0.0 else Sum(xs[..|xs| - 1]) + xs[|xs| - 1]
  }

  /** The factor by which one unit grows when it earns each return in turn. */
  function Compound(earned: seq<real>): real {
    if earned == [] then 1.0
    else Compound(earned[..|earned| - 1]) * (1.0 + earned[|earned| - 1])
  }

  function MaxOf(xs: seq<real>): (m: real)
    requires xs != []
    ensures m in xs
    ensures forall x :: x in xs ==> x <= m
  {
    var last := xs[|xs| - 1];
    if |xs| == 1 then last
    else
      assert xs == xs[..|xs| - 1] + [last];
      Max(MaxOf(xs[..|xs| - 1]), last)
  }

  function MinOf(xs: seq<real>): (m: real)
    requires xs != []
    ensures m in xs
    ensures forall x :: x in xs ==> m <= x
  {
    var last := xs[|xs| - 1];
    if |xs| == 1 then last
    else
      assert xs == xs[..|xs| - 1] + [last];
      Min(MinOf(xs[..|xs| - 1]), last)
  }

  lemma SumSnoc(xs: seq<real>, x: real)
    ensures Sum(xs + [x]) == Sum(xs) + x
  {
    assert (xs + [x])[..|xs|] == xs;
  }

  lemma CompoundEmpty()
    ensures Compound([]) == 1.0
  {
  }

  lemma CompoundSnoc(xs: seq<real>, x: real)
    ensures Compound(xs + [x]) == Compound(xs) * (1.0 + x)
  {
    assert (xs + [x])[..|xs|] == xs;
  }

  lemma {:induction false} SumConcat(xs: seq<real>, ys: seq<real>)
    ensures Sum(xs + ys) == Sum(xs) + Sum(ys)
  {
    if ys == [] {
      assert xs + ys == xs;
    } else {
      var init, last := ys[..|ys| - 1], ys[|ys| - 1];
      assert xs + ys == (xs + init) + [last];
      SumConcat(xs, init);
      SumSnoc(xs + init, last);
    }
  }

  lemma {:induction false} CompoundConcat(xs: seq<real>, ys: seq<real>)
    ensures Compound(xs + ys) == Compound(xs) * Compound(ys)
  {
    if ys == [] {
      assert xs + ys == xs;
    } else {
      var init, last := ys[..|ys| - 1], ys[|ys| - 1];
      assert xs + ys == (xs + init) + [last];
      CompoundConcat(xs, init);
      CompoundSnoc(xs + init, last);
    }
  }

  /** Compounding does not care in which order the returns are earned. */
  lemma {:induction false} CompoundOfPermutation(xs: seq<real>, ys: seq<real>)
    requires multiset(xs) == multiset(ys)
    ensures Compound(xs) == Compound(ys)
  {
    if xs == [] {
      assert |multiset(ys)| == 0;
    } else {
      var last := xs[|xs| - 1];
      var before, after := Permutations.SplitLast(xs, ys);
      CompoundOfPermutation(xs[..|xs| - 1], before + after);
      CompoundMoveLast(before, last, after);
    }
  }

  lemma CompoundMoveLast(before: seq<real>, x: real, after: seq<real>)
    ensures Compound(before + [x] + after) == Compound(before + after) * (1.0 + x)
  {
    hide Compound;
    CompoundConcat(before + [x], after);
    CompoundSnoc(before, x);
    CompoundConcat(before, after);
    SwapFactors(Compound(before), 1.0 + x, Compound(after));
  }

  lemma SwapFactors(a: real, b: real, c: real)
    ensures a * b * c == a * c * b
  {
  }

  lemma {:induction false} SumScale(xs: seq<real>, ys: seq<real>, k: real)
    requires |xs| == |ys|
    requires forall i :: 0 <= i < |xs| ==> ys[i] == k * xs[i]
    ensures Sum(ys) == k * Sum(xs)
  {
    if xs != [] {
      SumScale(xs[..|xs| - 1], ys[..|ys| - 1], k);
    }
  }

  lemma {:induction false} SumPositive(xs: seq<real>)
    requires xs != []
    requires forall i :: 0 <= i < |xs| ==> xs[i] > 0.0
    ensures Sum(xs) > 0.0
  {
    if |xs| > 1 {
      SumPositive(xs[..|xs| - 1]);
    }
  }
}
