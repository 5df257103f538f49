/** Taking sequences apart along a permutation. */
module Permutations {

  /** The last element of xs sits somewhere in any permutation of xs. */
  lemma SplitLast<T>(xs: seq<T>, ys: seq<T>) returns (before: seq<T>, after: seq<T>)
    requires xs != [] && multiset(xs) == multiset(ys)
    ensures ys == before + [xs[|xs| - 1]] + after
    ensures multiset(xs[..|xs| - 1]) == multiset(before + after)
  {
    var init, last := xs[..|xs| - 1], xs[|xs| - 1];
    assert xs == init + [last];
    assert last in multiset(ys);
    var k :| 0 <= k < |ys| && ys[k] == last;
    before, after := ys[..k], ys[k + 1..];
    assert ys == before + [last] + after;
    assert multiset(ys) - multiset{last} == multiset(before) + multiset(after);
    assert multiset(xs) - multiset{last} == multiset(init);
  }
}
