/** Python's `list.sort` with a time key: ascending, a permutation, and stable. */
module StableSorting {
  import Permutations

  datatype Timed<T> = Timed(ts: int, value: T)

  predicate Sorted<T>(items: seq<Timed<T>>) {
    forall i, j :: 0 <= i < j < |items| ==> items[i].ts <= items[j].ts
  }

  /** The items of one instant, in order. */
  function AtTime<T>(items: seq<Timed<T>>, ts: int): seq<Timed<T>> {
    if items == [] then []
    else
      var last := items[|items| - 1];
      AtTime(items[..|items| - 1], ts) + if last.ts == ts then [last] else []
  }

  /** Inserts after every item that is not later. */
  function Insert<T>(items: seq<Timed<T>>, item: Timed<T>): seq<Timed<T>> {
    if items == [] || items[|items| - 1].ts <= item.ts then items + [item]
    else Insert(items[..|items| - 1], item) + [items[|items| - 1]]
  }

  function SortByTime<T>(items: seq<Timed<T>>): seq<Timed<T>> {
    if items == [] then []
    else Insert(SortByTime(items[..|items| - 1]), items[|items| - 1])
  }

  lemma {:induction false} InsertKeepsItems<T>(items: seq<Timed<T>>, item: Timed<T>)
    ensures multiset(Insert(items, item)) == multiset(items) + multiset{item}
    ensures |Insert(items, item)| == |items| + 1
  {
    if !(items == [] || items[|items| - 1].ts <= item.ts) {
      InsertKeepsItems(items[..|items| - 1], item);
      assert items == items[..|items| - 1] + [items[|items| - 1]];
    }
  }

  lemma {:induction false} InsertSorts<T>(items: seq<Timed<T>>, item: Timed<T>)
    requires Sorted(items)
    ensures Sorted(Insert(items, item))
    ensures var r := Insert(items, item);
            r[|r| - 1].ts == if items != [] && items[|items| - 1].ts > item.ts then items[|items| - 1].ts else item.ts
  {
    if !(items == [] || items[|items| - 1].ts <= item.ts) {
      var init, last := items[..|items| - 1], items[|items| - 1];
      InsertSorts(init, item);
      var r := Insert(init, item);
      assert forall k :: 0 <= k < |r| ==> r[k].ts <= r[|r| - 1].ts <= last.ts;
    }
  }

  lemma AtTimeSnoc<T>(items: seq<Timed<T>>, item: Timed<T>, ts: int)
    ensures AtTime(items + [item], ts) == AtTime(items, ts) + if item.ts == ts then [item] else []
  {
    assert (items + [item])[..|items|] == items;
  }

  lemma {:induction false} InsertIsStable<T>(items: seq<Timed<T>>, item: Timed<T>, ts: int)
    requires Sorted(items)
    ensures AtTime(Insert(items, item), ts) == AtTime(items, ts) + if item.ts == ts then [item] else []
  {
    if items == [] || items[|items| - 1].ts <= item.ts {
      AtTimeSnoc(items, item, ts);
    } else {
      var init, last := items[..|items| - 1], items[|items| - 1];
      InsertIsStable(init, item, ts);
      AtTimeSnoc(Insert(init, item), last, ts);
      assert items == init + [last];
    }
  }

  /** The sort is ascending, keeps every item, and keeps the order of simultaneous items. */
  lemma {:induction false} SortIsStable<T>(items: seq<Timed<T>>, ts: int)
    ensures Sorted(SortByTime(items))
    ensures multiset(SortByTime(items)) == multiset(items)
    ensures AtTime(SortByTime(items), ts) == AtTime(items, ts)
  {
    if items != [] {
      var init, last := items[..|items| - 1], items[|items| - 1];
      assert items == init + [last];
      SortIsStable(init, ts);
      InsertKeepsItems(SortByTime(init), last);
      InsertSorts(SortByTime(init), last);
      InsertIsStable(SortByTime(init), last, ts);
    }
  }

  function Values<T>(items: seq<Timed<T>>): (values: seq<T>)
    ensures |values| == |items|
    ensures forall i :: 0 <= i < |items| ==> values[i] == items[i].value
  {
    seq(|items|, i requires 0 <= i < |items| => items[i].value)
  }

  lemma ValuesConcat<T>(xs: seq<Timed<T>>, ys: seq<Timed<T>>)
    ensures Values(xs + ys) == Values(xs) + Values(ys)
  {
  }

  /** Permuting items permutes their values. */
  lemma {:induction false} ValuesOfPermutation<T>(xs: seq<Timed<T>>, ys: seq<Timed<T>>)
    requires multiset(xs) == multiset(ys)
    ensures multiset(Values(xs)) == multiset(Values(ys))
  {
    if xs == [] {
      assert |multiset(ys)| == 0;
    } else {
      var init, last := xs[..|xs| - 1], xs[|xs| - 1];
      var before, after := Permutations.SplitLast(xs, ys);
      ValuesOfPermutation(init, before + after);
      ValuesConcat(before, after);
      ValuesConcat(before + [last], after);
      ValuesConcat(before, [last]);
      assert xs == init + [last];
      ValuesConcat(init, [last]);
      assert Values([last]) == [last.value];
    }
  }
}
