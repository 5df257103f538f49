/** The order in which `sorted` puts texts. */
module TextOrder {

  predicate Before(a: string, b: string) {
    if a == [] then b != []
    else b != [] && (a[0] < b[0] || (a[0] == b[0] && Before(a[1..], b[1..])))
  }

  lemma {:induction false} BeforeIsTotal(a: string, b: string)
    requires a != b
    ensures Before(a, b) || Before(b, a)
  {
    if a != [] && b != [] && a[0] == b[0] {
      assert a == [a[0]] + a[1..] && b == [b[0]] + b[1..];
      BeforeIsTotal(a[1..], b[1..]);
    }
  }

  lemma {:induction false} BeforeIsTransitive(a: string, b: string, c: string)
    requires Before(a, b) && Before(b, c)
    ensures Before(a, c)
  {
    if a != [] && a[0] == b[0] == c[0] {
      BeforeIsTransitive(a[1..], b[1..], c[1..]);
    }
  }

  /** The first of a set of texts. */
  ghost predicate IsLeast(texts: set<string>, least: string) {
    least in texts && forall t :: t in texts && t != least ==> Before(least, t)
  }

  lemma {:induction false} LeastExists(texts: set<string>)
    requires texts != {}
    ensures exists t :: IsLeast(texts, t)
    decreases |texts|
  {
    var some :| some in texts;
    if texts == {some} {
      assert IsLeast(texts, some);
    } else {
      LeastExists(texts - {some});
      var t :| IsLeast(texts - {some}, t);
      BeforeIsTotal(some, t);
      if Before(some, t) {
        forall x | x in texts && x != some
          ensures Before(some, x)
        {
          if x != t {
            BeforeIsTransitive(some, t, x);
          }
        }
        assert IsLeast(texts, some);
      } else {
        assert IsLeast(texts, t);
      }
    }
  }

  /** `sorted` of a set. */
  ghost function SortedTexts(texts: set<string>): seq<string>
    decreases |texts|
  {
    if texts == {} then []
    else
      LeastExists(texts);
      var least :| IsLeast(texts, least);
      [least] + SortedTexts(texts - {least})
  }

  /** It lists exactly the texts of the set, in strictly ascending order. */
  lemma {:induction false} SortedTextsAreExact(texts: set<string>)
    ensures forall t :: t in SortedTexts(texts) <==> t in texts
    ensures forall i, j :: 0 <= i < j < |SortedTexts(texts)| ==> Before(SortedTexts(texts)[i], SortedTexts(texts)[j])
    decreases |texts|
  {
    hide Before;
    if texts != {} {
      LeastExists(texts);
      var least :| IsLeast(texts, least) && SortedTexts(texts) == [least] + SortedTexts(texts - {least});
      SortedTextsAreExact(texts - {least});
    }
  }
}
