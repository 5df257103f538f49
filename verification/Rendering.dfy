/** The dictionary a redacted state is: what the projection's output looks like as a value. */
module Rendering {
  import opened JsonValues
  import BookShape
  import opened Redaction
  import opened TextOrder

  function TextList(texts: seq<string>): (items: seq<Json>)
    ensures |items| == |texts| && forall i :: 0 <= i < |texts| ==> items[i] == Text(texts[i])
  {
    seq(|texts|, i requires 0 <= i < |texts| => Text(texts[i]))
  }

  ghost function Render(out: Out): Json
    decreases out, 0
  {
    match out
    case Raw(value) => value
    case Tree(fields) => Dict(RenderFields(out, |fields|))
    case Listing(items) => List(seq(|items|, i requires 0 <= i < |items| => Render(items[i])))
    case Tally(counts) => Dict(map word | word in counts :: Number(counts[word] as real))
    case Names(names) => List(TextList(SortedTexts(names)))
  }

  /** The first fields of a dictionary; a later one replaces an earlier one of its name. */
  ghost function RenderFields(out: Out, n: nat): map<string, Json>
    requires out.Tree? && n <= |out.fields|
    decreases out, 0, n
  {
    if n == 0 then map[]
    else RenderFields(out, n - 1)[out.fields[n - 1].0 := Render(out.fields[n - 1].1)]
  }

  predicate DistinctNames(fields: seq<(string, Out)>) {
    forall i, j :: 0 <= i < j < |fields| ==> fields[i].0 != fields[j].0
  }

  /** Every dictionary in it names each field once. */
  predicate WellNamed(out: Out) {
    match out
    case Tree(fields) => DistinctNames(fields) && forall i :: 0 <= i < |fields| ==> WellNamed(fields[i].1)
    case Listing(items) => forall i :: 0 <= i < |items| ==> WellNamed(items[i])
    case _ => true
  }

  /** Then it holds exactly its fields. */
  lemma {:induction false} FieldsAreExact(out: Out, n: nat)
    requires out.Tree? && n <= |out.fields| && DistinctNames(out.fields)
    ensures forall i :: 0 <= i < n ==>
              && out.fields[i].0 in RenderFields(out, n)
              && RenderFields(out, n)[out.fields[i].0] == Render(out.fields[i].1)
    ensures forall name :: name in RenderFields(out, n) ==> exists i :: 0 <= i < n && out.fields[i].0 == name
  {
    if n > 0 {
      FieldsAreExact(out, n - 1);
    }
  }

  // --------------------------------------------------------------------- the projection

  predicate Distinct(names: seq<string>) {
    forall i, j :: 0 <= i < j < |names| ==> names[i] != names[j]
  }

  lemma {:induction false} PickedNames(source: Json, keys: seq<string>)
    requires Distinct(keys)
    ensures WellNamed(Tree(Pick(source, keys)))
    ensures forall i :: 0 <= i < |Pick(source, keys)| ==> Pick(source, keys)[i].0 in keys
  {
    if source.Dict? && keys != [] {
      var init, last := keys[..|keys| - 1], keys[|keys| - 1];
      assert keys == init + [last];
      PickedNames(source, init);
      forall i | 0 <= i < |init|
        ensures init[i] != last
      {
        assert keys[i] == init[i];
      }
    }
  }

  lemma {:induction false} PickedRowsAreWellNamed(rows: seq<Json>, keys: seq<string>)
    requires Distinct(keys)
    ensures WellNamed(Listing(PickRows(rows, keys)))
  {
    hide Pick;
    if rows != [] {
      PickedRowsAreWellNamed(rows[..|rows| - 1], keys);
      PickedNames(rows[|rows| - 1], keys);
    }
  }

  lemma KeysAreDistinct()
    ensures Distinct(ACCOUNT_KEYS) && Distinct(POSITION_KEYS) && Distinct(PROTECTION_KEYS) && Distinct(FIRING_KEYS)
  {
  }

  lemma FlatSectionsAreWellNamed(view: map<string, Json>, source: map<string, Json>, coverage: map<string, Json>,
      quality: map<string, Json>, failures: nat, essential: nat)
    ensures WellNamed(Tree(Freshness(view))) && WellNamed(Tree(Source(source)))
    ensures WellNamed(Tree(Coverage(coverage, failures, essential)))
    ensures WellNamed(Tree(Quality(quality)))
  {
    hide Get, Truthy, DegradedParts;
  }

  lemma CountedSectionsAreWellNamed(shape: BookShape.Shape, balances: seq<Json>, orders: seq<Json>,
      meta: map<string, Json>, history: seq<Json>)
    ensures WellNamed(Tree(Book(shape, balances)))
    ensures WellNamed(Tree(Orders(orders, meta)))
    ensures WellNamed(Tree(Activity(history)))
  {
    hide Get, CountTruthy, TallyOf, LabelsOf;
  }

  lemma RiskIsWellNamed(risk: map<string, Json>, firing: seq<Json>)
    ensures WellNamed(Tree(Risk(risk, firing)))
  {
    KeysAreDistinct();
    PickedRowsAreWellNamed(firing, FIRING_KEYS);
    hide Get, PickRows;
  }

  /** The names of a state, in order. */
  const STATE_NAMES := [
    "schema", "freshness", "read_only_source", "margin", "book", "positions", "orders", "protection", "risk",
    "coverage", "quality", "activity", "disclaimer_present"]

  lemma StateNamesAreDistinct(s: Sections, disclaimer: bool)
    ensures |Assemble(s, disclaimer)| == |STATE_NAMES| && Distinct(STATE_NAMES)
    ensures forall i :: 0 <= i < |STATE_NAMES| ==> Assemble(s, disclaimer)[i].0 == STATE_NAMES[i]
    ensures DistinctNames(Assemble(s, disclaimer))
  {
  }

  predicate SectionsWellNamed(s: Sections) {
    && WellNamed(s.freshness) && WellNamed(s.source) && WellNamed(s.margin) && WellNamed(s.book)
    && WellNamed(s.positions) && WellNamed(s.orders) && WellNamed(s.protection) && WellNamed(s.risk)
    && WellNamed(s.coverage) && WellNamed(s.quality) && WellNamed(s.activity)
  }

  lemma AssembledIsWellNamed(s: Sections, disclaimer: bool)
    requires SectionsWellNamed(s)
    ensures WellNamed(Tree(Assemble(s, disclaimer)))
  {
    StateNamesAreDistinct(s, disclaimer);
    hide DistinctNames;
  }

  /** The projection names each field of each of its dictionaries once. */
  lemma ProjectIsWellNamed(view: map<string, Json>, parts: Parts, parse: Parser)
    ensures WellNamed(Project(view, parts, parse))
  {
    hide Get, Truthy, Freshness, Source, Book, Orders, Risk, Coverage, Quality, Activity, Pick, PickRows, Assemble;
    hide BookShape.ShapeOf, BookShape.Notionals, WellNamed;
    KeysAreDistinct();
    var shape := BookShape.ShapeOf(|parts.positions|, BookShape.Notionals(parts.positions, parse));
    FlatSectionsAreWellNamed(
      view, parts.source, parts.coverage, parts.quality, |parts.failures|, |parts.essentialFailures|);
    CountedSectionsAreWellNamed(shape, parts.balances, parts.orders, parts.ordersMeta, parts.history);
    RiskIsWellNamed(parts.risk, parts.firing);
    PickedNames(parts.account, ACCOUNT_KEYS);
    PickedRowsAreWellNamed(parts.positions, POSITION_KEYS);
    PickedRowsAreWellNamed(parts.protection, PROTECTION_KEYS);
    AssembledIsWellNamed(SectionsOf(view, parts, parse), Truthy(Get(view, "disclaimer")));
  }
}
