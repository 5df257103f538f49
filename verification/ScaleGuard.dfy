/** The guard over redacted states (assert_no_absolute_scale in redaction.py), and exactly which
    projected states it lets through. */
module ScaleGuard {
  import opened JsonValues
  import opened Redaction
  import opened RedactionLaws
  import opened FieldNames
  import opened Rendering
  import BookShape

  /** The guard on a value: no number, or text holding one, under a marked name, at any depth. */
  predicate ScaleSafe(v: Json, parse: Parser) {
    match v
    case Dict(fields) =>
      forall name :: name in fields ==>
        !(HasMarker(name) && IsQuantity(fields[name], parse)) && ScaleSafe(fields[name], parse)
    case List(items) => forall i :: 0 <= i < |items| ==> ScaleSafe(items[i], parse)
    case _ => true
  }

  method AssertNoAbsoluteScale(state: Json, parse: Parser) returns (passes: bool)
    ensures passes == ScaleSafe(state, parse)
    decreases state
  {
    hide HasMarker;
    match state {
      case Dict(fields) =>
        var rest := fields.Keys;
        while rest != {}
          invariant rest <= fields.Keys
          invariant forall name :: name in fields && name !in rest ==>
                      !(HasMarker(name) && IsQuantity(fields[name], parse)) && ScaleSafe(fields[name], parse)
          decreases rest
        {
          var name :| name in rest;
          if HasMarker(name) && IsQuantity(fields[name], parse) {
            return false;
          }
          var inner := AssertNoAbsoluteScale(fields[name], parse);
          if !inner {
            return false;
          }
          rest := rest - {name};
        }
        passes := true;
      case List(items) =>
        for index := 0 to |items|
          invariant forall i :: 0 <= i < index ==> ScaleSafe(items[i], parse)
        {
          var inner := AssertNoAbsoluteScale(items[index], parse);
          if !inner {
            return false;
          }
        }
        passes := true;
      case _ =>
        passes := true;
    }
  }

  /** The same condition on the projection's output before it is rendered; a tally's values are
      numbers. */
  predicate Safe(out: Out, parse: Parser) {
    match out
    case Raw(value) => ScaleSafe(value, parse)
    case Tree(fields) =>
      forall i :: 0 <= i < |fields| ==>
        !(HasMarker(fields[i].0) && Numeric(fields[i].1, parse)) && Safe(fields[i].1, parse)
    case Listing(items) => forall i :: 0 <= i < |items| ==> Safe(items[i], parse)
    case Tally(counts) => forall word :: word in counts ==> !HasMarker(word)
    case Names(_) => true
  }

  predicate Numeric(out: Out, parse: Parser) { out.Raw? && IsQuantity(out.value, parse) }

  /** The guard accepts what an output renders to exactly when the output is safe. */
  lemma {:induction false} RenderedIsSafeIff(out: Out, parse: Parser)
    requires WellNamed(out)
    ensures ScaleSafe(Render(out), parse) <==> Safe(out, parse)
  {
    hide HasMarker;
    match out
    case Tree(fields) =>
      FieldsAreExact(out, |fields|);
      forall i | 0 <= i < |fields|
        ensures ScaleSafe(Render(fields[i].1), parse) <==> Safe(fields[i].1, parse)
        ensures IsQuantity(Render(fields[i].1), parse) <==> Numeric(fields[i].1, parse)
      {
        RenderedIsSafeIff(fields[i].1, parse);
        OnlyNumbersAreNumeric(fields[i].1, parse);
      }
      hide Render;
    case Listing(items) =>
      forall i | 0 <= i < |items|
        ensures ScaleSafe(Render(items[i]), parse) <==> Safe(items[i], parse)
      {
        RenderedIsSafeIff(items[i], parse);
      }
      var rendered := Render(out).items;
      assert |rendered| == |items| && forall i :: 0 <= i < |items| ==> rendered[i] == Render(items[i]);
      hide Render;
    case _ =>
  }

  lemma OnlyNumbersAreNumeric(out: Out, parse: Parser)
    ensures IsQuantity(Render(out), parse) <==> Numeric(out, parse)
  {
  }

  // ---------------------------------------------------------------------- what is needed

  /** A value may be published under a name. */
  predicate Publishable(name: string, v: Json, parse: Parser) {
    !(HasMarker(name) && IsQuantity(v, parse)) && ScaleSafe(v, parse)
  }

  predicate PicksPublishable(row: Json, keys: seq<string>, parse: Parser) {
    row.Dict? ==> forall k :: k in keys && k in row.fields ==> Publishable(k, row.fields[k], parse)
  }

  predicate RowsPublishable(rows: seq<Json>, keys: seq<string>, parse: Parser) {
    forall i :: 0 <= i < |rows| ==> PicksPublishable(rows[i], keys, parse)
  }

  predicate FieldsSafe(fields: map<string, Json>, keys: seq<string>, parse: Parser) {
    forall k :: k in keys ==> ScaleSafe(Get(fields, k), parse)
  }

  predicate LabelsUnmarked(rows: seq<Json>, key: string) {
    forall i :: 0 <= i < |rows| && HasLabel(rows[i], key) ==> !HasMarker(Get(rows[i].fields, key).content)
  }

  lemma {:induction false} PickIsSafeIff(row: Json, keys: seq<string>, parse: Parser)
    ensures Safe(Tree(Pick(row, keys)), parse) <==> PicksPublishable(row, keys, parse)
  {
    hide HasMarker, IsQuantity, ScaleSafe;
    if row.Dict? && keys != [] {
      var init, last := keys[..|keys| - 1], keys[|keys| - 1];
      assert keys == init + [last];
      PickIsSafeIff(row, init, parse);
      var all, most := Pick(row, keys), Pick(row, init);
      assert forall i :: 0 <= i < |most| ==> all[i] == most[i];
      if last in row.fields {
        assert all[|most|] == (last, Raw(row.fields[last]));
        SafeAppend(most, all[|most|], parse);
      }
    }
  }

  lemma SafeAppend(fields: seq<(string, Out)>, entry: (string, Out), parse: Parser)
    ensures Safe(Tree(fields + [entry]), parse) <==>
            Safe(Tree(fields), parse) && !(HasMarker(entry.0) && Numeric(entry.1, parse)) && Safe(entry.1, parse)
  {
    hide HasMarker, Numeric;
    var all := fields + [entry];
    assert all[|fields|] == entry && forall i :: 0 <= i < |fields| ==> all[i] == fields[i];
  }

  lemma {:induction false} PickRowsAreSafeIff(rows: seq<Json>, keys: seq<string>, parse: Parser)
    ensures Safe(Listing(PickRows(rows, keys)), parse) <==> RowsPublishable(rows, keys, parse)
  {
    hide HasMarker, PicksPublishable, Pick;
    if rows != [] {
      var init, last := rows[..|rows| - 1], rows[|rows| - 1];
      PickRowsAreSafeIff(init, keys, parse);
      PickIsSafeIff(last, keys, parse);
      var all, most := PickRows(rows, keys), PickRows(init, keys);
      assert forall i :: 0 <= i < |most| ==> all[i] == most[i];
      if last.Dict? {
        assert all[|most|] == Tree(Pick(last, keys));
      } else {
        NoDictIsPublishable(last, keys, parse);
      }
      assert forall i :: 0 <= i < |init| ==> rows[i] == init[i];
    }
  }

  lemma NoDictIsPublishable(row: Json, keys: seq<string>, parse: Parser)
    requires !row.Dict?
    ensures PicksPublishable(row, keys, parse)
  {
  }

  lemma {:induction false} TallyIsSafeIff(rows: seq<Json>, key: string, parse: Parser)
    ensures Safe(Tally(TallyOf(rows, key)), parse) <==> LabelsUnmarked(rows, key)
  {
    hide HasMarker, Get;
    if rows != [] {
      var init, last := rows[..|rows| - 1], rows[|rows| - 1];
      TallyIsSafeIff(init, key, parse);
      assert forall i :: 0 <= i < |init| ==> rows[i] == init[i];
    }
  }

  // ------------------------------------------------------------------------- the sections

  lemma FreshnessIsSafeIff(view: map<string, Json>, parse: Parser)
    ensures Safe(Tree(Freshness(view)), parse) <==> FieldsSafe(view, AGE_FIELDS, parse)
  {
    FreshnessNames();
    FreshnessLimitNames();
    PlainNames();
    hide Plain, HasMarker, Get, Truthy;
    var fields := Freshness(view);
    assert fields[3] == ("age_seconds", Raw(Get(view, "age_seconds")));
    assert fields[4] == ("stale_after_seconds", Raw(Get(view, "stale_after_seconds")));
  }

  lemma SourceIsSafeIff(source: map<string, Json>, parse: Parser)
    ensures Safe(Tree(Source(source)), parse) <==> FieldsSafe(source, SOURCE_FIELDS, parse)
  {
    SourceNames();
    PlainNames();
    hide Plain, HasMarker, Get;
    var fields := Source(source);
    assert fields[0].0 == "collector" && fields[1].0 == "read_only" && fields[2].0 == "venue";
  }

  lemma BookIsSafe(shape: BookShape.Shape, balances: seq<Json>, parse: Parser)
    ensures Safe(Tree(Book(shape, balances)), parse)
  {
    BookCountsNames();
    BookCountsTooNames();
    BookRatiosNames();
    BalanceCountsNames();
    PlainNames();
    hide Plain, HasMarker, CountTruthy;
  }

  lemma OrdersAreSafeIff(orders: seq<Json>, meta: map<string, Json>, parse: Parser)
    ensures Safe(Tree(Orders(orders, meta)), parse) <==>
            FieldsSafe(meta, META_FIELDS, parse) && LabelsUnmarked(orders, "status") && LabelsUnmarked(orders, "side")
  {
    OrderCountsNames();
    OrderMetaNames();
    PlainNames();
    TallyIsSafeIff(orders, "status", parse);
    TallyIsSafeIff(orders, "side", parse);
    hide Plain, HasMarker, CountTruthy, Get, TallyOf, LabelsOf, LabelsUnmarked;
    var fields := Orders(orders, meta);
    assert fields[3] == ("by_status", Tally(TallyOf(orders, "status")));
    assert fields[4] == ("by_side", Tally(TallyOf(orders, "side")));
    assert fields[6] == ("fully_covered", Raw(Get(meta, "fully_covered")));
    assert fields[7] == ("age_seconds", Raw(Get(meta, "age_seconds")));
  }

  lemma RiskIsSafeIff(risk: map<string, Json>, firing: seq<Json>, parse: Parser)
    ensures Safe(Tree(Risk(risk, firing)), parse) <==>
            FieldsSafe(risk, RISK_FIELDS, parse) && RowsPublishable(firing, FIRING_KEYS, parse)
  {
    RiskNames();
    PlainNames();
    PickRowsAreSafeIff(firing, FIRING_KEYS, parse);
    hide Plain, HasMarker, Get, PickRows, RowsPublishable;
    var fields := Risk(risk, firing);
    assert fields[0] == ("firing_count", Raw(Get(risk, "firing_count")));
    assert fields[1] == ("firing", Listing(PickRows(firing, FIRING_KEYS)));
  }

  lemma CoverageIsSafeIff(coverage: map<string, Json>, failures: nat, essential: nat, parse: Parser)
    ensures Safe(Tree(Coverage(coverage, failures, essential)), parse) <==> FieldsSafe(coverage, COVERAGE_FIELDS, parse)
  {
    CoverageFlagsNames();
    CoverageCountsNames();
    PlainNames();
    hide Plain, HasMarker, Get, DegradedParts;
    var fields := Coverage(coverage, failures, essential);
    assert fields[0] == ("essential_ok", Raw(Get(coverage, "essential_ok")));
    assert fields[1] == ("orders_covered", Raw(Get(coverage, "orders_covered")));
  }

  lemma QualityIsSafeIff(quality: map<string, Json>, parse: Parser)
    ensures Safe(Tree(Quality(quality)), parse) <==> FieldsSafe(quality, QUALITY_FIELDS, parse)
  {
    ConnectionNames();
    FailuresNames();
    PlainNames();
    hide Plain, HasMarker, Get, Truthy;
    var fields := Quality(quality);
    assert fields[0].0 == "rest_ok" && fields[1].0 == "ws_connected" && fields[2].0 == "partial";
    assert fields[3].0 == "mismatch" && fields[4].0 == "consecutive_failures";
  }

  lemma ActivityIsSafeIff(history: seq<Json>, parse: Parser)
    ensures Safe(Tree(Activity(history)), parse) <==> LabelsUnmarked(history, "kind")
  {
    FailuresNames();
    PlainNames();
    TallyIsSafeIff(history, "kind", parse);
    hide Plain, HasMarker, TallyOf, LabelsOf, LabelsUnmarked;
    assert Activity(history)[1] == ("by_kind", Tally(TallyOf(history, "kind")));
  }

  /** What a view must meet for its redacted state to pass the guard. */
  predicate Passes(view: map<string, Json>, p: Parts, parse: Parser) {
    && FieldsSafe(view, AGE_FIELDS, parse)
    && FieldsSafe(p.source, SOURCE_FIELDS, parse)
    && FieldsSafe(p.ordersMeta, META_FIELDS, parse)
    && FieldsSafe(p.risk, RISK_FIELDS, parse)
    && FieldsSafe(p.coverage, COVERAGE_FIELDS, parse)
    && FieldsSafe(p.quality, QUALITY_FIELDS, parse)
    && PicksPublishable(p.account, ACCOUNT_KEYS, parse)
    && RowsPublishable(p.positions, POSITION_KEYS, parse)
    && RowsPublishable(p.protection, PROTECTION_KEYS, parse)
    && RowsPublishable(p.firing, FIRING_KEYS, parse)
    && LabelsUnmarked(p.orders, "status") && LabelsUnmarked(p.orders, "side") && LabelsUnmarked(p.history, "kind")
  }

  /** A state is safe when its sections, none of which is a number, are. */
  lemma StateIsSafeIff(s: Sections, disclaimer: bool, parse: Parser)
    requires !s.freshness.Raw? && !s.source.Raw? && !s.margin.Raw? && !s.book.Raw? && !s.positions.Raw?
    requires !s.orders.Raw? && !s.protection.Raw? && !s.risk.Raw? && !s.coverage.Raw? && !s.quality.Raw?
    requires !s.activity.Raw?
    ensures Safe(Tree(Assemble(s, disclaimer)), parse) <==>
            && Safe(s.freshness, parse) && Safe(s.source, parse) && Safe(s.margin, parse) && Safe(s.book, parse)
            && Safe(s.positions, parse) && Safe(s.orders, parse) && Safe(s.protection, parse) && Safe(s.risk, parse)
            && Safe(s.coverage, parse) && Safe(s.quality, parse) && Safe(s.activity, parse)
  {
    var schema := Raw(Text("puregamma.pm_judgment_state.v1"));
    SchemaIsSafe(schema.value, parse);
    hide Safe, Entry;
    var f0 := Entry("schema", schema);
    var f1 := Grown(f0, "freshness", s.freshness, parse);
    var f2 := Grown(f1, "read_only_source", s.source, parse);
    var f3 := Grown(f2, "margin", s.margin, parse);
    var f4 := Grown(f3, "book", s.book, parse);
    var f5 := Grown(f4, "positions", s.positions, parse);
    var f6 := Grown(f5, "orders", s.orders, parse);
    var f7 := Grown(f6, "protection", s.protection, parse);
    var f8 := Grown(f7, "risk", s.risk, parse);
    var f9 := Grown(f8, "coverage", s.coverage, parse);
    var f10 := Grown(f9, "quality", s.quality, parse);
    var f11 := Grown(f10, "activity", s.activity, parse);
    FlagIsSafe(disclaimer, parse);
    var f12 := Grown(f11, "disclaimer_present", Flag(disclaimer), parse);
  }

  /** Adding a field that is no number. */
  lemma Grown(fields: seq<(string, Out)>, name: string, out: Out, parse: Parser) returns (all: seq<(string, Out)>)
    requires !Numeric(out, parse)
    ensures all == fields + Entry(name, out)
    ensures Safe(Tree(all), parse) <==> Safe(Tree(fields), parse) && Safe(out, parse)
  {
    SafeAppend(fields, (name, out), parse);
    all := fields + Entry(name, out);
  }

  lemma SchemaIsSafe(schema: Json, parse: Parser)
    requires schema.Text?
    ensures Safe(Tree(Entry("schema", Raw(schema))), parse)
  {
    FreshnessLimitNames();
    PlainNames();
    hide Plain, HasMarker;
  }

  lemma FlagIsSafe(truth: bool, parse: Parser)
    ensures Safe(Flag(truth), parse) && !Numeric(Flag(truth), parse)
  {
  }

  lemma ProjectionIsSafeIff(view: Json, parse: Parser)
    requires ReadParts(ViewFields(view)).Works?
    ensures Redact(view, parse).Works?
    ensures Safe(Redact(view, parse).value, parse) <==>
            Passes(ViewFields(view), ReadParts(ViewFields(view)).value, parse)
  {
    hide Safe, FieldsSafe, RowsPublishable, PicksPublishable, LabelsUnmarked, ReadParts, ViewFields, Get, Truthy;
    hide Freshness, Source, Book, Orders, Risk, Coverage, Quality, Activity, Pick, PickRows, Assemble;
    hide BookShape.ShapeOf, BookShape.Notionals;
    var fields := ViewFields(view);
    var p := ReadParts(fields).value;
    var shape := BookShape.ShapeOf(|p.positions|, BookShape.Notionals(p.positions, parse));
    FreshnessIsSafeIff(fields, parse);
    SourceIsSafeIff(p.source, parse);
    PickIsSafeIff(p.account, ACCOUNT_KEYS, parse);
    BookIsSafe(shape, p.balances, parse);
    PickRowsAreSafeIff(p.positions, POSITION_KEYS, parse);
    OrdersAreSafeIff(p.orders, p.ordersMeta, parse);
    PickRowsAreSafeIff(p.protection, PROTECTION_KEYS, parse);
    RiskIsSafeIff(p.risk, p.firing, parse);
    CoverageIsSafeIff(p.coverage, |p.failures|, |p.essentialFailures|, parse);
    QualityIsSafeIff(p.quality, parse);
    ActivityIsSafeIff(p.history, parse);
    StateIsSafeIff(SectionsOf(fields, p, parse), Truthy(Get(fields, "disclaimer")), parse);
  }

  /** The redacted state as the dictionary that leaves the process. */
  ghost function RedactedState(view: Json, parse: Parser): Attempt<Json> {
    match Redact(view, parse)
    case Raises => Raises
    case Works(out) => Works(Render(out))
  }

  lemma ProjectedIsWellNamed(view: Json, parse: Parser)
    requires ReadParts(ViewFields(view)).Works?
    ensures Redact(view, parse).Works? && WellNamed(Redact(view, parse).value)
  {
    hide ReadParts, ViewFields, Project, WellNamed;
    ProjectIsWellNamed(ViewFields(view), ReadParts(ViewFields(view)).value, parse);
  }

  /** A redacted state passes the guard exactly when every value it passes through may be published
      under its name and no tallied label looks like an absolute quantity. */
  lemma GuardPassesIff(view: Json, parse: Parser)
    requires ReadParts(ViewFields(view)).Works?
    ensures RedactedState(view, parse).Works?
    ensures ScaleSafe(RedactedState(view, parse).value, parse) <==>
            Passes(ViewFields(view), ReadParts(ViewFields(view)).value, parse)
  {
    hide ReadParts, ViewFields, Redact, Passes, Safe, ScaleSafe, Render, WellNamed;
    ProjectedIsWellNamed(view, parse);
    ProjectionIsSafeIff(view, parse);
    RenderedIsSafeIff(Redact(view, parse).value, parse);
  }

  // ---------------------------------------------------------------- ordinary views pass

  predicate Scalar(v: Json) { !v.Dict? && !v.List? }

  predicate ScalarPicks(row: Json, keys: seq<string>) {
    row.Dict? ==> forall k :: k in keys && k in row.fields ==> Scalar(row.fields[k])
  }

  predicate ScalarFields(fields: map<string, Json>, keys: seq<string>) {
    forall k :: k in keys ==> Scalar(Get(fields, k))
  }

  predicate ScalarRows(rows: seq<Json>, keys: seq<string>) {
    forall i :: 0 <= i < |rows| ==> ScalarPicks(rows[i], keys)
  }

  lemma ScalarFieldsAreSafe(fields: map<string, Json>, keys: seq<string>, parse: Parser)
    requires ScalarFields(fields, keys)
    ensures FieldsSafe(fields, keys, parse)
  {
    hide HasMarker;
  }

  /** Only the two marked names restrict a scalar. */
  lemma ScalarPicksArePublishable(row: Json, keys: seq<string>, parse: Parser)
    requires ScalarPicks(row, keys)
    requires forall k :: k in keys ==> !HasMarker(k) || k == "quantity_unit" || k == "has_liquidation_price"
    requires row.Dict? ==>
               && !IsQuantity(Get(row.fields, "quantity_unit"), parse)
               && !IsQuantity(Get(row.fields, "has_liquidation_price"), parse)
    ensures PicksPublishable(row, keys, parse)
  {
    hide HasMarker, IsQuantity;
  }

  lemma AccountNames()
    ensures forall k :: k in ACCOUNT_KEYS ==> !HasMarker(k)
  {
    MarginNames();
    MarginUsageNames();
    AvailableRatioNames();
    LossRatioNames();
    LeverageNames();
    OfficialIsUnmarked();
    PlainNames();
    hide Plain, HasMarker;
  }

  lemma RowNames()
    ensures forall k :: k in POSITION_KEYS ==> !HasMarker(k) || k == "quantity_unit" || k == "has_liquidation_price"
    ensures forall k :: k in PROTECTION_KEYS ==> !HasMarker(k)
    ensures forall k :: k in FIRING_KEYS ==> !HasMarker(k)
  {
    PositionNames();
    QuantileIsUnmarked();
    ProtectionNames();
    ProtectionReasonNames();
    RiskNames();
    PlainNames();
    hide Plain, HasMarker;
  }

  lemma {:induction false} UnmarkedPicks(row: Json, keys: seq<string>, parse: Parser)
    requires ScalarPicks(row, keys) && forall k :: k in keys ==> !HasMarker(k)
    ensures PicksPublishable(row, keys, parse)
  {
    hide HasMarker, IsQuantity;
  }

  /** Ordinary views pass: if everything passed through is a scalar, the unit is not a number,
      has_liquidation_price is a boolean, and no status, side or kind looks absolute. */
  lemma OrdinaryViewsPass(view: Json, parse: Parser)
    requires ReadParts(ViewFields(view)).Works?
    requires var p := ReadParts(ViewFields(view)).value;
             && ScalarFields(ViewFields(view), AGE_FIELDS) && ScalarFields(p.source, SOURCE_FIELDS)
             && ScalarFields(p.ordersMeta, META_FIELDS) && ScalarFields(p.risk, RISK_FIELDS)
             && ScalarFields(p.coverage, COVERAGE_FIELDS) && ScalarFields(p.quality, QUALITY_FIELDS)
             && ScalarPicks(p.account, ACCOUNT_KEYS) && ScalarRows(p.positions, POSITION_KEYS)
             && ScalarRows(p.protection, PROTECTION_KEYS) && ScalarRows(p.firing, FIRING_KEYS)
             && (forall i :: 0 <= i < |p.positions| && p.positions[i].Dict? ==>
                   && !IsQuantity(Get(p.positions[i].fields, "quantity_unit"), parse)
                   && (Get(p.positions[i].fields, "has_liquidation_price").Bool?
                       || Get(p.positions[i].fields, "has_liquidation_price").Null?))
             && LabelsUnmarked(p.orders, "status") && LabelsUnmarked(p.orders, "side")
             && LabelsUnmarked(p.history, "kind")
    ensures RedactedState(view, parse).Works? && ScaleSafe(RedactedState(view, parse).value, parse)
  {
    hide ReadParts, ViewFields, HasMarker, ScaleSafe, LabelsUnmarked;
    hide RedactedState, FieldsSafe, PicksPublishable, Get, ScalarPicks, ScalarFields;
    var fields := ViewFields(view);
    var p := ReadParts(fields).value;
    AccountNames();
    RowNames();
    ScalarFieldsAreSafe(fields, AGE_FIELDS, parse);
    ScalarFieldsAreSafe(p.source, SOURCE_FIELDS, parse);
    ScalarFieldsAreSafe(p.ordersMeta, META_FIELDS, parse);
    ScalarFieldsAreSafe(p.risk, RISK_FIELDS, parse);
    ScalarFieldsAreSafe(p.coverage, COVERAGE_FIELDS, parse);
    ScalarFieldsAreSafe(p.quality, QUALITY_FIELDS, parse);
    UnmarkedPicks(p.account, ACCOUNT_KEYS, parse);
    forall i | 0 <= i < |p.positions|
      ensures PicksPublishable(p.positions[i], POSITION_KEYS, parse)
    {
      ScalarPicksArePublishable(p.positions[i], POSITION_KEYS, parse);
    }
    forall i | 0 <= i < |p.protection|
      ensures PicksPublishable(p.protection[i], PROTECTION_KEYS, parse)
    {
      UnmarkedPicks(p.protection[i], PROTECTION_KEYS, parse);
    }
    forall i | 0 <= i < |p.firing|
      ensures PicksPublishable(p.firing[i], FIRING_KEYS, parse)
    {
      UnmarkedPicks(p.firing[i], FIRING_KEYS, parse);
    }
    GuardPassesIff(view, parse);
  }
}
