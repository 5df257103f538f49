/** The allow-list projection of an account view (redact_account_view in redaction.py). */
module Redaction {
  import opened JsonValues
  import opened BookShape

  /** A redacted state: values passed through, dictionaries with the projection's own field names
      in order, lists, tallies of labels, and sorted lists of names (given by their set). */
  datatype Out =
    | Raw(value: Json)
    | Tree(fields: seq<(string, Out)>)
    | Listing(items: seq<Out>)
    | Tally(counts: map<string, nat>)
    | Names(names: set<string>)

  const ACCOUNT_KEYS := [
    "account_status", "uni_mmr", "uni_mmr_is_official", "uni_mmr_pct", "maint_margin_usage_derived_pct",
    "available_balance_ratio_derived", "total_margin_open_loss_ratio_derived", "gross_leverage_derived"]

  const POSITION_KEYS := [
    "symbol", "side", "leverage", "quantity_unit", "position_mode", "adl_quantile", "has_liquidation_price"]

  const PROTECTION_KEYS := ["symbol", "side", "covered", "partial", "coverage_known", "reason"]

  const FIRING_KEYS := ["rule", "level", "status"]

  /** The parts of a view, read with their defaults. */
  datatype Parts = Parts(
    positions: seq<Json>,
    orders: seq<Json>,
    protection: seq<Json>,
    history: seq<Json>,
    balances: seq<Json>,
    firing: seq<Json>,
    failures: seq<Json>,
    essentialFailures: seq<Json>,
    account: Json,
    source: map<string, Json>,
    coverage: map<string, Json>,
    quality: map<string, Json>,
    risk: map<string, Json>,
    ordersMeta: map<string, Json>)

  function ReadParts(view: map<string, Json>): Attempt<Parts> {
    var positions, orders := Rows(Get(view, "positions")), Rows(Get(view, "orders"));
    var protection, history := Rows(Get(view, "protection")), Rows(Get(view, "positions_history"));
    var balances, source := Rows(Get(view, "balances")), Fields(Get(view, "source"));
    var coverage, quality := Fields(Get(view, "coverage")), Fields(Get(view, "quality"));
    var risk, ordersMeta := Fields(Get(view, "risk")), Fields(Get(view, "orders_meta"));
    if positions.Raises? || orders.Raises? || protection.Raises? || history.Raises? || balances.Raises?
       || source.Raises? || coverage.Raises? || quality.Raises? || risk.Raises? || ordersMeta.Raises? then Raises
    else
      var firing := Rows(Get(risk.value, "firing"));
      var failures := Rows(Get(coverage.value, "failures"));
      var essential := Rows(Get(coverage.value, "essential_failures"));
      if firing.Raises? || failures.Raises? || essential.Raises? then Raises
      else Works(Parts(
        positions.value, orders.value, protection.value, history.value, balances.value, firing.value,
        failures.value, essential.value, Get(view, "account"), source.value, coverage.value, quality.value,
        risk.value, ordersMeta.value))
  }

  // ----------------------------------------------------------------------- building blocks

  /** `_pick`. */
  function Pick(source: Json, keys: seq<string>): seq<(string, Out)> {
    if !source.Dict? || keys == [] then []
    else
      var key := keys[|keys| - 1];
      Pick(source, keys[..|keys| - 1]) + if key in source.fields then [(key, Raw(source.fields[key]))] else []
  }

  /** The dictionaries among some rows, each picked. */
  function PickRows(rows: seq<Json>, keys: seq<string>): seq<Out> {
    if rows == [] then []
    else
      var last := rows[|rows| - 1];
      PickRows(rows[..|rows| - 1], keys) + if last.Dict? then [Tree(Pick(last, keys))] else []
  }

  /** The dictionaries among some rows with a truthy field. */
  function CountTruthy(rows: seq<Json>, key: string): nat {
    if rows == [] then 0
    else
      var last := rows[|rows| - 1];
      CountTruthy(rows[..|rows| - 1], key) + if last.Dict? && Truthy(Get(last.fields, key)) then 1 else 0
  }

  predicate HasLabel(row: Json, key: string) {
    row.Dict? && Get(row.fields, key).Text? && Get(row.fields, key).content != []
  }

  function CountOnce(counts: map<string, nat>, word: string): map<string, nat> {
    counts[word := (if word in counts then counts[word] else 0) + 1]
  }

  /** `_tally`. */
  function TallyOf(rows: seq<Json>, key: string): map<string, nat> {
    if rows == [] then map[]
    else
      var counts, last := TallyOf(rows[..|rows| - 1], key), rows[|rows| - 1];
      if HasLabel(last, key) then CountOnce(counts, Get(last.fields, key).content) else counts
  }

  function LabelsOf(rows: seq<Json>, key: string): set<string> {
    set row | row in rows && row.Dict? && Get(row.fields, key).Text? :: Get(row.fields, key).content
  }

  /** `_degraded_parts`. */
  function DegradedParts(coverage: map<string, Json>): set<string> {
    var parts := Get(coverage, "parts");
    if !parts.Dict? then {} else set name | name in parts.fields && parts.fields[name] != Text("ok")
  }

  function Count(n: nat): Out { Raw(Number(n as real)) }

  function Flag(truth: bool): Out { Raw(Bool(truth)) }

  function Optional(figure: Figure): Out { Raw(if figure.Figure? then Number(figure.value) else Null) }

  // ------------------------------------------------------------------------- the sections

  function Freshness(view: map<string, Json>): seq<(string, Out)> {
    [ ("available", Flag(Truthy(Get(view, "available")))),
      ("stale", Flag(Truthy(Get(view, "stale")))),
      ("partial", Flag(Truthy(Get(view, "partial")))),
      ("age_seconds", Raw(Get(view, "age_seconds"))),
      ("stale_after_seconds", Raw(Get(view, "stale_after_seconds"))) ]
  }

  function Source(source: map<string, Json>): seq<(string, Out)> {
    [ ("collector", Raw(Get(source, "collector"))),
      ("read_only", Raw(Get(source, "read_only"))),
      ("venue", Raw(Get(source, "venue"))) ]
  }

  function Book(shape: Shape, balances: seq<Json>): seq<(string, Out)> {
    [ ("position_count", Count(shape.positionCount)),
      ("valued_position_count", Count(shape.valuedCount)),
      ("long_count", Count(shape.longCount)),
      ("short_count", Count(shape.shortCount)),
      ("concentration_hhi", Optional(shape.concentration)),
      ("net_to_gross", Optional(shape.netToGross)),
      ("balance_count", Count(|balances|)),
      ("liability_count", Count(CountTruthy(balances, "is_liability"))) ]
  }

  function Orders(orders: seq<Json>, meta: map<string, Json>): seq<(string, Out)> {
    [ ("count", Count(|orders|)),
      ("live_count", Count(CountTruthy(orders, "is_live"))),
      ("protective_count", Count(CountTruthy(orders, "is_protective"))),
      ("by_status", Tally(TallyOf(orders, "status"))),
      ("by_side", Tally(TallyOf(orders, "side"))),
      ("symbols", Names(LabelsOf(orders, "symbol"))),
      ("fully_covered", Raw(Get(meta, "fully_covered"))),
      ("age_seconds", Raw(Get(meta, "age_seconds"))) ]
  }

  function Risk(risk: map<string, Json>, firing: seq<Json>): seq<(string, Out)> {
    [ ("firing_count", Raw(Get(risk, "firing_count"))),
      ("firing", Listing(PickRows(firing, FIRING_KEYS))) ]
  }

  function Coverage(coverage: map<string, Json>, failures: nat, essentialFailures: nat): seq<(string, Out)> {
    [ ("essential_ok", Raw(Get(coverage, "essential_ok"))),
      ("orders_covered", Raw(Get(coverage, "orders_covered"))),
      ("failure_count", Count(failures)),
      ("essential_failure_count", Count(essentialFailures)),
      ("degraded_parts", Names(DegradedParts(coverage))) ]
  }

  function Quality(quality: map<string, Json>): seq<(string, Out)> {
    [ ("rest_ok", Raw(Get(quality, "rest_ok"))),
      ("ws_connected", Raw(Get(quality, "ws_connected"))),
      ("partial", Raw(Get(quality, "partial"))),
      ("mismatch", Raw(Get(quality, "mismatch"))),
      ("consecutive_failures", Raw(Get(quality, "consecutive_failures"))),
      ("last_error_present", Flag(Truthy(Get(quality, "last_error")))) ]
  }

  /** activity_shape. */
  function Activity(history: seq<Json>): seq<(string, Out)> {
    [ ("event_count", Count(|history|)),
      ("by_kind", Tally(TallyOf(history, "kind"))),
      ("distinct_symbols", Names(LabelsOf(history, "symbol") - {""})) ]
  }

  /** The sections of a state, each under its name. */
  datatype Sections = Sections(
    freshness: Out,
    source: Out,
    margin: Out,
    book: Out,
    positions: Out,
    orders: Out,
    protection: Out,
    risk: Out,
    coverage: Out,
    quality: Out,
    activity: Out)

  /** One field of a dictionary. */
  function Entry(name: string, out: Out): seq<(string, Out)> { [(name, out)] }

  function Assemble(s: Sections, disclaimer: bool): seq<(string, Out)> {
    Entry("schema", Raw(Text("puregamma.pm_judgment_state.v1")))
    + Entry("freshness", s.freshness)
    + Entry("read_only_source", s.source)
    + Entry("margin", s.margin)
    + Entry("book", s.book)
    + Entry("positions", s.positions)
    + Entry("orders", s.orders)
    + Entry("protection", s.protection)
    + Entry("risk", s.risk)
    + Entry("coverage", s.coverage)
    + Entry("quality", s.quality)
    + Entry("activity", s.activity)
    + Entry("disclaimer_present", Flag(disclaimer))
  }

  function SectionsOf(view: map<string, Json>, parts: Parts, parse: Parser): Sections {
    var shape := ShapeOf(|parts.positions|, Notionals(parts.positions, parse));
    Sections(
      Tree(Freshness(view)),
      Tree(Source(parts.source)),
      Tree(Pick(parts.account, ACCOUNT_KEYS)),
      Tree(Book(shape, parts.balances)),
      Listing(PickRows(parts.positions, POSITION_KEYS)),
      Tree(Orders(parts.orders, parts.ordersMeta)),
      Listing(PickRows(parts.protection, PROTECTION_KEYS)),
      Tree(Risk(parts.risk, parts.firing)),
      Tree(Coverage(parts.coverage, |parts.failures|, |parts.essentialFailures|)),
      Tree(Quality(parts.quality)),
      Tree(Activity(parts.history)))
  }

  function Project(view: map<string, Json>, parts: Parts, parse: Parser): Out {
    Tree(Assemble(SectionsOf(view, parts, parse), Truthy(Get(view, "disclaimer"))))
  }

  function ViewFields(view: Json): map<string, Json> { if view.Dict? then view.fields else map[] }

  /** redact_account_view. */
  function Redact(view: Json, parse: Parser): Attempt<Out> {
    var fields := ViewFields(view);
    match ReadParts(fields)
    case Raises => Raises
    case Works(parts) => Works(Project(fields, parts, parse))
  }

  // ------------------------------------------------------------------------------- loops

  /** The loop of `_tally`, and of activity_shape's kinds. */
  method TallyRows(rows: seq<Json>, key: string) returns (counts: map<string, nat>)
    ensures counts == TallyOf(rows, key)
  {
    counts := map[];
    for index := 0 to |rows|
      invariant counts == TallyOf(rows[..index], key)
    {
      assert rows[..index + 1][..index] == rows[..index];
      if rows[index].Dict? {
        var value := Get(rows[index].fields, key);
        if value.Text? && value.content != [] {
          var sofar := if value.content in counts then counts[value.content] else 0;
          counts := counts[value.content := sofar + 1];
        }
      }
    }
    assert rows[..|rows|] == rows;
  }

  /** activity_shape's loop: both collections in one pass. */
  method DescribeActivity(history: seq<Json>) returns (kinds: map<string, nat>, symbols: set<string>)
    ensures kinds == TallyOf(history, "kind")
    ensures symbols == LabelsOf(history, "symbol") - {""}
  {
    kinds, symbols := map[], {};
    for index := 0 to |history|
      invariant kinds == TallyOf(history[..index], "kind")
      invariant symbols == LabelsOf(history[..index], "symbol") - {""}
    {
      assert history[..index + 1][..index] == history[..index];
      LabelsSnoc(history[..index], history[index], "symbol");
      assert history[..index] + [history[index]] == history[..index + 1];
      if history[index].Dict? {
        var kind := Get(history[index].fields, "kind");
        if kind.Text? && kind.content != [] {
          kinds := CountOnce(kinds, kind.content);
        }
        var symbol := Get(history[index].fields, "symbol");
        if symbol.Text? && symbol.content != [] {
          symbols := symbols + {symbol.content};
        }
      }
    }
    assert history[..|history|] == history;
  }

  lemma LabelsSnoc(rows: seq<Json>, row: Json, key: string)
    ensures LabelsOf(rows + [row], key) ==
              LabelsOf(rows, key)
              + if row.Dict? && Get(row.fields, key).Text? then {Get(row.fields, key).content} else {}
  {
  }

  predicate Says(row: Json, key: string, word: string) {
    row.Dict? && Get(row.fields, key) == Text(word)
  }

  /** Where a label occurs. */
  function Occurrences(rows: seq<Json>, key: string, word: string): set<nat> {
    set i: nat | i < |rows| && Says(rows[i], key, word) :: i
  }

  lemma OccurrencesSnoc(rows: seq<Json>, row: Json, key: string, word: string)
    ensures |Occurrences(rows + [row], key, word)| ==
              |Occurrences(rows, key, word)| + if Says(row, key, word) then 1 else 0
  {
    hide Says;
    var all, before := Occurrences(rows + [row], key, word), Occurrences(rows, key, word);
    forall i: nat
      ensures i in all <==> i in before || (i == |rows| && Says(row, key, word))
    {
      if i < |rows| {
        assert (rows + [row])[i] == rows[i];
      } else if i == |rows| {
        assert (rows + [row])[i] == row;
      }
    }
    hide Occurrences;
    assert all == before + if Says(row, key, word) then {|rows|} else {};
  }

  /** A tally counts every label exactly as often as it occurs. */
  lemma {:induction false} TallyCounts(rows: seq<Json>, key: string, word: string)
    requires word != []
    ensures var counts := TallyOf(rows, key);
            (if word in counts then counts[word] else 0) == |Occurrences(rows, key, word)|
  {
    if rows == [] {
      assert Occurrences(rows, key, word) == {};
    } else {
      var init, last := rows[..|rows| - 1], rows[|rows| - 1];
      assert rows == init + [last];
      TallyCounts(init, key, word);
      OccurrencesSnoc(init, last, key, word);
      hide Occurrences;
    }
  }

  /** A pick holds exactly the allow-listed fields that are there, each with its own value. */
  lemma {:induction false} PickIsExact(source: map<string, Json>, keys: seq<string>, entry: (string, Out))
    ensures entry in Pick(Dict(source), keys) <==>
            entry.0 in keys && entry.0 in source && entry.1 == Raw(source[entry.0])
  {
    if keys != [] {
      var init, last := keys[..|keys| - 1], keys[|keys| - 1];
      assert keys == init + [last];
      PickIsExact(source, init, entry);
    }
  }
}
