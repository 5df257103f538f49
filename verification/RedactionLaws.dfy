/** What a redacted state does not depend on: anything off the allow-list, and the scale. */
module RedactionLaws {
  import opened RealMath
  import opened JsonValues
  import opened BookShape
  import opened Redaction

  /** Two values that a projection onto some keys cannot tell apart; every other field is free. */
  predicate AlikeOn(a: Json, b: Json, keys: seq<string>) {
    && (a.Dict? <==> b.Dict?)
    && (a.Dict? ==> forall k :: k in keys ==>
          && (k in a.fields <==> k in b.fields)
          && (k in a.fields ==> a.fields[k] == b.fields[k]))
  }

  predicate AlikeRows(xs: seq<Json>, ys: seq<Json>, keys: seq<string>) {
    |xs| == |ys| && forall i :: 0 <= i < |xs| ==> AlikeOn(xs[i], ys[i], keys)
  }

  /** The same notionals up to a factor, position by position. */
  predicate SameBook(k: real, xs: seq<Json>, ys: seq<Json>, parse: Parser) {
    |xs| == |ys| && forall i :: 0 <= i < |xs| ==>
      && (Notional(xs[i], parse).Figure? <==> Notional(ys[i], parse).Figure?)
      && (Notional(xs[i], parse).Figure? ==>
            Notional(ys[i], parse).value == Scale(k, Notional(xs[i], parse).value))
  }

  predicate SameFields(a: map<string, Json>, b: map<string, Json>, keys: seq<string>) {
    forall k :: k in keys ==> Get(a, k) == Get(b, k)
  }

  /** The fields of orders, balances and events that are read at all. */
  const ORDER_FIELDS := ["status", "side", "symbol", "is_live", "is_protective"]
  const BALANCE_FIELDS := ["is_liability"]
  const EVENT_FIELDS := ["kind", "symbol"]
  const SOURCE_FIELDS := ["collector", "read_only", "venue"]
  const META_FIELDS := ["fully_covered", "age_seconds"]
  const RISK_FIELDS := ["firing_count"]
  const COVERAGE_FIELDS := ["essential_ok", "orders_covered"]
  const QUALITY_FIELDS := ["rest_ok", "ws_connected", "partial", "mismatch", "consecutive_failures"]
  const AGE_FIELDS := ["age_seconds", "stale_after_seconds"]
  const FLAG_FIELDS := ["available", "stale", "partial", "disclaimer"]

  predicate SameFlags(a: map<string, Json>, b: map<string, Json>, keys: seq<string>) {
    forall k :: k in keys ==> (Truthy(Get(a, k)) <==> Truthy(Get(b, k)))
  }

  /** Parts that agree on the allow-list and on counts, with notionals equal up to a factor. */
  predicate AlikeParts(k: real, p: Parts, q: Parts, parse: Parser) {
    && AlikeRows(p.positions, q.positions, POSITION_KEYS) && SameBook(k, p.positions, q.positions, parse)
    && AlikeRows(p.orders, q.orders, ORDER_FIELDS)
    && AlikeRows(p.protection, q.protection, PROTECTION_KEYS)
    && AlikeRows(p.history, q.history, EVENT_FIELDS)
    && AlikeRows(p.balances, q.balances, BALANCE_FIELDS)
    && AlikeRows(p.firing, q.firing, FIRING_KEYS)
    && |p.failures| == |q.failures| && |p.essentialFailures| == |q.essentialFailures|
    && AlikeOn(p.account, q.account, ACCOUNT_KEYS)
    && SameFields(p.source, q.source, SOURCE_FIELDS)
    && SameFields(p.coverage, q.coverage, COVERAGE_FIELDS)
    && DegradedParts(p.coverage) == DegradedParts(q.coverage)
    && SameFields(p.quality, q.quality, QUALITY_FIELDS)
    && SameFlags(p.quality, q.quality, ["last_error"])
    && SameFields(p.risk, q.risk, RISK_FIELDS)
    && SameFields(p.ordersMeta, q.ordersMeta, META_FIELDS)
  }

  predicate AlikeViews(k: real, u: Json, v: Json, parse: Parser) {
    var a, b := ViewFields(u), ViewFields(v);
    && SameFields(a, b, AGE_FIELDS) && SameFlags(a, b, FLAG_FIELDS)
    && (ReadParts(a).Works? <==> ReadParts(b).Works?)
    && (ReadParts(a).Works? ==> AlikeParts(k, ReadParts(a).value, ReadParts(b).value, parse))
  }

  // ---------------------------------------------------------------------- building blocks

  lemma {:induction false} PickAlike(a: Json, b: Json, keys: seq<string>, n: nat)
    requires AlikeOn(a, b, keys) && n <= |keys|
    ensures Pick(a, keys[..n]) == Pick(b, keys[..n])
  {
    if n > 0 {
      assert keys[..n][..n - 1] == keys[..n - 1] && keys[n - 1] in keys;
      PickAlike(a, b, keys, n - 1);
    }
  }

  lemma PickWhole(a: Json, b: Json, keys: seq<string>)
    requires AlikeOn(a, b, keys)
    ensures Pick(a, keys) == Pick(b, keys)
  {
    hide Pick;
    PickAlike(a, b, keys, |keys|);
    assert keys[..|keys|] == keys;
  }

  lemma {:induction false} PickRowsAlike(xs: seq<Json>, ys: seq<Json>, keys: seq<string>)
    requires AlikeRows(xs, ys, keys)
    ensures PickRows(xs, keys) == PickRows(ys, keys)
  {
    hide Pick;
    if xs != [] {
      PickRowsAlike(xs[..|xs| - 1], ys[..|ys| - 1], keys);
      PickWhole(xs[|xs| - 1], ys[|ys| - 1], keys);
    }
  }

  lemma GetAlike(a: Json, b: Json, keys: seq<string>, key: string)
    requires AlikeOn(a, b, keys) && key in keys && a.Dict?
    ensures Get(a.fields, key) == Get(b.fields, key)
  {
  }

  lemma {:induction false} CountAlike(xs: seq<Json>, ys: seq<Json>, keys: seq<string>, key: string)
    requires AlikeRows(xs, ys, keys) && key in keys
    ensures CountTruthy(xs, key) == CountTruthy(ys, key)
  {
    hide Get, Truthy;
    if xs != [] {
      CountAlike(xs[..|xs| - 1], ys[..|ys| - 1], keys, key);
      if xs[|xs| - 1].Dict? {
        GetAlike(xs[|xs| - 1], ys[|ys| - 1], keys, key);
      }
    }
  }

  lemma {:induction false} TallyAlike(xs: seq<Json>, ys: seq<Json>, keys: seq<string>, key: string)
    requires AlikeRows(xs, ys, keys) && key in keys
    ensures TallyOf(xs, key) == TallyOf(ys, key)
  {
    hide Get, CountOnce;
    if xs != [] {
      TallyAlike(xs[..|xs| - 1], ys[..|ys| - 1], keys, key);
      if xs[|xs| - 1].Dict? {
        GetAlike(xs[|xs| - 1], ys[|ys| - 1], keys, key);
      }
    }
  }

  lemma {:induction false} LabelsAlike(xs: seq<Json>, ys: seq<Json>, keys: seq<string>, key: string)
    requires AlikeRows(xs, ys, keys) && key in keys
    ensures LabelsOf(xs, key) == LabelsOf(ys, key)
  {
    hide Get;
    if xs != [] {
      var n := |xs| - 1;
      assert xs == xs[..n] + [xs[n]] && ys == ys[..n] + [ys[n]];
      LabelsAlike(xs[..n], ys[..n], keys, key);
      LabelsSnoc(xs[..n], xs[n], key);
      LabelsSnoc(ys[..n], ys[n], key);
      if xs[n].Dict? {
        GetAlike(xs[n], ys[n], keys, key);
      }
      hide LabelsOf;
    }
  }

  lemma {:induction false} NotionalsScale(k: real, xs: seq<Json>, ys: seq<Json>, parse: Parser)
    requires SameBook(k, xs, ys, parse)
    ensures Notionals(ys, parse) == Scaled(k, Notionals(xs, parse))
  {
    hide Notional, Scale;
    if xs != [] {
      NotionalsScale(k, xs[..|xs| - 1], ys[..|ys| - 1], parse);
    }
  }

  lemma SameField(a: map<string, Json>, b: map<string, Json>, keys: seq<string>, key: string)
    requires SameFields(a, b, keys) && key in keys
    ensures Get(a, key) == Get(b, key)
  {
  }

  // --------------------------------------------------------------------- non-interference

  /** The book's part of the state is the same for both scales. */
  lemma BookAlike(k: real, p: Parts, q: Parts, parse: Parser)
    requires k > 0.0 && AlikeParts(k, p, q, parse)
    ensures Book(ShapeOf(|p.positions|, Notionals(p.positions, parse)), p.balances)
         == Book(ShapeOf(|q.positions|, Notionals(q.positions, parse)), q.balances)
  {
    hide ShapeOf, Notionals, Scaled, CountTruthy;
    NotionalsScale(k, p.positions, q.positions, parse);
    ShapeIsScaleFree(k, |p.positions|, Notionals(p.positions, parse));
    CountAlike(p.balances, q.balances, BALANCE_FIELDS, "is_liability");
  }

  lemma OrdersAlike(p: seq<Json>, q: seq<Json>, a: map<string, Json>, b: map<string, Json>)
    requires AlikeRows(p, q, ORDER_FIELDS) && SameFields(a, b, META_FIELDS)
    ensures Orders(p, a) == Orders(q, b)
  {
    CountAlike(p, q, ORDER_FIELDS, "is_live");
    CountAlike(p, q, ORDER_FIELDS, "is_protective");
    TallyAlike(p, q, ORDER_FIELDS, "status");
    TallyAlike(p, q, ORDER_FIELDS, "side");
    LabelsAlike(p, q, ORDER_FIELDS, "symbol");
    SameField(a, b, META_FIELDS, "fully_covered");
    SameField(a, b, META_FIELDS, "age_seconds");
    hide Get, CountTruthy, TallyOf, LabelsOf;
  }

  lemma HistoryAlike(p: seq<Json>, q: seq<Json>)
    requires AlikeRows(p, q, EVENT_FIELDS)
    ensures Activity(p) == Activity(q)
  {
    TallyAlike(p, q, EVENT_FIELDS, "kind");
    LabelsAlike(p, q, EVENT_FIELDS, "symbol");
    hide TallyOf, LabelsOf;
  }

  lemma SourceAlike(a: map<string, Json>, b: map<string, Json>)
    requires SameFields(a, b, SOURCE_FIELDS)
    ensures Source(a) == Source(b)
  {
    SameField(a, b, SOURCE_FIELDS, "collector");
    SameField(a, b, SOURCE_FIELDS, "read_only");
    SameField(a, b, SOURCE_FIELDS, "venue");
    hide Get, SameFields;
  }

  lemma QualityAlike(a: map<string, Json>, b: map<string, Json>)
    requires SameFields(a, b, QUALITY_FIELDS) && SameFlags(a, b, ["last_error"])
    ensures Quality(a) == Quality(b)
  {
    SameField(a, b, QUALITY_FIELDS, QUALITY_FIELDS[0]);
    SameField(a, b, QUALITY_FIELDS, QUALITY_FIELDS[1]);
    SameField(a, b, QUALITY_FIELDS, QUALITY_FIELDS[2]);
    SameField(a, b, QUALITY_FIELDS, QUALITY_FIELDS[3]);
    SameField(a, b, QUALITY_FIELDS, QUALITY_FIELDS[4]);
    assert ["last_error"][0] in ["last_error"];
    hide Get, Truthy, SameFields;
  }

  lemma RiskAlike(a: map<string, Json>, b: map<string, Json>, p: seq<Json>, q: seq<Json>)
    requires SameFields(a, b, RISK_FIELDS) && PickRows(p, FIRING_KEYS) == PickRows(q, FIRING_KEYS)
    ensures Risk(a, p) == Risk(b, q)
  {
    SameField(a, b, RISK_FIELDS, "firing_count");
    hide Get, PickRows, SameFields;
  }

  lemma CoverageAlike(a: map<string, Json>, b: map<string, Json>, failures: nat, essential: nat)
    requires SameFields(a, b, COVERAGE_FIELDS) && DegradedParts(a) == DegradedParts(b)
    ensures Coverage(a, failures, essential) == Coverage(b, failures, essential)
  {
    SameField(a, b, COVERAGE_FIELDS, "essential_ok");
    SameField(a, b, COVERAGE_FIELDS, "orders_covered");
    hide Get, DegradedParts, SameFields;
  }

  lemma FreshnessAlike(a: map<string, Json>, b: map<string, Json>)
    requires SameFields(a, b, AGE_FIELDS) && SameFlags(a, b, FLAG_FIELDS)
    ensures Freshness(a) == Freshness(b)
    ensures Truthy(Get(a, "disclaimer")) == Truthy(Get(b, "disclaimer"))
  {
    hide Get, Truthy;
  }

  lemma SectionsAlike(k: real, a: map<string, Json>, b: map<string, Json>, p: Parts, q: Parts, parse: Parser)
    requires k > 0.0 && AlikeParts(k, p, q, parse)
    requires SameFields(a, b, AGE_FIELDS) && SameFlags(a, b, FLAG_FIELDS)
    ensures SectionsOf(a, p, parse) == SectionsOf(b, q, parse)
  {
    hide AlikeOn, AlikeRows, SameBook, SameFields, SameFlags, ShapeOf, Notionals, PickRows, Pick;
    hide Book, Orders, Activity, Source, Quality, Risk, Coverage, Freshness, DegradedParts;
    FreshnessAlike(a, b);
    BookAlike(k, p, q, parse);
    PickRowsAlike(p.positions, q.positions, POSITION_KEYS);
    PickRowsAlike(p.protection, q.protection, PROTECTION_KEYS);
    PickRowsAlike(p.firing, q.firing, FIRING_KEYS);
    PickWhole(p.account, q.account, ACCOUNT_KEYS);
    OrdersAlike(p.orders, q.orders, p.ordersMeta, q.ordersMeta);
    HistoryAlike(p.history, q.history);
    SourceAlike(p.source, q.source);
    QualityAlike(p.quality, q.quality);
    RiskAlike(p.risk, q.risk, p.firing, q.firing);
    CoverageAlike(p.coverage, q.coverage, |p.failures|, |p.essentialFailures|);
  }

  /** Views that agree on the allow-listed fields, on counts and on labels, and whose notionals are
      equal up to one positive factor, redact to identical states, whatever else they hold. */
  lemma NonInterference(k: real, u: Json, v: Json, parse: Parser)
    requires k > 0.0 && AlikeViews(k, u, v, parse)
    ensures Redact(u, parse) == Redact(v, parse)
  {
    hide AlikeParts, ReadParts, SectionsOf, Assemble, SameFields, SameFlags, ViewFields, Get, Truthy;
    var a, b := ViewFields(u), ViewFields(v);
    FreshnessAlike(a, b);
    if ReadParts(a).Works? {
      SectionsAlike(k, a, b, ReadParts(a).value, ReadParts(b).value, parse);
    }
  }
}
