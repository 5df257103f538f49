/** Normalising a provider's price list (normalize_official_prices in pricing.py). */
module PriceCatalog {

  datatype Result<+T> = Ok(value: T) | Rejected

  /** What a provider may put where a price is expected; text that is no number, or a negative
      number, is refused. */
  datatype Amount = Number(value: real) | Text

  /** A dictionary field: absent, null or given. */
  datatype Field = Absent | Null | Given(amount: Amount)

  /** One raw price: a bare amount (None for null) or a dictionary; an empty unit stands for a
      missing one. */
  datatype RawPrice =
    | Bare(amount: Field)
    | Fields(usd: Field, price: Field, unit: string, extras: map<string, string>)

  datatype PriceItem = PriceItem(usd: real, unit: string, extras: map<string, string>)

  type Prices = map<string, PriceItem>

  const TOKEN_KEYS := ["input", "output", "cache", "reasoning", "long_context"]

  const UNIT_KEYS := ["image", "audio", "search", "upload", "download", "batch"]

  const EXTRA_FIELDS := {"description", "currency", "minimum"}

  function DefaultUnit(key: string): (unit: string)
    ensures unit != []
  {
    if key in TOKEN_KEYS then "per_million_tokens" else "per_unit"
  }

  // --------------------------------------------------------------------------- keys

  predicate IsSpace(c: char) { c == ' ' || '\t' <= c <= '\r' }

  function StripLeft(s: string): string {
    if s != [] && IsSpace(s[0]) then StripLeft(s[1..]) else s
  }

  function StripRight(s: string): string {
    if s != [] && IsSpace(s[|s| - 1]) then StripRight(s[..|s| - 1]) else s
  }

  function LowerChar(c: char): char {
    if 'A' <= c <= 'Z' then ((c as int) + 32) as char else c
  }

  function Lower(s: string): (t: string)
    ensures |t| == |s| && forall i :: 0 <= i < |s| ==> t[i] == LowerChar(s[i])
  {
    seq(|s|, i requires 0 <= i < |s| => LowerChar(s[i]))
  }

  /** `str(key).strip().lower()`. */
  function NormalKey(key: string): string { Lower(StripRight(StripLeft(key))) }

  /** No surrounding space. */
  predicate Trimmed(s: string) {
    s != [] ==> !IsSpace(s[0]) && !IsSpace(s[|s| - 1])
  }

  lemma {:induction false} StripLeftTrims(s: string)
    ensures var t := StripLeft(s); t != [] ==> !IsSpace(t[0])
  {
    if s != [] && IsSpace(s[0]) {
      StripLeftTrims(s[1..]);
    }
  }

  lemma {:induction false} StripRightTrims(s: string)
    ensures var t := StripRight(s);
            t != [] ==> !IsSpace(t[|t| - 1]) && s != [] && t[0] == s[0]
  {
    if s != [] && IsSpace(s[|s| - 1]) {
      StripRightTrims(s[..|s| - 1]);
    }
  }

  /** A normalised key is its own normal form. */
  lemma NormalKeyIdempotent(key: string)
    ensures NormalKey(NormalKey(key)) == NormalKey(key)
  {
    StripLeftTrims(key);
    StripRightTrims(StripLeft(key));
    var k := NormalKey(key);
    assert Trimmed(k);
    assert StripLeft(k) == k && StripRight(k) == k;
    assert Lower(k) == k;
  }

  // -------------------------------------------------------------------- normalising

  /** `decimal_value`: a non-negative number or a refusal. */
  function DecimalValue(amount: Amount): Result<real> {
    if amount.Number? && amount.value >= 0.0 then Ok(amount.value) else Rejected
  }

  /** `value.get("usd", value.get("price"))`, None when null or missing. */
  function AmountField(raw: RawPrice): Field {
    match raw
    case Bare(amount) => amount
    case Fields(usd, price, _, _) => if usd != Absent then usd else price
  }

  function ItemOf(key: string, raw: RawPrice, usd: real): PriceItem {
    match raw
    case Bare(_) => PriceItem(usd, DefaultUnit(key), map[])
    case Fields(_, _, unit, extras) =>
      PriceItem(usd, if unit != [] then unit else DefaultUnit(key), map f | f in extras && f in EXTRA_FIELDS :: extras[f])
  }

  /** One loop iteration: skip, refuse, or add (replacing an equal key). */
  function NormalizeEntry(entry: (string, RawPrice), prices: Prices): Result<Prices> {
    var key := NormalKey(entry.0);
    var field := AmountField(entry.1);
    if key == [] || !field.Given? then Ok(prices)
    else match DecimalValue(field.amount)
      case Rejected => Rejected
      case Ok(usd) => Ok(prices[key := ItemOf(key, entry.1, usd)])
  }

  function Normalize(entries: seq<(string, RawPrice)>): Result<Prices> {
    if entries == [] then Ok(map[])
    else match Normalize(entries[..|entries| - 1])
      case Rejected => Rejected
      case Ok(prices) => NormalizeEntry(entries[|entries| - 1], prices)
  }

  method NormalizeOfficialPrices(entries: seq<(string, RawPrice)>) returns (result: Result<Prices>)
    ensures result == Normalize(entries)
  {
    var normalized: Prices := map[];
    for index := 0 to |entries|
      invariant Normalize(entries[..index]) == Ok(normalized)
    {
      assert entries[..index + 1][..index] == entries[..index];
      var key := NormalKey(entries[index].0);
      var field := AmountField(entries[index].1);
      if key != [] && field.Given? {
        var usd := DecimalValue(field.amount);
        if usd == Rejected {
          assert Normalize(entries[..index + 1]) == Rejected;
          RejectionPersists(entries, index + 1);
          return Rejected;
        }
        normalized := normalized[key := ItemOf(key, entries[index].1, usd.value)];
      }
    }
    assert entries[..|entries|] == entries;
    result := Ok(normalized);
  }

  lemma {:induction false} RejectionPersists(entries: seq<(string, RawPrice)>, k: nat)
    requires k <= |entries| && Normalize(entries[..k]) == Rejected
    ensures Normalize(entries) == Rejected
    decreases |entries|
  {
    if k < |entries| {
      assert entries[..|entries| - 1][..k] == entries[..k];
      RejectionPersists(entries[..|entries| - 1], k);
    } else {
      assert entries[..k] == entries;
    }
  }

  /** A price list is refused exactly when some entry with a key has an amount that is no
      non-negative number. */
  lemma {:induction false} RefusedIff(entries: seq<(string, RawPrice)>)
    ensures Normalize(entries) == Rejected <==>
            exists e :: e in entries && NormalKey(e.0) != [] && AmountField(e.1).Given?
                        && DecimalValue(AmountField(e.1).amount) == Rejected
  {
    if entries != [] {
      var init, last := entries[..|entries| - 1], entries[|entries| - 1];
      assert entries == init + [last];
      RefusedIff(init);
    }
  }

  /** What normalising guarantees: normal non-empty keys, non-negative amounts, units given,
      only the known extra fields. */
  predicate NormalItem(key: string, item: PriceItem) {
    && key != [] && NormalKey(key) == key
    && item.usd >= 0.0 && item.unit != [] && item.extras.Keys <= EXTRA_FIELDS
  }

  predicate Normal(prices: Prices) {
    forall key :: key in prices ==> NormalItem(key, prices[key])
  }

  lemma {:induction false} NormalizeIsNormal(entries: seq<(string, RawPrice)>)
    ensures Normalize(entries).Ok? ==> Normal(Normalize(entries).value)
  {
    if entries != [] {
      NormalizeIsNormal(entries[..|entries| - 1]);
      NormalKeyIdempotent(entries[|entries| - 1].0);
    }
  }

  // ---------------------------------------------------------------------- round trip

  /** A stored item as the dictionary it is stored as. */
  function Render(item: PriceItem): RawPrice {
    Fields(Given(Number(item.usd)), Absent, item.unit, item.extras)
  }

  /** Some listing of a stored price map: every key once, in any order. */
  predicate Lists(entries: seq<(string, RawPrice)>, prices: Prices) {
    && (forall i, j :: 0 <= i < j < |entries| ==> entries[i].0 != entries[j].0)
    && (forall e :: e in entries ==> e.0 in prices && e.1 == Render(prices[e.0]))
    && (forall key :: key in prices ==> exists e :: e in entries && e.0 == key)
  }

  lemma NormalizeRendered(key: string, item: PriceItem, prices: Prices)
    requires NormalItem(key, item)
    ensures NormalizeEntry((key, Render(item)), prices) == Ok(prices[key := item])
  {
    assert (map f | f in item.extras && f in EXTRA_FIELDS :: item.extras[f]) == item.extras;
  }

  lemma {:induction false} NormalizeListing(entries: seq<(string, RawPrice)>, prices: Prices)
    requires Normal(prices)
    requires forall i, j :: 0 <= i < j < |entries| ==> entries[i].0 != entries[j].0
    requires forall e :: e in entries ==> e.0 in prices && e.1 == Render(prices[e.0])
    ensures var r := Normalize(entries);
            && r.Ok?
            && (forall key :: key in r.value <==> exists e :: e in entries && e.0 == key)
            && forall key :: key in r.value ==> key in prices && r.value[key] == prices[key]
  {
    if entries != [] {
      var init, last := entries[..|entries| - 1], entries[|entries| - 1];
      assert entries == init + [last];
      NormalizeListing(init, prices);
      NormalizeRendered(last.0, prices[last.0], Normalize(init).value);
    }
  }

  /** Round trip: normalising a stored price map, listed in any order, gives it back.  Stored
      official prices can therefore be marked up again without drift. */
  lemma NormalizeIsIdempotent(entries: seq<(string, RawPrice)>, prices: Prices)
    requires Normal(prices) && Lists(entries, prices)
    ensures Normalize(entries) == Ok(prices)
  {
    NormalizeListing(entries, prices);
    hide Normalize;
    var r := Normalize(entries).value;
    forall key
      ensures key in r <==> key in prices
    {
      if key in prices {
        var e :| e in entries && e.0 == key;
      }
    }
    assert r == prices;
  }
}
