/** Marking up official prices and costing a request (final_prices and usage_cost in
    pricing.py).  Decimal arithmetic is exact; only the quantisation to 1e-8 rounds. */
module GatewayPricing {
  import opened Money
  import opened PriceCatalog

  /** A provider's usage report. */
  datatype Usage = Usage(
    input: int,
    output: int,
    cache: int,
    reasoning: int,
    longContext: int,
    image: int,
    audio: int,
    search: int,
    upload: int,
    download: int,
    batch: int)

  /** The billing table: the price keys in the order they are billed. */
  const KEYS := TOKEN_KEYS + UNIT_KEYS

  /** The usage field behind a price key. */
  function Amounts(usage: Usage, key: string): int {
    if key == "input" then usage.input
    else if key == "output" then usage.output
    else if key == "cache" then usage.cache
    else if key == "reasoning" then usage.reasoning
    else if key == "long_context" then usage.longContext
    else if key == "image" then usage.image
    else if key == "audio" then usage.audio
    else if key == "search" then usage.search
    else if key == "upload" then usage.upload
    else if key == "download" then usage.download
    else if key == "batch" then usage.batch
    else 0
  }

  function AtLeastZero(n: int): (m: nat) { if n > 0 then n else 0 }

  function Multiplier(markupBps: int): real { 1.0 + markupBps as real / 10000.0 }

  /** A price with its markup, before and after rounding. */
  function Marked(usd: real, markupBps: int): real { usd * Multiplier(markupBps) }

  function MarkUp(usd: real, markupBps: int): real { Quantize(Marked(usd, markupBps)) }

  predicate ValidMarkup(markupBps: int) { 0 <= markupBps <= 100_000 }

  /** Every item marked up, everything else of it kept. */
  function MarkUpAll(official: Prices, markupBps: int): (final: Prices)
    ensures final.Keys == official.Keys
  {
    map key | key in official :: official[key].(usd := MarkUp(official[key].usd, markupBps))
  }

  /** final_prices on the raw list: a bad markup, or a refused list, is an error. */
  function FinalPrices(entries: seq<(string, RawPrice)>, markupBps: int): Result<Prices> {
    if !ValidMarkup(markupBps) then Rejected
    else match Normalize(entries)
      case Rejected => Rejected
      case Ok(official) => Ok(MarkUpAll(official, markupBps))
  }

  /** The units of a key that are billed: nothing without a tariff, cached tokens carved out of
      the input, and reasoning tokens out of the output when they have their own tariff. */
  function Billed(prices: Prices, usage: Usage, key: string): nat {
    if key !in prices then 0
    else if key == "input" then AtLeastZero(usage.input - AtLeastZero(usage.cache))
    else if key == "output" && "reasoning" in prices then
      AtLeastZero(usage.output - AtLeastZero(usage.reasoning))
    else AtLeastZero(Amounts(usage, key))
  }

  function Divisor(unit: string): real {
    if unit == "per_million_tokens" then 1_000_000.0 else 1.0
  }

  /** Billed units in the tariff's own unit. */
  function Quantity(prices: Prices, usage: Usage, key: string): (q: real)
    ensures q >= 0.0
  {
    if key !in prices then 0.0 else Billed(prices, usage, key) as real / Divisor(prices[key].unit)
  }

  function Times(quantity: real, usd: real): real { quantity * usd }

  function LineCost(prices: Prices, usage: Usage, key: string): real {
    if key !in prices then 0.0 else Times(Quantity(prices, usage, key), prices[key].usd)
  }

  function RawCost(prices: Prices, usage: Usage, keys: seq<string>): real {
    if keys == [] then 0.0
    else RawCost(prices, usage, keys[..|keys| - 1]) + LineCost(prices, usage, keys[|keys| - 1])
  }

  /** Sum of the quantities of the keys. */
  function TotalQuantity(prices: Prices, usage: Usage, keys: seq<string>): real {
    if keys == [] then 0.0
    else TotalQuantity(prices, usage, keys[..|keys| - 1]) + Quantity(prices, usage, keys[|keys| - 1])
  }

  /** The cost of a request under a normalised price map. */
  function CostOf(prices: Prices, usage: Usage): real { Quantize(RawCost(prices, usage, KEYS)) }

  /** usage_cost on a listed price map: normalised again, then costed, or refused. */
  function Cost(entries: seq<(string, RawPrice)>, usage: Usage): Result<real> {
    match Normalize(entries)
    case Rejected => Rejected
    case Ok(prices) => Ok(CostOf(prices, usage))
  }

  /** The loop over one price map's keys. */
  method MarkUpPrices(official: Prices, markupBps: int) returns (final: Prices)
    ensures final == MarkUpAll(official, markupBps)
  {
    hide MarkUp;
    final := map[];
    var rest := official.Keys;
    while rest != {}
      invariant rest <= official.Keys && final.Keys == official.Keys - rest
      invariant forall key :: key in final ==> final[key] == official[key].(usd := MarkUp(official[key].usd, markupBps))
      decreases rest
    {
      var key :| key in rest;
      var amount := MarkUp(official[key].usd, markupBps);
      final := final[key := official[key].(usd := amount)];
      rest := rest - {key};
    }
  }

  method FinalPricesOf(entries: seq<(string, RawPrice)>, markupBps: int) returns (result: Result<Prices>)
    ensures result == FinalPrices(entries, markupBps)
  {
    if markupBps < 0 || markupBps > 100_000 {
      return Rejected;
    }
    var official := NormalizeOfficialPrices(entries);
    if official == Rejected {
      return Rejected;
    }
    var final := MarkUpPrices(official.value, markupBps);
    result := Ok(final);
  }

  /** The body of the billing loop: what one key adds to the total. */
  method BillKey(prices: Prices, usage: Usage, key: string, billReasoningSeparately: bool) returns (line: real)
    requires billReasoningSeparately == ("reasoning" in prices)
    ensures line == LineCost(prices, usage, key)
  {
    var amount := Amounts(usage, key);
    if key == "input" {
      amount := AtLeastZero(amount - AtLeastZero(usage.cache));
    } else if key == "output" && billReasoningSeparately {
      amount := AtLeastZero(amount - AtLeastZero(usage.reasoning));
    }
    if key !in prices {
      return 0.0;
    }
    assert Billed(prices, usage, key) == AtLeastZero(amount);
    if amount <= 0 {
      ZeroLine(prices, usage, key);
      return 0.0;
    }
    var price := prices[key].usd;
    var divisor := Divisor(prices[key].unit);
    ProductThenQuotient(amount as real, price, divisor);
    line := amount as real * price / divisor;
  }

  method UsageCost(entries: seq<(string, RawPrice)>, usage: Usage) returns (cost: Result<real>)
    ensures cost == Cost(entries, usage)
  {
    hide LineCost, Normalize, Quantize;
    var normalized := NormalizeOfficialPrices(entries);
    if normalized == Rejected {
      return Rejected;
    }
    var prices := normalized.value;
    var billReasoningSeparately := "reasoning" in prices;
    var total := 0.0;
    for index := 0 to |KEYS|
      invariant total == RawCost(prices, usage, KEYS[..index])
    {
      assert KEYS[..index + 1][..index] == KEYS[..index];
      var line := BillKey(prices, usage, KEYS[index], billReasoningSeparately);
      total := total + line;
    }
    assert KEYS[..|KEYS|] == KEYS;
    cost := Ok(Quantize(total));
  }

  lemma ProductThenQuotient(a: real, b: real, c: real)
    requires c > 0.0
    ensures a * b / c == a / c * b
  {
    var q := a / c;
    assert a == q * c;
    assert a * b == (q * b) * c;
  }

  lemma ZeroLine(prices: Prices, usage: Usage, key: string)
    requires Billed(prices, usage, key) == 0
    ensures LineCost(prices, usage, key) == 0.0
  {
  }
}
