/** What marking up and costing guarantee together, for every price map and every usage. */
module PricingLaws {
  import opened Money
  import opened PriceCatalog
  import opened GatewayPricing

  function Abs(x: real): real { if x < 0.0 then -x else x }

  // -------------------------------------------------------------------- markup bound

  /** Marking up changes amounts only: the same units are billed. */
  lemma SameQuantity(official: Prices, markupBps: int, usage: Usage, key: string)
    ensures Quantity(MarkUpAll(official, markupBps), usage, key) == Quantity(official, usage, key)
  {
    hide MarkUp, Amounts;
  }

  lemma LineBound(official: Prices, markupBps: int, usage: Usage, key: string)
    ensures Abs(LineCost(MarkUpAll(official, markupBps), usage, key)
                - Marked(LineCost(official, usage, key), markupBps))
         <= HALF_QUANTUM * Quantity(official, usage, key)
  {
    hide Quantity, Multiplier, Quantize, Marked, Times;
    SameQuantity(official, markupBps, usage, key);
    if key in official {
      var usd, q := official[key].usd, Quantity(official, usage, key);
      QuantizeIsClose(Marked(usd, markupBps));
      MarkedLine(q, usd, markupBps, MarkUp(usd, markupBps));
    } else {
      MarkedZero(markupBps);
    }
  }

  /** A weight times an error of at most half a quantum. */
  lemma ErrorBound(weight: real, e: real)
    requires weight >= 0.0 && -HALF_QUANTUM <= e <= HALF_QUANTUM
    ensures -(HALF_QUANTUM * weight) <= Times(weight, e) <= HALF_QUANTUM * weight
  {
  }

  lemma MarkedLine(q: real, usd: real, markupBps: int, rounded: real)
    requires q >= 0.0 && -HALF_QUANTUM <= rounded - Marked(usd, markupBps) <= HALF_QUANTUM
    ensures Abs(Times(q, rounded) - Marked(Times(q, usd), markupBps)) <= HALF_QUANTUM * q
  {
    hide Times, Marked;
    var exact := Marked(usd, markupBps);
    TimesSum(q, exact, rounded - exact);
    TimesMarked(q, usd, markupBps);
    ErrorBound(q, rounded - exact);
  }

  lemma TimesSum(q: real, x: real, y: real)
    ensures Times(q, x + y) == Times(q, x) + Times(q, y)
  {
  }

  lemma TimesMarked(q: real, usd: real, markupBps: int)
    ensures Times(q, Marked(usd, markupBps)) == Marked(Times(q, usd), markupBps)
  {
    hide Multiplier;
  }

  lemma MarkedZero(markupBps: int)
    ensures Marked(0.0, markupBps) == 0.0
  {
  }

  lemma MarkedSum(x: real, y: real, markupBps: int)
    ensures Marked(x + y, markupBps) == Marked(x, markupBps) + Marked(y, markupBps)
  {
  }

  lemma {:induction false} RawBound(official: Prices, markupBps: int, usage: Usage, keys: seq<string>)
    ensures Abs(RawCost(MarkUpAll(official, markupBps), usage, keys)
                - Marked(RawCost(official, usage, keys), markupBps))
         <= HALF_QUANTUM * TotalQuantity(official, usage, keys)
  {
    hide MarkUpAll, LineCost, Quantity, Marked;
    if keys == [] {
      MarkedZero(markupBps);
    } else {
      var init, last := keys[..|keys| - 1], keys[|keys| - 1];
      RawBound(official, markupBps, usage, init);
      LineBound(official, markupBps, usage, last);
      MarkedSum(RawCost(official, usage, init), LineCost(official, usage, last), markupBps);
    }
  }

  /** The cost under a marked-up map is the cost under the map times the multiplier, up to half a
      quantum per billed quantity and the roundings of the two totals. */
  lemma MarkedMapBound(official: Prices, markupBps: int, usage: Usage)
    requires ValidMarkup(markupBps)
    ensures Abs(CostOf(MarkUpAll(official, markupBps), usage) - Marked(CostOf(official, usage), markupBps))
         <= HALF_QUANTUM * (TotalQuantity(official, usage, KEYS) + 2.0 + markupBps as real / 10000.0)
  {
    hide RawCost, TotalQuantity, MarkUpAll, Quantize, Marked;
    var retail, cost := RawCost(MarkUpAll(official, markupBps), usage, KEYS), RawCost(official, usage, KEYS);
    RawBound(official, markupBps, usage, KEYS);
    QuantizeIsClose(retail);
    QuantizeIsClose(cost);
    MarkedSum(cost, Quantize(cost) - cost, markupBps);
    MarkedError(Quantize(cost) - cost, markupBps);
  }

  /** Marked-up prices are normal again. */
  lemma RetailIsNormal(official: Prices, markupBps: int)
    requires Normal(official) && ValidMarkup(markupBps)
    ensures Normal(MarkUpAll(official, markupBps))
  {
    hide Quantize, Marked;
    forall key | key in official
      ensures NormalItem(key, MarkUpAll(official, markupBps)[key])
    {
      assert NormalItem(key, official[key]);
      MarkedIsNonNegative(official[key].usd, markupBps);
      QuantizeNonNegative(Marked(official[key].usd, markupBps));
    }
  }

  lemma MarkedIsNonNegative(usd: real, markupBps: int)
    requires usd >= 0.0 && markupBps >= 0
    ensures Marked(usd, markupBps) >= 0.0
  {
    assert Multiplier(markupBps) >= 1.0;
  }

  /** So costing the stored final prices, listed in any order, costs the marked-up map itself. */
  lemma StoredPricesCost(raw: seq<(string, RawPrice)>, markupBps: int, retail: seq<(string, RawPrice)>, usage: Usage)
    requires FinalPrices(raw, markupBps).Ok? && Lists(retail, FinalPrices(raw, markupBps).value)
    ensures Normalize(raw).Ok?
    ensures var official := Normalize(raw).value;
            && Cost(raw, usage) == Ok(CostOf(official, usage))
            && Cost(retail, usage) == Ok(CostOf(MarkUpAll(official, markupBps), usage))
  {
    hide Normalize, MarkUpAll, CostOf, Normal, Lists;
    var official := Normalize(raw).value;
    NormalizeIsNormal(raw);
    RetailIsNormal(official, markupBps);
    NormalizeIsIdempotent(retail, MarkUpAll(official, markupBps));
  }

  /** What a customer pays for any usage under the stored final prices is what the provider's list
      costs times the multiplier, up to half a quantum per billed quantity and the roundings of
      the two totals. */
  lemma MarkupBound(raw: seq<(string, RawPrice)>, markupBps: int, retail: seq<(string, RawPrice)>, usage: Usage)
    requires FinalPrices(raw, markupBps).Ok? && Lists(retail, FinalPrices(raw, markupBps).value)
    ensures Normalize(raw).Ok? && Cost(raw, usage).Ok? && Cost(retail, usage).Ok?
    ensures Abs(Cost(retail, usage).value - Marked(Cost(raw, usage).value, markupBps))
         <= HALF_QUANTUM * (TotalQuantity(Normalize(raw).value, usage, KEYS) + 2.0 + markupBps as real / 10000.0)
  {
    hide Normalize, MarkUpAll, CostOf, Lists, Cost, Marked, TotalQuantity;
    StoredPricesCost(raw, markupBps, retail, usage);
    MarkedMapBound(Normalize(raw).value, markupBps, usage);
  }

  lemma MarkedError(e: real, markupBps: int)
    requires -HALF_QUANTUM <= e <= HALF_QUANTUM && markupBps >= 0
    ensures Abs(Marked(e, markupBps)) <= HALF_QUANTUM * (1.0 + markupBps as real / 10000.0)
  {
    ErrorBound(Multiplier(markupBps), e);
    assert Marked(e, markupBps) == Times(Multiplier(markupBps), e);
  }

  // -------------------------------------------------------------------------- margin

  /** No billed key's retail price is below its official price. */
  predicate CoversCost(official: Prices, markupBps: int) {
    forall key :: key in official && key in KEYS ==> MarkUp(official[key].usd, markupBps) >= official[key].usd
  }

  /** Grid prices are covered by every markup. */
  lemma GridPricesAreCovered(official: Prices, markupBps: int)
    requires Normal(official) && ValidMarkup(markupBps)
    requires forall key :: key in official && key in KEYS ==> Quantized(official[key].usd)
    ensures CoversCost(official, markupBps)
  {
    hide Marked, Quantize, Quantized;
    forall key | key in official && key in KEYS
      ensures MarkUp(official[key].usd, markupBps) >= official[key].usd
    {
      var usd := official[key].usd;
      assert NormalItem(key, official[key]);
      RaisedByMarkup(usd, markupBps);
      QuantizeMonotone(usd, Marked(usd, markupBps));
      QuantizeFixesGrid(usd);
    }
  }

  lemma RaisedByMarkup(usd: real, markupBps: int)
    requires usd >= 0.0 && markupBps >= 0
    ensures Marked(usd, markupBps) >= usd
  {
    var extra := markupBps as real / 10000.0;
    assert usd * extra >= 0.0;
    assert usd * (1.0 + extra) == usd + usd * extra;
  }

  lemma LineCovered(official: Prices, markupBps: int, usage: Usage, key: string)
    requires key in KEYS && CoversCost(official, markupBps)
    ensures LineCost(MarkUpAll(official, markupBps), usage, key) >= LineCost(official, usage, key)
  {
    hide Quantity, MarkUp, Times;
    SameQuantity(official, markupBps, usage, key);
    if key in official {
      Weighted(Quantity(official, usage, key), official[key].usd, MarkUp(official[key].usd, markupBps));
    }
  }

  lemma Weighted(q: real, low: real, high: real)
    requires q >= 0.0 && low <= high
    ensures Times(q, low) <= Times(q, high)
  {
  }

  lemma {:induction false} RawCovered(official: Prices, markupBps: int, usage: Usage, keys: seq<string>)
    requires CoversCost(official, markupBps) && forall key :: key in keys ==> key in KEYS
    ensures RawCost(MarkUpAll(official, markupBps), usage, keys) >= RawCost(official, usage, keys)
  {
    hide MarkUpAll, LineCost, CoversCost;
    if keys != [] {
      RawCovered(official, markupBps, usage, keys[..|keys| - 1]);
      assert keys[|keys| - 1] in keys;
      LineCovered(official, markupBps, usage, keys[|keys| - 1]);
    }
  }

  /** A request that uses one kind of unit only. */
  function Only(key: string, n: nat): Usage {
    Usage(if key == "input" then n else 0, if key == "output" then n else 0,
          if key == "cache" then n else 0, if key == "reasoning" then n else 0,
          if key == "long_context" then n else 0, if key == "image" then n else 0,
          if key == "audio" then n else 0, if key == "search" then n else 0,
          if key == "upload" then n else 0, if key == "download" then n else 0,
          if key == "batch" then n else 0)
  }

  lemma OnlyBills(prices: Prices, key: string, n: nat, other: string)
    requires key in KEYS
    ensures Billed(prices, Only(key, n), other) == if other == key && key in prices then n else 0
  {
  }

  lemma {:induction false} OnlyCosts(prices: Prices, key: string, n: nat, keys: seq<string>)
    requires key in KEYS && key in prices
    requires forall i, j :: 0 <= i < j < |keys| ==> keys[i] != keys[j]
    ensures RawCost(prices, Only(key, n), keys)
         == if key in keys then LineCost(prices, Only(key, n), key) else 0.0
  {
    hide LineCost, Only, Billed;
    if keys != [] {
      var init, last := keys[..|keys| - 1], keys[|keys| - 1];
      assert keys == init + [last];
      OnlyCosts(prices, key, n, init);
      OnlyBills(prices, key, n, last);
      if last != key {
        ZeroLine(prices, Only(key, n), last);
      }
    }
  }

  lemma KeysAreDistinct()
    ensures forall i, j :: 0 <= i < j < |KEYS| ==> KEYS[i] != KEYS[j]
  {
    assert |KEYS| == 11;
  }

  /** One kind of unit alone shows an uncovered price: enough of it separates the totals. */
  lemma UncoveredUsage(official: Prices, markupBps: int, key: string) returns (n: nat)
    requires key in official && key in KEYS && MarkUp(official[key].usd, markupBps) < official[key].usd
    ensures CostOf(MarkUpAll(official, markupBps), Only(key, n)) < CostOf(official, Only(key, n))
  {
    hide RawCost, Quantize, LineCost, Only, MarkUp, Billed;
    var low, high, d := MarkUp(official[key].usd, markupBps), official[key].usd, Divisor(official[key].unit);
    n := EnoughUnits(high - low, d);
    var final, usage := MarkUpAll(official, markupBps), Only(key, n);
    KeysAreDistinct();
    OnlyCosts(official, key, n, KEYS);
    OnlyCosts(final, key, n, KEYS);
    OnlyLine(official, key, n);
    OnlyLine(final, key, n);
    assert n as real / d * low + n as real / d * (high - low) == n as real / d * high;
    QuantizeSeparates(RawCost(final, usage, KEYS), RawCost(official, usage, KEYS));
  }

  lemma OnlyLine(prices: Prices, key: string, n: nat)
    requires key in KEYS && key in prices
    ensures LineCost(prices, Only(key, n), key) == Times(n as real / Divisor(prices[key].unit), prices[key].usd)
  {
    hide Only, Billed, Divisor;
    OnlyBills(prices, key, n, key);
  }

  /** Archimedes: a positive gap per unit adds up to a quantum. */
  lemma EnoughUnits(gap: real, divisor: real) returns (n: nat)
    requires gap > 0.0 && divisor > 0.0
    ensures n as real / divisor * gap >= 2.0 * HALF_QUANTUM
  {
    var needed := 2.0 * HALF_QUANTUM * divisor / gap;
    n := needed.Floor + 1;
    assert n as real >= needed;
    assert needed * gap == 2.0 * HALF_QUANTUM * divisor;
    assert n as real * gap >= needed * gap;
    GatewayPricing.ProductThenQuotient(n as real, gap, divisor);
    Divide(n as real * gap, 2.0 * HALF_QUANTUM, divisor);
  }

  lemma Divide(a: real, b: real, c: real)
    requires c > 0.0 && a >= b * c
    ensures a / c >= b
  {
    assert a == a / c * c;
  }

  /** The cost under a marked-up map never falls below the cost under the map, for every usage,
      exactly when every billed key's marked-up price covers its own. */
  lemma MarkedMapCoversIff(official: Prices, markupBps: int)
    ensures (forall usage :: CostOf(MarkUpAll(official, markupBps), usage) >= CostOf(official, usage))
       <==> CoversCost(official, markupBps)
  {
    hide RawCost, Quantize, MarkUpAll, MarkUp;
    if CoversCost(official, markupBps) {
      forall usage
        ensures CostOf(MarkUpAll(official, markupBps), usage) >= CostOf(official, usage)
      {
        RawCovered(official, markupBps, usage, KEYS);
        QuantizeMonotone(RawCost(official, usage, KEYS), RawCost(MarkUpAll(official, markupBps), usage, KEYS));
      }
    } else {
      var key :| key in official && key in KEYS && MarkUp(official[key].usd, markupBps) < official[key].usd;
      var n := UncoveredUsage(official, markupBps, key);
    }
  }

  /** Under the stored final prices no usage is sold below provider cost exactly when every billed
      key's retail price covers its official price: what an operator can check in the price list. */
  lemma NeverBelowCostIff(raw: seq<(string, RawPrice)>, markupBps: int, retail: seq<(string, RawPrice)>)
    requires FinalPrices(raw, markupBps).Ok? && Lists(retail, FinalPrices(raw, markupBps).value)
    ensures Normalize(raw).Ok? && forall usage :: Cost(raw, usage).Ok? && Cost(retail, usage).Ok?
    ensures (forall usage :: Cost(retail, usage).value >= Cost(raw, usage).value)
       <==> CoversCost(Normalize(raw).value, markupBps)
  {
    hide Normalize, MarkUpAll, CostOf, Lists, CoversCost, Cost;
    forall usage
      ensures var official := Normalize(raw).value;
              && Cost(raw, usage) == Ok(CostOf(official, usage))
              && Cost(retail, usage) == Ok(CostOf(MarkUpAll(official, markupBps), usage))
    {
      StoredPricesCost(raw, markupBps, retail, usage);
    }
    MarkedMapCoversIff(Normalize(raw).value, markupBps);
  }

  /** An official price off the grid can end up below cost: four thousand-millionths of a dollar
      per unit, without markup, rounds to free. */
  lemma OffGridPriceIsSoldBelowCost()
    ensures var official := map["image" := PriceItem(0.000000004, "per_unit", map[])];
            Normal(official) && !CoversCost(official, 0)
  {
    var official: Prices := map["image" := PriceItem(0.000000004, "per_unit", map[])];
    assert KEYS[5] == "image";
    assert MarkUp(0.000000004, 0) == 0.0;
    assert "image" in official && "image" in KEYS && official["image"].usd == 0.000000004;
    assert StripLeft("image") == "image" && StripRight("image") == "image" && Lower("image") == "image";
  }

  // ------------------------------------------------------------------- subset tokens

  /** Under an input tariff every prompt token is billed exactly once, input or cache, exactly
      when cached tokens have a tariff of their own or there are none: without a cache tariff
      the source carves them out of the input and bills them nowhere. */
  lemma PromptBilledOnceIff(prices: Prices, usage: Usage)
    requires "input" in prices && 0 <= usage.cache <= usage.input
    ensures Billed(prices, usage, "input") + Billed(prices, usage, "cache") == usage.input
       <==> ("cache" in prices || usage.cache == 0)
  {
  }

  /** Under an output tariff every completion token is billed exactly once, with or without a
      separate reasoning tariff. */
  lemma CompletionBilledOnce(prices: Prices, usage: Usage)
    requires "output" in prices && 0 <= usage.reasoning <= usage.output
    ensures Billed(prices, usage, "output") + Billed(prices, usage, "reasoning") == usage.output
  {
  }

  // ------------------------------------------------------------------- long contexts

  /** A prompt token as the provider reports it. */
  datatype PromptToken = PromptToken(cached: bool, long: bool)

  const PROMPT_KEYS := {"input", "cache", "long_context"}

  function CountCached(prompt: seq<PromptToken>): (n: nat)
    ensures n <= |prompt|
  {
    if prompt == [] then 0
    else CountCached(prompt[..|prompt| - 1]) + if prompt[|prompt| - 1].cached then 1 else 0
  }

  function CountLong(prompt: seq<PromptToken>): (n: nat)
    ensures n <= |prompt|
  {
    if prompt == [] then 0
    else CountLong(prompt[..|prompt| - 1]) + if prompt[|prompt| - 1].long then 1 else 0
  }

  /** What a usage report says of a prompt: cached and long-context tokens are subsets of it. */
  predicate Reports(usage: Usage, prompt: seq<PromptToken>) {
    usage.input == |prompt| && usage.cache == CountCached(prompt) && usage.longContext == CountLong(prompt)
  }

  /** The tariffs a token falls under: input unless it is cached, and long context as well. */
  predicate FallsUnder(prices: Prices, token: PromptToken, key: string) {
    && key in prices
    && ((key == "input" && !token.cached) || (key == "cache" && token.cached) || (key == "long_context" && token.long))
  }

  function TokensUnder(prices: Prices, prompt: seq<PromptToken>, key: string): nat {
    if prompt == [] then 0
    else
      TokensUnder(prices, prompt[..|prompt| - 1], key)
      + if FallsUnder(prices, prompt[|prompt| - 1], key) then 1 else 0
  }

  lemma {:induction false} TokensUnderAre(prices: Prices, prompt: seq<PromptToken>, key: string)
    requires key in PROMPT_KEYS
    ensures TokensUnder(prices, prompt, key) ==
            if key !in prices then 0
            else if key == "input" then |prompt| - CountCached(prompt)
            else if key == "cache" then CountCached(prompt)
            else CountLong(prompt)
  {
    if prompt != [] {
      TokensUnderAre(prices, prompt[..|prompt| - 1], key);
    }
  }

  /** The units billed under a prompt tariff are the tokens that fall under it. */
  lemma BilledTokensFallUnder(prices: Prices, usage: Usage, prompt: seq<PromptToken>, key: string)
    requires Reports(usage, prompt) && key in PROMPT_KEYS
    ensures Billed(prices, usage, key) == TokensUnder(prices, prompt, key)
  {
    TokensUnderAre(prices, prompt, key);
  }

  function TimesBilled(prices: Prices, token: PromptToken): nat {
    (if FallsUnder(prices, token, "input") then 1 else 0)
    + (if FallsUnder(prices, token, "cache") then 1 else 0)
    + (if FallsUnder(prices, token, "long_context") then 1 else 0)
  }

  /** A prompt token is billed twice exactly when it is a long-context token under a long-context
      tariff and has its input or cache tariff as well: nothing is carved out for it. */
  lemma BilledTwiceIff(prices: Prices, token: PromptToken)
    ensures TimesBilled(prices, token) <= 2
    ensures TimesBilled(prices, token) == 2 <==>
            token.long && "long_context" in prices && (if token.cached then "cache" else "input") in prices
  {
  }

  function PromptUnits(prices: Prices, usage: Usage): nat {
    Billed(prices, usage, "input") + Billed(prices, usage, "cache") + Billed(prices, usage, "long_context")
  }

  /** What is reported of a prompt of one long-context token. */
  function OneLong(cached: bool): Usage { Usage(1, 0, if cached then 1 else 0, 0, 1, 0, 0, 0, 0, 0, 0) }

  /** So a catalogue never bills more units than a prompt has tokens, for any prompt, exactly when it has
      no long-context tariff or no other prompt tariff. */
  lemma NeverDoubleBillsIff(prices: Prices)
    ensures (forall usage, prompt :: Reports(usage, prompt) ==> PromptUnits(prices, usage) <= |prompt|)
       <==> ("long_context" !in prices || ("input" !in prices && "cache" !in prices))
  {
    if "long_context" !in prices || ("input" !in prices && "cache" !in prices) {
      forall usage, prompt | Reports(usage, prompt)
        ensures PromptUnits(prices, usage) <= |prompt|
      {
      }
    } else {
      hide Billed;
      var token := PromptToken("input" !in prices, true);
      var usage := OneLong(token.cached);
      assert [token][..0] == [] && Reports(usage, [token]);
      BilledTokensFallUnder(prices, usage, [token], "input");
      BilledTokensFallUnder(prices, usage, [token], "cache");
      BilledTokensFallUnder(prices, usage, [token], "long_context");
    }
  }

  // ------------------------------------------------------------------------- invoice

  lemma RawCostSnoc(prices: Prices, usage: Usage, keys: seq<string>, key: string)
    ensures RawCost(prices, usage, keys + [key]) == RawCost(prices, usage, keys) + LineCost(prices, usage, key)
  {
    assert (keys + [key])[..|keys|] == keys;
  }

  lemma {:induction false} RawCostConcat(prices: Prices, usage: Usage, a: seq<string>, b: seq<string>)
    ensures RawCost(prices, usage, a + b) == RawCost(prices, usage, a) + RawCost(prices, usage, b)
  {
    if b == [] {
      assert a + b == a;
    } else {
      var init, last := b[..|b| - 1], b[|b| - 1];
      assert a + b == (a + init) + [last];
      RawCostConcat(prices, usage, a, init);
      RawCostSnoc(prices, usage, a + init, last);
    }
  }

  /** Keys without a tariff cost nothing. */
  lemma {:induction false} UntariffedCostsNothing(prices: Prices, usage: Usage, keys: seq<string>)
    requires forall key :: key in keys ==> key !in prices
    ensures RawCost(prices, usage, keys) == 0.0
  {
    if keys != [] {
      assert keys[|keys| - 1] in keys;
      UntariffedCostsNothing(prices, usage, keys[..|keys| - 1]);
    }
  }

  /** The four-tariff token catalogue, priced per million. */
  predicate TokenCatalogue(prices: Prices) {
    && prices.Keys == {"input", "output", "cache", "reasoning"}
    && forall key :: key in prices ==> prices[key].unit == "per_million_tokens"
  }

  /** An invoice written down independently of the billing loop: fresh prompt tokens at the
      input price, cached ones at the cache price, visible completion tokens at the output
      price, reasoning ones at theirs, over a million. */
  function Invoice(prices: Prices, usage: Usage): real
    requires TokenCatalogue(prices)
  {
    ((usage.input - usage.cache) as real * prices["input"].usd
     + usage.cache as real * prices["cache"].usd
     + (usage.output - usage.reasoning) as real * prices["output"].usd
     + usage.reasoning as real * prices["reasoning"].usd) / 1_000_000.0
  }

  lemma PerMillion(prices: Prices, usage: Usage, key: string, n: int)
    requires TokenCatalogue(prices) && key in prices && n >= 0 && Billed(prices, usage, key) == n
    ensures LineCost(prices, usage, key) == n as real * prices[key].usd / 1_000_000.0
  {
    hide Billed, Amounts;
    GatewayPricing.ProductThenQuotient(n as real, prices[key].usd, 1_000_000.0);
  }

  /** The billing loop computes the invoice. */
  lemma CostIsInvoice(prices: Prices, usage: Usage)
    requires TokenCatalogue(prices)
    requires 0 <= usage.cache <= usage.input && 0 <= usage.reasoning <= usage.output
    ensures RawCost(prices, usage, KEYS) == Invoice(prices, usage)
  {
    PerMillion(prices, usage, "input", usage.input - usage.cache);
    PerMillion(prices, usage, "cache", usage.cache);
    PerMillion(prices, usage, "output", usage.output - usage.reasoning);
    PerMillion(prices, usage, "reasoning", usage.reasoning);
    hide LineCost, Billed;
    var rest := ["long_context"] + UNIT_KEYS;
    assert KEYS == ["input", "output", "cache", "reasoning"] + rest;
    UntariffedCostsNothing(prices, usage, rest);
    RawCostConcat(prices, usage, ["input", "output", "cache", "reasoning"], rest);
    RawCostSnoc(prices, usage, ["input", "output", "cache"], "reasoning");
    RawCostSnoc(prices, usage, ["input", "output"], "cache");
    RawCostSnoc(prices, usage, ["input"], "output");
    RawCostSnoc(prices, usage, [], "input");
    assert ["input", "output", "cache"] + ["reasoning"] == ["input", "output", "cache", "reasoning"];
    assert ["input", "output"] + ["cache"] == ["input", "output", "cache"];
    assert ["input"] + ["output"] == ["input", "output"];
    assert [] + ["input"] == ["input"];
  }
}
