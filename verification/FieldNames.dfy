/** The names the projection uses, and which of them look like an absolute quantity. */
module FieldNames {

  /** `_ABSOLUTE_MARKERS`. */
  const MARKERS := ["_usd", "btc_equivalent", "quantity", "price", "notional"]

  predicate StartsAt(s: string, part: string, i: nat) { i + |part| <= |s| && s[i..i + |part|] == part }

  predicate Contains(s: string, part: string) { exists i :: 0 <= i <= |s| && StartsAt(s, part, i) }

  predicate HasMarker(name: string) { exists m :: m in MARKERS && Contains(name, m) }

  lemma LacksChar(s: string, part: string, j: nat)
    requires j < |part| && part[j] !in s
    ensures !Contains(s, part)
  {
    forall i | 0 <= i <= |s|
      ensures !StartsAt(s, part, i)
    {
      if i + |part| <= |s| {
        assert s[i..i + |part|][j] == s[i + j] && s[i + j] in s;
      }
    }
  }

  lemma LacksPair(s: string, part: string, j: nat)
    requires j + 1 < |part|
    requires forall i :: 0 <= i < |s| - 1 ==> !(s[i] == part[j] && s[i + 1] == part[j + 1])
    ensures !Contains(s, part)
  {
    forall i | 0 <= i <= |s|
      ensures !StartsAt(s, part, i)
    {
      if i + |part| <= |s| {
        var here := s[i..i + |part|];
        assert here[j] == s[i + j] && here[j + 1] == s[i + j + 1];
      }
    }
  }

  /** No "sd", "ic" or "na", and no "q": one piece out of every marker. */
  predicate Plain(s: string) {
    && 'q' !in s
    && forall i :: 0 <= i < |s| - 1 ==>
         && (s[i] != 's' || s[i + 1] != 'd') && (s[i] != 'i' || s[i + 1] != 'c') && (s[i] != 'n' || s[i + 1] != 'a')
  }

  lemma PlainIsUnmarked(s: string)
    requires Plain(s)
    ensures !HasMarker(s)
  {
    LacksPair(s, "_usd", 2);
    LacksChar(s, "btc_equivalent", 5);
    LacksChar(s, "quantity", 0);
    LacksPair(s, "price", 2);
    LacksPair(s, "notional", 5);
  }

  lemma PlainNames()
    ensures forall s :: Plain(s) ==> !HasMarker(s)
  {
    forall s | Plain(s)
      ensures !HasMarker(s)
    {
      PlainIsUnmarked(s);
    }
  }

  /** The two names that need other pieces. */
  lemma OfficialIsUnmarked()
    ensures !HasMarker("uni_mmr_is_official")
  {
    var s := "uni_mmr_is_official";
    LacksPair(s, "_usd", 2);
    LacksChar(s, "btc_equivalent", 5);
    LacksChar(s, "quantity", 0);
    LacksChar(s, "price", 0);
    LacksPair(s, "notional", 5);
  }

  lemma QuantileIsUnmarked()
    ensures !HasMarker("adl_quantile")
  {
    var s := "adl_quantile";
    LacksPair(s, "_usd", 2);
    LacksChar(s, "btc_equivalent", 0);
    LacksChar(s, "quantity", 7);
    LacksChar(s, "price", 0);
    LacksPair(s, "notional", 5);
  }

  /** Two of the projection's names do look absolute. */
  lemma MarkedNames()
    ensures HasMarker("quantity_unit") && HasMarker("has_liquidation_price")
  {
    assert StartsAt("quantity_unit", "quantity", 0);
    assert StartsAt("has_liquidation_price", "price", 16);
    assert MARKERS[2] in MARKERS && MARKERS[3] in MARKERS;
  }

  // ------------------------------------------------------ the other names, by section

  lemma FreshnessNames()
    ensures Plain("available") && Plain("stale") && Plain("partial") && Plain("age_seconds")
  {
  }

  lemma FreshnessLimitNames()
    ensures Plain("stale_after_seconds") && Plain("schema")
  {
  }

  lemma SourceNames()
    ensures Plain("collector") && Plain("read_only") && Plain("venue")
  {
  }

  lemma BookCountsNames()
    ensures Plain("position_count") && Plain("long_count")
  {
  }

  lemma BookCountsTooNames()
    ensures Plain("valued_position_count") && Plain("short_count")
  {
  }

  lemma BookRatiosNames()
    ensures Plain("concentration_hhi") && Plain("net_to_gross")
  {
  }

  lemma BalanceCountsNames()
    ensures Plain("balance_count") && Plain("liability_count")
  {
  }

  lemma OrderCountsNames()
    ensures Plain("count") && Plain("live_count") && Plain("protective_count")
  {
  }

  lemma OrderMetaNames()
    ensures Plain("fully_covered") && Plain("age_seconds")
  {
  }

  lemma RiskNames()
    ensures Plain("firing_count") && Plain("rule") && Plain("level") && Plain("status")
  {
  }

  lemma CoverageFlagsNames()
    ensures Plain("essential_ok") && Plain("orders_covered")
  {
  }

  lemma CoverageCountsNames()
    ensures Plain("failure_count") && Plain("essential_failure_count")
  {
  }

  lemma ConnectionNames()
    ensures Plain("rest_ok") && Plain("ws_connected") && Plain("partial") && Plain("mismatch")
  {
  }

  lemma FailuresNames()
    ensures Plain("consecutive_failures") && Plain("event_count")
  {
  }

  lemma MarginNames()
    ensures Plain("account_status") && Plain("uni_mmr") && Plain("uni_mmr_pct")
  {
  }

  lemma MarginUsageNames()
    ensures Plain("maint_margin_usage_derived_pct")
  {
  }

  lemma AvailableRatioNames()
    ensures Plain("available_balance_ratio_derived")
  {
  }

  lemma LossRatioNames()
    ensures Plain("total_margin_open_loss_ratio_derived")
  {
  }

  lemma LeverageNames()
    ensures Plain("gross_leverage_derived")
  {
  }

  lemma PositionNames()
    ensures Plain("symbol") && Plain("side") && Plain("leverage") && Plain("position_mode")
  {
  }

  lemma ProtectionNames()
    ensures Plain("symbol") && Plain("side") && Plain("covered") && Plain("partial")
  {
  }

  lemma ProtectionReasonNames()
    ensures Plain("coverage_known") && Plain("reason")
  {
  }
}
