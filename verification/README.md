# PureGamma, modelled in Dafny

This project models four parts of the PureGamma repository and proves what they promise, for every
input, every run or every reachable state. `dafny verify dfyconfig.toml` checks all of it.

**Backtest engines.** Three separately written loops (the lab engine, the pure-Python
VectorBT-compatible engine, the momentum simulation) and a two-leg loop. Each is an imperative
method proved equal to a specification of its run; the laws are about those runs: a complete trade
log for one leg and for two, no look-ahead with stop-loss state, exactly when the engines agree, market
neutrality, conservation when assets are merged, and the paged candle download behind them.

**Gateway pricing.** Normalising, marking up and billing with half-up rounding to 1e-8, and the
append-only table of price revisions driven by sync, approval and change of markup.

**Protocols.** The iMessage relay (delivery table, inbound watermark, and both together), reward
grants under caps, and automation budgets. Each has a class whose methods do what the source does,
and a state machine in which the environment chooses clock, provider answers and interleaving.

**Redaction.** The projection of an account view that may leave the process, its scale-free book
shape, and the guard over it.

| part | files |
|---|---|
| shared arithmetic | RealMath, Permutations, StableSorting, TextOrder, Decimals, CreditWindows, Money |
| backtests | StrategySpecs, DailyEngine, DailyRuns, Causality, StopLoss, BreakoutRuns, VectorbtEngine, MomentumSimulation, EngineAgreement, SignalReadings, DocumentedTiming, CrossSectional, PairRuns, PairLedger, PairHistory, Metrics, Portfolio, SharedWindow, CandlePaging |
| gateway | PriceCatalog, GatewayPricing, PricingLaws, PriceRevisions, RevisionLaws |
| relay | RelayDelivery, DeliveryLaws, InboundWatermark, InboundLaws, RelayEndToEnd |
| credits | Rewards, RewardLaws, Budgets, BudgetRuns, BudgetLaws, BudgetOverruns |
| redaction | JsonValues, BookShape, Redaction, RedactionLaws, Rendering, FieldNames, ScaleGuard |

Files whose names end in Laws, Runs or Overruns hold state machines and results; the file they belong
to holds the operations.

## How the model reads the source

- Floats are reals; closes are positive, as both engines filter them. Money is a real with the
  rounding written out. A SHA-256 hash is its own preimage, so it is injective.
- A revision's id is its place in the table, a model's row likewise; the order in which a change of
  markup visits the models is table order.
- Time in the relay is in seconds and never runs backwards; in rewards and budgets a moment is its
  month, day and time of day, and never runs backwards either.
- The HTTP handlers of the relay have no await between look-up and record, so they run one after the
  other; the inbound thread interleaves with them at every point between its own look-up and record.
- Reward and budget transactions hold the user's row lock from the decision to the commit; a reservation
  is stamped when it is flushed, in between; unique constraints act at the commit.
- A provider call that raises leaves no record, even if the message went out.

## Where the code and its documentation disagree

The model follows the code; each difference is a theorem.

- The lab engine's header says the target of bar N earns bar N's return. The loop earns it with the
  target of bar N-1 (`DocumentedIff`, `DocumentedReturnFails`).
- "Strictly no look-ahead" is false in the two-leg engine when the effective window is a multiple of
  `rebalance_days`: the first decision reads index -1, the final close (`CausalIff`, `RunCausalIff`);
  appended bars may move its window as well (`PairPrefixStableIff`).
- The window clamp looks at the length of the series, so appending bars can change earlier decisions
  of a short series (`PrefixStableIffSameWindow`); two assets share the shorter length, so bars added
  to one can rewrite the other's trades (`OtherLengthHiddenIff`).
- The two engines read relative_strength differently (`LogsAgreeIff`).
- The two-leg engine buys the weaker leg when exit < spread <= entry (`FollowsStrongerIff`).
- A breakout with any positive threshold never trades, because the window includes the last close
  (`BreakoutInertIff`).
- Cached tokens are documented as billed at the cache tariff instead of the input tariff; without a
  cache tariff they are billed nowhere (`PromptBilledOnceIff`). A `long_context` tariff is documented as
  never billing twice; it is added to the input or cache tariff (`BilledTwiceIff`, `NeverDoubleBillsIff`).
- Approval keeps the markup of the day a price was proposed, not the one in force
  (`ApprovalKeepsUniformIff`); a price that returns to an old value is never proposed again
  (`RevertedPricesAreNotProposedAgain`).
- In the relay the 30-minute delay is unreachable and a permanent failure is tried again at once;
  one key used by both processes at a time can be sent twice (`SendsTwiceIffCrossed`).
- The inbound watermark moves before a batch is handled, so an error that escapes the inner handler
  (a provider time-out, or a database error while recording) loses the rest of the batch
  (`MissedIff`, `BrokenBatchLosesItsTail`).
- Settlements above a reservation are not held to the budget, neither the day's nor the month's
  (`SettlementWithinLimitIff`, `LimitsHoldIff`); with usage enforcement off every reservation counts as
  zero until it settles (`UnenforcedCountsNothing`, `UnenforcedExceedsLimit`).
- Automation keys over 120 characters work once (`SecondLookupWorksIff`).
- `_fetch_klines` misses a row opening exactly at the end when the earlier rows fill whole pages
  (`FetchKlines`).

## Model

| member | source | states |
|---|---|---|
| DailyEngine.ApplyStop | packages/backtest/daily_engine.py:100-111 | the stop-loss branch decides exactly as the specification's step: a trailing stop for longs, a mirrored one for shorts, then the cool-down |
| DailyEngine.RunDailyAsset | packages/backtest/daily_engine.py:87-123 | the engine's loop returns exactly the equity, log and returns of the specified run, for any positive closes |
| DailyRuns.LogAnswersForEveryBar | packages/backtest/daily_engine.py:112-120 | rows added later never change what the log says about an earlier bar: replaying it up to a bar gives the position held there |
| DailyRuns.LogDeterminesReturn | packages/backtest/daily_engine.py:112-120 | each bar's return is what the positions replayed from the log earn, less the fee on the replayed change |
| DailyRuns.ReturnsBalance | packages/backtest/daily_engine.py:112-117 | conservation at every prefix of a run: summed returns are gross profit of the logged positions less the fee rate times logged turnover |
| DailyRuns.EquityCompounds | packages/backtest/daily_engine.py:118-119 | the equity value is the compound of the returns booked so far |
| DailyRuns.TradeLogIsComplete | packages/backtest/daily_engine.py:97-120 | for a whole run: the log chains from flat, every logged position is one of the levels 0 and plus or minus `max_position`, and log and prices alone determine every return, the equity curve and the total cost |
| Causality.NoLookAhead | packages/backtest/daily_engine.py:81-99 | two series with the same effective window, each clamped to its own length or to the count it shares with other assets, that agree on their first k closes get the same positions and the same log up to bar k, stop-loss state included |
| Causality.NoLookAheadInReturns | packages/backtest/daily_engine.py:81-119 | ... and the same returns and equity before bar k |
| Causality.LongHistoriesNeverLookAhead | packages/backtest/daily_engine.py:81-119 | both without the condition on windows, for series of any two lengths with two bars more than the requested slow window |
| Causality.PrefixStableIffSameWindow | packages/backtest/daily_engine.py:81-88 | appending history leaves every earlier decision alone exactly when both lengths clamp to the same slow window; otherwise concrete prices show a different target |
| Causality.ClampHiddenIff | packages/backtest/daily_engine.py:81-85 | a run does not show which of two shared counts it was clamped to, for any strategy with these windows and any prices, exactly when both clamp to one slow window |
| SharedWindow.OtherLengthHiddenIff | packages/backtest/daily_engine.py:177-193 | in a two-asset lab run, bars added to one asset leave the other asset's log alone, for all prices, exactly when both shorter lengths clamp to one slow window |
| StopLoss.PeakIsHighWater | packages/backtest/daily_engine.py:95-107 | the running peak is the high-water mark of the closes seen while long, never decreases, and the `min` of the short branch never lowers it |
| StopLoss.FiredIff | packages/backtest/daily_engine.py:100-109 | a stop fires exactly when a long closes at or below the trailing level or a short at or above the mirrored one |
| StopLoss.TargetIsGatedSignal | packages/backtest/daily_engine.py:100-111 | at every bar of every run the engine is flat exactly when some stop fired within the last `rebalance_days` bars, and otherwise takes its signal |
| StopLoss.StopsAreApart | packages/backtest/daily_engine.py:100-111 | two stops are at least `rebalance_days + 1` bars apart |
| StopLoss.CarriedPositionIsInsideStop | packages/backtest/daily_engine.py:100-111 | a position carried through a bar is strictly inside its stop, long and short |
| BreakoutRuns.PositiveThresholdIsInert | packages/backtest/daily_engine.py:71-78 | with a positive threshold a breakout never trades in either engine: no log, zero returns, equity that never moves |
| BreakoutRuns.ZeroThresholdBuysHighs | packages/backtest/daily_engine.py:71-75 | at threshold zero a long is taken exactly when the last close is the window maximum |
| BreakoutRuns.BreakoutInertIff | packages/backtest/daily_engine.py:71-78 | a breakout strategy never trades on any prices exactly when its threshold is positive |
| DocumentedTiming.DocumentedReturnIff | packages/backtest/daily_engine.py:5-6 | the contract in the module's header (the target of bar N earns bar N's return) holds on a bar of a run exactly when the target does not change there or the close does not move |
| DocumentedTiming.DocumentedIff | packages/backtest/daily_engine.py:5-6 | a strategy meets that contract at a bar, for all closes of a length, exactly when the slow window is not full there, or it is a breakout with a positive threshold, or momentum that is long-only with averages that can never be that far apart |
| DocumentedTiming.DocumentedReturnFails | packages/backtest/daily_engine.py:112-120 | runs on which it fails, for any windows and any length from four bars: an entry booked with nothing, where the documentation earns a half |
| VectorbtEngine.RunVectorbtAsset | packages/backtest/vectorbt_engine.py:97-153 | the compatible engine's loop returns exactly the specified weights, returns and log, and refuses fewer than four bars |
| VectorbtEngine.EquityCurve | packages/backtest/vectorbt_engine.py:156-161 | the equity curve is the compounded returns times the initial cash |
| VectorbtEngine.DrawdownCurve | packages/backtest/vectorbt_engine.py:58-64 | every point is measured against the running peak |
| VectorbtEngine.RunningPeakIsMaximum | packages/backtest/vectorbt_engine.py:59-62 | the running peak is the maximum so far |
| VectorbtEngine.DrawdownShape | packages/backtest/vectorbt_engine.py:58-64 | a drawdown is never positive; on positive equity it is above -1 and zero exactly at a new high |
| MomentumSimulation.StrategyMetrics | packages/backtest/engine.py:21-58 | the simulation's loop returns exactly the specified returns, trade count, turnover and exposure, and nothing below three closes |
| EngineAgreement.SameSignal | packages/backtest/vectorbt_engine.py:29-55 | bar by bar the lab signal is the compatible signal scaled by `max_position`, for momentum, mean reversion and breakout |
| EngineAgreement.EngineLogsAgree | packages/backtest/vectorbt_engine.py:121-154 | at any position bound and slippage the lab log is the compatible log scaled by the bound |
| EngineAgreement.EngineReturnsAgree | packages/backtest/vectorbt_engine.py:121-154 | every lab return is the scaled compatible return with that bar's slippage given back |
| EngineAgreement.EnginesEqualAtFullPosition | packages/backtest/vectorbt_engine.py:121-161 | at full position and zero slippage: equal returns, equal logs, and equity curves equal up to the initial cash |
| EngineAgreement.RelativeStrengthDisagrees | packages/backtest/daily_engine.py:71-78 | relative_strength at threshold zero: one engine reads it as breakout, the other as momentum, and they differ on a flat series |
| SignalReadings.LogsAgreeIff | packages/backtest/vectorbt_engine.py:29-55 | without a stop, the two engines log the same trades on every series of n closes, scaled by the position bound, exactly when the signal is not relative_strength, or its threshold is positive, it is long-only and its averages can never be that far apart |
| EngineAgreement.SimulationAgrees | packages/backtest/engine.py:38-53 | for long-only momentum at threshold zero beyond the window clamp the third engine gives the same returns, trade count and turnover |
| CrossSectional.ChooseTargets | packages/backtest/daily_engine.py:145-156 | the rebalancing branch, with Python's index -1, moves along the specified path of targets |
| CrossSectional.RunCrossSectional | packages/backtest/daily_engine.py:134-166 | the two-leg loop returns exactly the specified run, empty below `slow + 2` common bars |
| PairLedger.LogAnswersForEveryBar | packages/backtest/daily_engine.py:157-169 | replaying a two-leg run's log up to a bar gives both legs' positions there, however much is logged later |
| PairLedger.ReturnsBalance | packages/backtest/daily_engine.py:157-164 | conservation at every prefix of a two-leg run: summed returns are gross profit of both legs' logged positions less the fee rate times logged turnover |
| PairLedger.PairLogIsComplete | packages/backtest/daily_engine.py:134-169 | the log of a two-leg run, in bar order and each row a change, and the two price series alone determine every return, the equity curve and the total cost |
| PairRuns.PathIsLastDecision | packages/backtest/daily_engine.py:144-156 | closed form: the target is the decision of the latest rebalance bar with a full window behind it |
| PairRuns.MarketNeutral | packages/backtest/daily_engine.py:150-156 | with `long_short` the two targets sum to zero at every bar of every run |
| PairRuns.SharedMoveEarnsNothing | packages/backtest/daily_engine.py:157-162 | a move shared by both legs earns nothing but the fee |
| PairRuns.FollowsStrongerIff | packages/backtest/daily_engine.py:148-154 | a decision follows the spread exactly outside exit < spread <= entry, where the last branch buys the weaker leg |
| PairRuns.RunFollowsStronger | packages/backtest/daily_engine.py:144-156 | with entry <= exit every non-flat target of every run is long the leg with the greater measured momentum |
| PairRuns.DecisionSymmetricIff | packages/backtest/daily_engine.py:148-154 | swapping the legs swaps a decision exactly when the size of the spread is not in the band above exit and up to entry |
| PairRuns.SwapSymmetricIff | packages/backtest/daily_engine.py:144-156 | swapping the price series swaps the target at a bar, for all prices, exactly when entry <= exit or no decision has been made yet |
| PairRuns.CausalIff | packages/backtest/daily_engine.py:145-147 | the target at a bar depends on later closes exactly when the latest rebalance bar is the first full window itself, where the index is -1 |
| PairRuns.LastCloseDecides | packages/backtest/daily_engine.py:145-147 | two series that differ in their last close only, and the different targets they get |
| PairRuns.RunCausalIff | packages/backtest/daily_engine.py:134-156 | a whole run over a given number of bars never looks ahead, for any prices, exactly when the effective window is not a multiple of `rebalance_days` |
| PairHistory.PairPrefixStableIff | packages/backtest/daily_engine.py:134-156 | common bars appended to both legs leave every reported position alone, for all prices, exactly when neither run decides anything before the old end, or both run with one window that is no multiple of `rebalance_days` |
| PairRuns.CausalAfterFirstInterval | packages/backtest/daily_engine.py:144-156 | from one rebalance interval after the window on, every target is causal for every input |
| StableSorting.SortIsStable | packages/backtest/daily_engine.py:194 | sorting by time is ascending, keeps every item and keeps the order of simultaneous ones |
| Metrics.CalculateMetrics | packages/backtest/metrics.py:8-40 | the reported figures and the equity curve; the Sharpe ratio by its signed square, before rounding |
| Metrics.MaxDrawdown | packages/risk/drawdown.py:4-11 | the loop returns the worst fall from a running peak |
| Metrics.DrawdownIsWorstFall | packages/risk/drawdown.py:4-11 | on positive equity a fraction bounds the drawdown exactly when no point lies further than that below any earlier point |
| Metrics.CapitalIsCoveredIff | packages/backtest/metrics.py:27-34 | the curve starts after the first return: the drawdown also covers the initial capital exactly when no point lies further below it than the figure says |
| Metrics.OrderShowsInDrawdownOnly | packages/backtest/metrics.py:20-40 | permuting the returns changes no figure but the drawdown |
| Portfolio.MergedFactorIsProduct | packages/backtest/daily_engine.py:184-203 | merging by time permutes the returns, and the portfolio's total factor is the product of the assets' factors, whatever the bars and ties |
| Portfolio.RunLab | packages/backtest/daily_engine.py:172-203 | which windows are refused and why; a daily run's merged returns, equity, logs, metrics and those of every asset, with trades counted from the logs; a two-leg run over the joined closes of its two assets, and its metrics |
| Portfolio.CommonTimes | packages/backtest/daily_engine.py:131-133 | the shared timestamps, ascending, each once |
| CandlePaging.InRangeIsExact | packages/backtest/daily_data.py:57-66 | the one-shot query returns exactly the rows of the interval, a day apart |
| CandlePaging.FetchKlines | packages/backtest/daily_data.py:52-76 | the paging loop terminates and equals the one-shot query over [start, end], short of the row at `end` exactly when paging stops at the boundary |
| CandlePaging.BoundaryRowIsMissed | packages/backtest/daily_data.py:56-75 | 1001 daily rows of which it returns 1000 |
| CandlePaging.FetchAllPages | packages/backtest/daily_data.py:88-112 | the download loop collects every page it is served, in order, and ends |
| CandlePaging.Deduplicate | packages/backtest/daily_data.py:115-122 | the de-duplicating loop keeps the first row of every open time |
| CandlePaging.FirstOfEachAscends | packages/backtest/daily_data.py:113-121 | on sorted rows de-duplication is strictly ascending |
| CandlePaging.FirstOfEachAt | packages/backtest/daily_data.py:117-121 | it keeps, for each open time, the first row of that time and no other |
| CandlePaging.FetchHyperliquid | packages/backtest/daily_data.py:79-122 | however pages overlap: strictly ascending open times, exactly those served, each with its first row |
| Money.QuantizeIsClose | packages/gateway/pricing.py:68 | half-up rounding to 1e-8 moves an amount by at most half a quantum |
| Money.QuantizeFixesGrid | packages/gateway/pricing.py:68 | it lands on the grid and leaves exactly the grid alone |
| PriceCatalog.NormalizeOfficialPrices | packages/gateway/pricing.py:41-59 | the loop normalises a price list or refuses it |
| PriceCatalog.RefusedIff | packages/gateway/pricing.py:27-34 | a list is refused exactly when an entry with a key has an amount that is no non-negative number |
| PriceCatalog.NormalizeIsNormal | packages/gateway/pricing.py:41-59 | what it accepts has trimmed lower-case keys, non-negative amounts, units, and known extra fields only |
| PriceCatalog.NormalizeIsIdempotent | packages/gateway/pricing.py:41-59 | round trip: normalising a stored price map, listed in any order, gives it back |
| GatewayPricing.FinalPricesOf | packages/gateway/pricing.py:62-70 | marks up every price of the normalised list and keeps everything else; a bad markup or a refused list is an error |
| GatewayPricing.UsageCost | packages/gateway/pricing.py:73-103 | the billing loop returns the rounded sum over the billing table, or the refusal |
| PricingLaws.MarkupBound | packages/gateway/pricing.py:62-103 | for any usage and markup, what usage costs under the stored final prices, normalised again from any listing, is the multiplier times what it costs under the provider's list, up to 5e-9 times (billed quantity + 2 + m/10000) |
| PricingLaws.StoredPricesCost | packages/gateway/pricing.py:62-103 | costing the stored final prices, listed in any order, is costing the marked-up map: normalising it again changes nothing |
| PricingLaws.GridPricesAreCovered | packages/gateway/pricing.py:62-70 | official prices that are multiples of 1e-8 are covered by every markup |
| PricingLaws.NeverBelowCostIff | packages/gateway/pricing.py:62-103 | usage under the stored final prices never costs less than under the provider's list exactly when every billed key's retail price covers its official one |
| PricingLaws.OffGridPriceIsSoldBelowCost | packages/gateway/pricing.py:68 | a price off the grid that rounds to free |
| PricingLaws.PromptBilledOnceIff | packages/gateway/pricing.py:93-98 | every prompt token is billed exactly once exactly when there is a cache tariff or no cached token |
| PricingLaws.CompletionBilledOnce | packages/gateway/pricing.py:86-98 | every completion token is billed exactly once, with or without a reasoning tariff |
| PricingLaws.BilledTokensFallUnder | packages/gateway/pricing.py:73-103 | the units billed under each prompt tariff are the prompt tokens that fall under it: fresh, cached, long context |
| PricingLaws.BilledTwiceIff | packages/gateway/pricing.py:76-98 | a prompt token is billed twice exactly when it is a long-context token under a long-context tariff and has its input or cache tariff as well |
| PricingLaws.NeverDoubleBillsIff | packages/gateway/pricing.py:76-77 | a catalogue bills no prompt for more tokens than it has exactly when it has no long-context tariff or no other prompt tariff |
| PricingLaws.CostIsInvoice | packages/gateway/pricing.py:73-103 | for a token catalogue the loop computes the invoice a reader would write: fresh input, cached input, plain output, reasoning, each at its own tariff |
| PriceRevisions.Gateway.Bootstrap | packages/gateway/metadata.py:76-90 | creates exactly the models that are missing, pending |
| PriceRevisions.Gateway.FinalPricesOfStored | packages/gateway/metadata.py:170 | marking up a stored price map re-normalises it without drift |
| PriceRevisions.Gateway.SyncModel | packages/gateway/metadata.py:133-176 | one model of a sync: created if missing; a new price list becomes a pending revision, a seen one nothing, a refused one an error |
| PriceRevisions.Gateway.Sync | packages/gateway/metadata.py:107-200 | a whole sync is the specified one: bootstrap committed first, then every item, or a rollback to the bootstrap |
| PriceRevisions.Gateway.Approve | packages/gateway/metadata.py:233-251 | approval supersedes the model's active revision and activates the pending one; errors change nothing |
| PriceRevisions.Gateway.SetDefaultMarkup | packages/gateway/metadata.py:254-283 | a change of markup renews every model's current revision, in table order; an invalid one changes nothing |
| RevisionLaws.EveryRunIsConsistent | packages/gateway/metadata.py:107-283 | in every state any run reaches: a revision is active exactly when its model names it, every revision sells its official prices at its own markup, every recalculated one copies a superseded one, no price list is proposed twice |
| RevisionLaws.RunKeeps | packages/database/models.py:406-424 | rows are never removed, revisions change in nothing but their status, and that only pending to active to superseded |
| RevisionLaws.PricesComeFromAProposal | packages/gateway/metadata.py:266-277 | every revision, however often recalculated, sells the official prices of one synced proposal, marked up once |
| RevisionLaws.MarkupReprices | packages/gateway/metadata.py:258-280 | a change of markup keeps what is on sale and its official prices, and leaves everything at the new markup |
| RevisionLaws.MarkupsNeverCompound | packages/gateway/metadata.py:254-283 | after any chain of markup changes a model sells its earlier official prices marked up once by the last value |
| RevisionLaws.ApprovalKeepsUniformIff | packages/gateway/metadata.py:244-248 | approving keeps everything at the policy's markup exactly when the revision was proposed under that markup |
| RevisionLaws.SyncProposesOnlyNews | packages/gateway/metadata.py:155-176 | a sync adds exactly one pending revision for each offered price list never proposed before |
| RevisionLaws.SyncRefusedIff | packages/gateway/metadata.py:154-200 | a sync is refused exactly when some offered price list is |
| RevisionLaws.ResyncChangesNothing | packages/gateway/metadata.py:107-191 | repeating a sync of an unchanged catalogue changes nothing at all, refused or not |
| RevisionLaws.RevertedPricesAreNotProposedAgain | packages/gateway/metadata.py:156-163 | once a price list is superseded no run proposes it again, even when the provider returns to it |
| RelayDelivery.DeliveryTable.RecordDelivery | apps/imessage-relay/relay.py:177-197 | the upsert overwrites the outcome and keeps recipient and message of an existing row |
| RelayDelivery.DeliveryTable.Send | apps/imessage-relay/relay.py:274-313 | what /send does to the table is a look-up followed by a record; when it answers with a duplicate |
| RelayDelivery.DeliveryTable.SendMedia | apps/imessage-relay/relay.py:316-370 | the same for /send-media; invalid media leaves no record, unconvertible media a permanent failure, neither calls the provider |
| RelayDelivery.DeliveryTable.SendInboundReply | apps/imessage-relay/relay.py:200-216 | the same for the inbound thread's reply: always attempt one, never a back-off |
| DeliveryLaws.AtMostOneSuccess | apps/imessage-relay/relay.py:200-304 | over every interleaving in which the two processes never handle a key at the same time: at most one provider call for it succeeds, and one has exactly when the row says sent |
| DeliveryLaws.SentIsAbsorbing | apps/imessage-relay/relay.py:292-295 | ... and a sent row stays sent |
| DeliveryLaws.SendsTwiceIffCrossed | apps/imessage-relay/relay.py:200-216 | from a state that has sent a key at most once, finishing both requests in flight can send it twice exactly when both are for that key |
| DeliveryLaws.CrossingIsReachable | apps/imessage-relay/relay.py:225-231 | the two processes can reach that state |
| DeliveryLaws.CrossedReplyLosesSent | apps/imessage-relay/relay.py:207-215 | there a failed reply overwrites sent |
| DeliveryLaws.BackOffHolds | apps/imessage-relay/relay.py:295-304 | for keys only /send and /send-media use: a retryable row has one or two attempts behind it, and no provider call starts within one or five minutes of a retryable failure |
| DeliveryLaws.PermanentFailureIsTriedAgain | apps/imessage-relay/relay.py:292-301 | failed_permanent is not final: the next request goes to the provider at once |
| InboundWatermark.Poller.NewMessages | apps/imessage-relay/inbound.py:93-121 | a poll returns the decodable inbound rows of the second read above the watermark, and moves the watermark to the first read's maximum |
| InboundWatermark.Poller.InboundLoop | apps/imessage-relay/inbound.py:154-170 | the loop over any scripted environment hands on exactly the specified rows |
| InboundLaws.AtMostTwice | apps/imessage-relay/inbound.py:97-121 | over every run a row reaches the handler at most twice, only if inbound, never if it was there before the first poll |
| InboundLaws.MissedIff | apps/imessage-relay/inbound.py:97-169 | over every run: an inbound row the watermark has passed never reached the handler exactly when some poll lost it, its batch breaking before the row while the row was there at the first read, inbound and not yet handed on |
| InboundLaws.AtLeastOnce | apps/imessage-relay/inbound.py:97-121 | over every run without an error that escapes the inner handler: every inbound row the watermark has passed has reached it |
| InboundLaws.OnePollSuffices | apps/imessage-relay/inbound.py:100-121 | a row is handed on by the first completed poll after its arrival |
| InboundLaws.PassedRowsStayPassed | apps/imessage-relay/inbound.py:104-116 | once the watermark has passed a row no later poll hands it on |
| InboundLaws.BrokenBatchLosesItsTail | apps/imessage-relay/inbound.py:158-169 | an error that escapes the inner handler loses the rest of its batch: an inbound message there since the first read is missed for good |
| InboundLaws.LossIsReachable | apps/imessage-relay/inbound.py:158-169 | a run of two messages that loses the second |
| RelayEndToEnd.ReplyKeyInjective | apps/imessage-relay/inbound.py:164 | different rows have different reply keys |
| RelayEndToEnd.EndToEnd | apps/imessage-relay/inbound.py:154-170 | over every run of loop and relay as one machine: a message is handed on at most twice, its reply tried at most once for each time and sent at most once, exactly when its row says sent, unless an HTTP client uses its key |
| Rewards.RewardTable.Sums | packages/billing/rewards.py:50-53 | the three sums over the rows of one user and type |
| Rewards.RewardTable.GrantReward | packages/billing/rewards.py:21-77 | one grant and its ledger entry, or nothing, with the refusals in the source's order |
| RewardLaws.CapsHold | packages/billing/rewards.py:38-77 | in every state any interleaving reaches, for every user and type, the credits of any day, any month and all time are within the caps |
| RewardLaws.OneGrantPerKey | packages/database/models.py:302 | in every reachable state a key has at most one grant and each grant exactly its own ledger entry, and nothing recorded changes |
| RewardLaws.ReplayGrantsNothing | packages/billing/rewards.py:38-44 | a committed key grants nothing again |
| RewardLaws.LedgerMatchesGrants | apps/api/services/credit_service.py:82-97 | for every user the ledger total of grants equals the granted credits |
| Budgets.BudgetTable.GetOrCreatePolicy | packages/billing/budgets.py:43-62 | looks up the whole key, inserts its first 120 characters with the plan's limits, or meets the unique constraint |
| Budgets.BudgetTable.BudgetUsage | packages/billing/budgets.py:65-83 | daily and monthly usage: settlements where there are some, reservations otherwise, refunds not at all |
| Budgets.BudgetTable.AssertAutomationBudget | packages/billing/budgets.py:86-104 | the verdict in the source's order of reasons; a rejection pauses the policy |
| Budgets.BudgetTable.PauseAutomationBudget | packages/billing/budgets.py:107-114 | pauses the policy with the clipped reason |
| Budgets.BudgetTable.SettleTask | apps/api/services/credit_service.py:235-316 | a reserved row settles once, at the requested amount, or capped when the account cannot pay the overrun |
| Budgets.BudgetTable.RefundTask | apps/api/services/credit_service.py:330-376 | a reserved row is refunded, a settled one is not |
| BudgetLaws.LimitsHold | packages/billing/budgets.py:43-104 | in every state reached by a run whose settlements fit what is left of day and month, counted usage of an automation, however long its key, is within the daily and monthly limits of the policy it is held to |
| BudgetLaws.LimitsHoldIff | packages/billing/budgets.py:65-104 | an automation's limits hold at every point of a run exactly when every settlement of it fits what is left when it is made |
| BudgetLaws.FairRunsStayWithinLimits | packages/billing/budgets.py:65-104 | in particular the limits hold when no settlement charges more than was reserved |
| BudgetLaws.SettlementMovesUsage | apps/api/services/credit_service.py:263-313 | a settlement moves usage by exactly what it charges beyond the reservation |
| BudgetLaws.SettlementWithinLimitIff | apps/api/services/credit_service.py:269-296 | a settlement leaves its day and its month within the limits exactly when that overrun fits what is left of both |
| BudgetLaws.LimitsSurviveIff | apps/api/services/credit_service.py:269-296 | ... and then, and only then, every day and month of the automation stays within them |
| BudgetOverruns.OverrunExceedsLimit | apps/api/services/credit_service.py:278-296 | a run that leaves an automation above its daily limit, for any key, also one that is clipped |
| BudgetOverruns.OverrunExceedsMonth | apps/api/services/credit_service.py:278-296 | a run within every day that leaves it above its monthly limit |
| BudgetLaws.UnenforcedCountsNothing | apps/api/services/credit_service.py:168 | with usage not enforced a reservation changes no usage |
| BudgetOverruns.UnenforcedExceedsLimit | apps/api/services/credit_service.py:52-53 | ... so the day's credits pass the check twice, and settling both ends above the daily limit |
| BudgetLaws.PauseIsSticky | packages/billing/budgets.py:91-103 | after a persisted pause every check of that automation rejects, with the budget's reason or, for a key over 120 characters, by the unique constraint, and it gets no further reservation |
| BudgetLaws.OneReservationPerKey | packages/database/models.py:225 | in every reachable state an idempotency key has at most one reservation |
| BudgetLaws.SecondLookupWorksIff | packages/billing/budgets.py:44-62 | a policy's next look-up works exactly when the key has at most 120 characters |
| BookShape.DescribeBook | packages/decisions/redaction.py:124-151 | the loops compute exactly the specified shape of the positions' notionals |
| BookShape.ShapeIsScaleFree | packages/decisions/redaction.py:124-151 | multiplying every notional by any positive factor leaves the shape as it is |
| BookShape.ConcentrationBounds | packages/decisions/redaction.py:141-143 | the Herfindahl index is between 1/n and 1, is 1 exactly for a single held position and 1/n exactly for equal sizes |
| BookShape.ShapeIsBounded | packages/decisions/redaction.py:139-151 | both figures exist exactly when something is held; net to gross is within -1 and 1, 1 exactly without shorts, -1 exactly without longs |
| Redaction.TallyRows | packages/decisions/redaction.py:268-275 | the tally's loop |
| Redaction.TallyCounts | packages/decisions/redaction.py:268-275 | a tally counts every label exactly as often as it occurs |
| Redaction.DescribeActivity | packages/decisions/redaction.py:154-171 | the activity loop: kinds tallied, non-empty symbols collected |
| Redaction.PickIsExact | packages/decisions/redaction.py:118-121 | a pick holds exactly the allow-listed fields that are there, each with its own value |
| RedactionLaws.NonInterference | packages/decisions/redaction.py:182-265 | views that agree on allow-listed fields, counts and labels, with notionals equal up to a positive factor, redact to identical states |
| ScaleGuard.AssertNoAbsoluteScale | packages/decisions/redaction.py:307-324 | the recursive guard accepts exactly the values with no number under a marked name at any depth |
| ScaleGuard.RenderedIsSafeIff | packages/decisions/redaction.py:307-324 | the guard accepts the dictionary an output is exactly when every part of the output is safe under its name |
| Rendering.ProjectIsWellNamed | packages/decisions/redaction.py:182-265 | the projection names every field of every dictionary once, so nothing in it is overwritten |
| TextOrder.SortedTextsAreExact | packages/decisions/redaction.py:170 | sorting a set of names lists exactly its names, strictly ascending |
| ScaleGuard.GuardPassesIff | packages/decisions/redaction.py:182-265 | the dictionary a redacted state is passes the guard exactly when every value passed through may stand under its name and no tallied label is marked |
| ScaleGuard.OrdinaryViewsPass | packages/decisions/redaction.py:307-324 | with scalars, a non-numeric unit, a boolean has_liquidation_price and unmarked labels that dictionary always passes |
| FieldNames.MarkedNames | packages/decisions/redaction.py:285 | of the projection's names quantity_unit and has_liquidation_price do carry a marker |

## Left out

- Floating-point rounding, NaN and infinities, and the rounding of reported figures: arithmetic is exact except for the 1e-8 quantisation.
- The 28-digit precision of Decimal arithmetic, and trailing zeros of a decimal's text in a price hash.
- Metrics.CalculateMetrics: rounding, and the square root in the Sharpe ratio, which is given by its signed square.
- The benchmark curve and charts of the compatible engine, and its merging of several assets (the lab engine's merge is modelled).
- The native VectorBT, Nautilus and QuantStats paths: their libraries are not part of this model.
- InboundWatermark.Poller.NewMessages: the text of a message is given, so `_message_text` decoding of attributed bodies is not modelled.
- PriceCatalog.NormalizeOfficialPrices: stripping and lower-casing cover ASCII only, and text that spells a number is treated like the number.
- CandlePaging.FetchHyperliquid: completeness of the download is not claimed, since the server may return any page; only termination, order and de-duplication are.
- CandlePaging.FetchAllPages: requires of the server that a page ends less than a day before the cursor asked for, without which the source's loop does not end.
- RelayEndToEnd.EndToEnd: crash recovery between a provider call and its record, and deleted rows in the Messages database.
- Redaction.DescribeActivity: sorted name lists are given by their sets, and the order of dictionary keys is not kept.
- RedactionLaws.NonInterference: which text parses as a number is a parameter of the model.
- BudgetLaws.LimitsHold: limits stay as the plan set them, since changing them is not among these functions, and a transaction makes one reservation.
- Budgets.BudgetTable.SettleTask: the look-up of the reservation by key, the settlement record and the balance postings are left to the credit service.
- Retry keys of terminal reservations, stale-reservation recovery and account reconciliation in the credit service.
- Provider and model metadata other than prices, synchronisation records and security events in the gateway.
- HTTP, signatures, AppleScript, audio conversion, Redis, Celery, settings and plan tables beyond those cited: input and output, or only easy members.
