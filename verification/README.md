# rlean, modelled and proved

A Dafny model of the state machines, loops and encodings at the heart of the rlean trading engine, with
proofs of what they promise. Check it with `dafny verify dfyconfig.toml`.

Prices, quantities and cash are exact reals, timestamps integer nanoseconds. A symbol is its 64-bit `sid`
together with the facts the logic reads from it. Where the program changes an object in place, the model
has a class whose methods are specified by a function of the old state; what holds over whole runs is then
proved of those functions.

| files | what they model |
|---|---|
| `Coverage`, `HistoryRows`, `CanonicalRows`, `CacheFirst` | cache-first history: interval subtraction, sort and de-duplicate, the durable store with dropped appends, the queue of remembered coverage |
| `Holdings`, `Portfolio`, `PortfolioSums`, `PortfolioManager` | fills, marks, the two cash-settlement conventions, one equity identity over every run, and what a run leaves in terms of its events |
| `Funding`, `FundingRuns`, `FundingOverRuns` | funding times, the catch-up loop, and how charges telescope over whole portfolio runs |
| `BuyingPower`, `Solvency`, `MarginPools` | margin in use, order validation, and what acceptance guarantees |
| `Sizing`, `FeeLoops`, `SizingFees`, `SizingCycles` | rounding to lots, the adjustment loop, the fee loop, and exactly when it ends |
| `Renko`, `RenkoChain`, `RenkoConsolidator` | wicked Renko bricks and their queue |
| `Removal`, `RemovalRuns`, `RemovalEffects`, `RemovalOrder`, `RemovalCancels`, `RemovalFills`, `RemovalProtocol` | deferred security removal: its two generation barriers, that requests are carried out, and what a removal leaves of a position |
| `LinearSolve`, `Ranks` | Gauss-Jordan elimination with partial pivoting; tie-averaged ranks |
| `Quotes`, `QuoteContents`, `QuoteShards`, `QuoteBarsAgree`, `QuoteAccumulators` | quote bars aggregated by UTC day and page, and exactly when that is one pass |
| `Sid`, `SidVectors`, `Calendar`, `OptionTicker` | packed identifiers in base 36 and the texts LEAN gives to six of them; option tickers printed and parsed |
| `TradeBars`, `BarCount` | bar-count consolidation |
| `Insights`, `InsightRuns`, `InsightTimes`, `InsightCollection` | insight bookkeeping and its snapshots |
| `Results`, `Reals`, `Division`, `Ascii`, `Symbols`, `Sorting`, `MapSums`, `OrderedKeys` | shared vocabulary |

## What the model shows about the code

- Renko bricks do not depend on the sampling rate, except around the first close: it is rounded to the
  grid, so a price inserted between it and the second close shows as a wick unless it lies on the way from
  the *rounded* price (`Renko.FirstInsertionNeverShowsIff`, `Renko.FirstInsertionShows`).
- Sharding quotes by UTC day gives the bars of one pass exactly when no two days of the requested range share
  a bar that is handed out (`QuoteBarsAgree.SameBarsIff`): always for periods that divide the day
  (`QuoteBarsAgree.DividingPeriodsAgree`), and not for a daily session that crosses UTC midnight, whose later
  shard overwrites the earlier (`QuoteBarsAgree.NightSessionIsCut`).
- Removing a security both cancels its market orders in flight and deducts them from the closing order, as if
  they were going to fill. Once the cancellations are acknowledged the position ends closed only if those
  orders netted to zero (`RemovalCancels.RemovalClosesIff`, `RemovalCancels.RemovalOversells`).
- Funding is charged for the boundaries passed since the last observation, also those passed while the
  position was flat (`FundingOverRuns.FlatTimeIsCharged`).
- The fee loop of order sizing ends for every portfolio value, power and fee exactly from the lot-aligned
  holdings (`SizingCycles.LoopEndsIff`). From any other holding two orders can alternate for ever, and
  without lots the orders can shrink for ever; `SizingCycles.UnalignedHoldingCycles` is an ordinary case.
- Where the margin of a rounded holding lies beyond the target, the adjustment loop leaves the order one lot
  further than it started and reports the margin from before that move (`Sizing.ReportedMarginIsTrueIff`).
  Lot-aligned holdings never get there.
- The plain equity identity breaks exactly when a fill changes the multiplier of an open, paid-for position
  that carries cost (`Portfolio.FillKeepsIdentityIff`, `Portfolio.MultiplierChangeBreaksIdentity`).
- `submit_order` does not refuse an order on a symbol without a `Security`; the safety of removal therefore
  rests on callers placing orders on present securities (`Removal.SubmissionIsSafeIff`,
  `Removal.UnknownSymbolBreaksSafety`).
- Bars can come out with duplicates: de-duplication only compares neighbours, so two identities that
  alternate at one end time survive (`HistoryRows.BarsDuplicateFreeIff`, `HistoryRows.AlternatingVenuesStay`).
  No order of delivery can do that exactly when no two identities end together
  (`HistoryRows.EveryAnswerDuplicateFreeIff`), as with universe rows.
- A strike with more than six decimals is truncated in a packed identifier (`Sid.StrikeDecodesIff`,
  `Sid.SeventhDecimalIsLost`), and a put dated after day 84467 would not fit 64 bits (`Sid.FitsIff`,
  `Sid.LatePutWraps`).

## Model

| member | source | states |
|---|---|---|
| Coverage.Missing | crates/rlean-data-providers/src/history.rs:192-221 | The sweep returns the requested range minus the covered union in normal form: sorted, disjoint gaps, no two touching, covering exactly the uncovered requested instants, for any unsorted overlapping input |
| Coverage.MissingIsUnique | crates/rlean-data-providers/src/history.rs:192-221 | That normal form is the only list of separated gaps covering those instants, so the answer does not depend on the order of the stored ranges |
| Coverage.RecordedGapsCloseTheRange | crates/rlean-data-providers/src/history.rs:192-221 | Adding the gaps found to the coverage leaves nothing missing |
| HistoryRows.CanonicalRepresents | crates/rlean-data-providers/src/history.rs:122-181 | Sorting and de-duplicating keeps one row of every identity, invents none, and sorts |
| CanonicalRows.CanonicalIsInOrder | crates/rlean-data-providers/src/history.rs:122-181 | Canonical rows ascend in end time; within one end time universe rows ascend by symbol and custom points by time |
| CanonicalRows.CanonicalKeepsFirst | crates/rlean-data-providers/src/history.rs:122-181 | No record is lost, and of records of one thing (bars that differ at most in payload, universe rows of one date and symbol) the first delivered comes first |
| CanonicalRows.CanonicalNeighboursDiffer | crates/rlean-data-providers/src/history.rs:122-181 | No two neighbouring rows are records of one thing; of custom points nothing is dropped |
| CanonicalRows.UniverseHasOneOfEach | crates/rlean-data-providers/src/history.rs:161-170 | Of universe rows exactly one is left of each date and symbol |
| HistoryRows.UniverseHasOneIdentityPerKey | crates/rlean-data-providers/src/history.rs:161-170 | Universe rows sort by their own identity, so equal keys are equal rows |
| HistoryRows.CanonicalIsStrict | crates/rlean-data-providers/src/history.rs:122-181 | With one identity per sort key the result is strictly ordered and duplicate free |
| HistoryRows.BarsDuplicateFreeIff | crates/rlean-data-providers/src/history.rs:122-145 | Bars come out duplicate free if and only if no two identities alternate among the input rows of one end time |
| HistoryRows.EveryAnswerDuplicateFreeIff | crates/rlean-data-providers/src/history.rs:122-145 | Every complete answer of bars to a range, however ordered and repeated, comes out duplicate free if and only if no two identities of the series in that range end together |
| HistoryRows.AlternatingVenuesStay | crates/rlean-data-providers/src/history.rs:122-145 | A failing input: one venue, another, and the first again at one end time leave a duplicate |
| HistoryRows.CanonicalKeepsRows | crates/rlean-data-providers/src/history.rs:122-181 | De-duplicating a complete answer loses none of the series' rows in range |
| HistoryRows.UniverseKeysAreDistinct | crates/rlean-data-providers/src/history.rs:161-170 | Universe series always have one row per sort key |
| HistoryRows.AnswersAgree | crates/rlean-data-providers/src/history.rs:122-181 | Any two complete answers to a range, in whatever order and with whatever repeats, have the same canonical form |
| CacheFirst.RowsInRange | crates/rlean-data-providers/src/history.rs:578-643 | Filtering keeps exactly the rows that lie in the range, in order |
| CacheFirst.ServesIff | crates/rlean-data-providers/src/history.rs:421-434 | A remembered entry serves exactly the requests of its subscription that ask for no instant outside its range |
| CacheFirst.HistoricalDataProvider.GetHistory | crates/rlean-data-providers/src/history.rs:252-252 | A provider answers a range with exactly its series' rows there, in any order and with repeats, or fails |
| CacheFirst.HistoricalDataStore.ReadCoverage | crates/rlean-data-providers/src/history.rs:338-338 | The durable coverage of the subscription, or an error that changes nothing |
| CacheFirst.HistoricalDataStore.Read | crates/rlean-data-providers/src/history.rs:339-339 | The stored rows of the range, or an error that changes nothing |
| CacheFirst.HistoricalDataStore.Append | crates/rlean-data-providers/src/history.rs:340-345 | A persisted batch is stored whole; a dropped or failed one may be stored in part; coverage does not move |
| CacheFirst.HistoricalDataStore.MarkCovered | crates/rlean-data-providers/src/history.rs:346-346 | Coverage gains at most the marked range, and gains it when the call succeeds |
| CacheFirst.CacheFirstHistoryProvider.constructor | crates/rlean-data-providers/src/history.rs:407-419 | Over any sound store a new provider is valid: nothing is remembered yet |
| CacheFirst.CacheFirstHistoryProvider.LookUp | crates/rlean-data-providers/src/history.rs:421-434 | Finds the newest remembered coverage that contains the request, if any |
| CacheFirst.CacheFirstHistoryProvider.Remember | crates/rlean-data-providers/src/history.rs:436-449 | Appends to the queue of at most 8192, dropping the oldest entry when it is full, and stays sound |
| CacheFirst.CacheFirstHistoryProvider.PrefetchHistory | crates/rlean-data-providers/src/history.rs:645-661 | Warms the queue with durable coverage of every request, in whatever order the reads complete, or leaves it alone when a read fails; when only the prefetch of the store fails it stays warmed |
| CacheFirst.CacheFirstHistoryProvider.FetchGap | crates/rlean-data-providers/src/history.rs:598-629 | One gap asked for once and persisted: it is marked covered only once every row of it is stored; a dropped batch keeps its rows in memory |
| CacheFirst.CacheFirstHistoryProvider.FetchMissing | crates/rlean-data-providers/src/history.rs:597-629 | After the loop every requested row is stored or held in memory, coverage grew only inside the range, and the invariant holds also on an error half way |
| CacheFirst.CacheFirstHistoryProvider.GetHistory | crates/rlean-data-providers/src/history.rs:578-643 | A successful read returns exactly the rows of the series in the range, end times ascending (universe rows then by symbol, custom points by time) and no neighbours alike, having asked the provider for the gaps of the known coverage once each and for nothing else; a read whose range is covered asks no provider; durable coverage never speaks for a row the store lacks, also when appends are dropped or calls fail |
| CacheFirst.CacheFirstHistoryProvider.CompleteRowsRefine | crates/rlean-data-providers/src/history.rs:630-643 | The canonical form of the merged rows is the canonical form of any answer of the provider to the whole range |
| CacheFirst.Serve | crates/rlean-data-providers/src/history.rs:578-661 | Over every run of prefetches and reads, whatever fails on the way, every successful read is in time order and refines the provider, and the cache stays sound |
| Holdings.FillAccountsForNotional | crates/rlean-algorithm/src/portfolio.rs:155-187 | Through opening, adding, partial closing, closing and reversing, realized profit less the change in cost basis is minus the notional traded |
| Holdings.ReducingKeepsAverage | crates/rlean-algorithm/src/portfolio.rs:166-182 | A fill against less than the whole position keeps its average cost and realizes price less average on the units closed; of a crypto future that profit less the fee is the cash settled |
| Holdings.ClosingRealizesAll | crates/rlean-algorithm/src/portfolio.rs:166-182 | A fill of the whole position realizes it all and leaves no cost; one beyond it leaves the rest at the price of the fill |
| Holdings.AddingBlends | crates/rlean-algorithm/src/portfolio.rs:160-166 | A fill that opens or adds realizes nothing and blends the costs unit by unit |
| Holdings.SplitFillsAgree | crates/rlean-algorithm/src/portfolio.rs:155-187 | A fill taken in two parts at one price leaves the holding that the whole fill does, across opening, adding, reducing, closing and reversing |
| Holdings.SettlementIsCashMoved | crates/rlean-algorithm/src/portfolio.rs:409-434 | The cash one fill settles, under either convention, is the change in what the position has moved in cash |
| Holdings.ValueIsProfit | crates/rlean-algorithm/src/portfolio.rs:141-153 | What a marked position moved in cash plus its value contribution is its profit less fees plus funding, for both conventions |
| Holdings.RemultiplyRebasesCost | crates/rlean-algorithm/src/portfolio.rs:111-114 | Changing the multiplier of an open position re-bases its cost by an exact amount |
| Holdings.SecurityHolding.constructor | crates/rlean-algorithm/src/portfolio.rs:88-101 | A new holding is flat, free of fees and profit, with the multiplier given |
| Holdings.SecurityHolding.UpdatePrice | crates/rlean-algorithm/src/portfolio.rs:148-152 | Marks the holding at a price: unrealized profit follows, nothing else moves |
| Holdings.SecurityHolding.ApplyFill | crates/rlean-algorithm/src/portfolio.rs:155-187 | The in-place fill takes the holding to the state the fill function gives |
| Portfolio.StepKeepsBalance | crates/rlean-algorithm/src/portfolio.rs:300-473 | Every fill, price, target, funding observation and removal keeps the books balanced: cash is what the positions moved, fees and funding are their sums |
| Portfolio.EquityIdentity | crates/rlean-algorithm/src/portfolio.rs:141-187 | Over every run on many holdings, total value is starting cash + realized + unrealized profit - fees + funding, up to the cost re-based by multiplier changes on open positions |
| Portfolio.EquityIdentityWithFixedMultipliers | crates/rlean-algorithm/src/portfolio.rs:331-340 | The plain identity for every run that keeps multipliers fixed while invested |
| Portfolio.FillKeepsIdentityIff | crates/rlean-algorithm/src/portfolio.rs:409-434 | A fill keeps the plain identity if and only if its position is a crypto future, flat, free of cost, or keeps its multiplier |
| Portfolio.MultiplierChangeBreaksIdentity | crates/rlean-algorithm/src/portfolio.rs:409-434 | A failing run: one unit bought at 10 and added to under twice the multiplier puts the identity off by 10 |
| PortfolioSums.PositionsAreSumsOfFills | crates/rlean-algorithm/src/portfolio.rs:409-434 | Over every run a position is what was bought less what was sold; a symbol without an entry is flat |
| PortfolioSums.CashIsWhatWasSpent | crates/rlean-algorithm/src/portfolio.rs:409-434 | Over every run of paid-for securities cash is the starting cash less what the fills were worth and their fees, plus funding; total fees are the fees of the fills |
| PortfolioSums.HoldingsAreMarkedLast | crates/rlean-algorithm/src/portfolio.rs:562-575 | Over every run that does not remove the entry, a holding is marked at the last positive price filled or quoted and carries the last target set |
| PortfolioSums.EntriesOpenInferred | crates/rlean-algorithm/src/portfolio.rs:103-109 | A price or a target opens an entry with a hundred units per option contract and one otherwise |
| PortfolioSums.FlatHoldingsCostNothing | crates/rlean-algorithm/src/portfolio.rs:155-187 | Over every run without fills of nothing, an entry that holds nothing has an average cost of zero |
| PortfolioSums.RemovesExactlyIdle | crates/rlean-algorithm/src/portfolio.rs:310-321 | Removing a flat holding drops its entry and funding time exactly when it is neither held nor targeted, and nothing else |
| PortfolioSums.FillInPartsAgrees | crates/rlean-algorithm/src/portfolio.rs:409-434 | A fill taken in two parts at one price and multiplier leaves the portfolio, cash and fees included, that the whole fill does |
| PortfolioSums.FlatObservationForgets | crates/rlean-algorithm/src/portfolio.rs:436-473 | A rate observed while the position is flat or unpriced charges nothing and forgets when funding was due |
| PortfolioManager.SecurityPortfolioManager.constructor | crates/rlean-algorithm/src/portfolio.rs:206-219 | A new portfolio holds its starting cash and nothing else |
| PortfolioManager.SecurityPortfolioManager.Entry | crates/rlean-algorithm/src/portfolio.rs:393-434 | Opens the symbol's entry only if absent; no other entry changes |
| PortfolioManager.SecurityPortfolioManager.Settle | crates/rlean-algorithm/src/portfolio.rs:409-434 | Fills one entry of the book and settles it: cash moves by the settlement, fees by the fee, other entries stand |
| PortfolioManager.SecurityPortfolioManager.ApplyFill | crates/rlean-algorithm/src/portfolio.rs:409-434 | The method takes the fill step of the state machine, whole book included |
| PortfolioManager.SecurityPortfolioManager.UpdatePrices | crates/rlean-algorithm/src/portfolio.rs:562-575 | Takes the price step; a non-positive price is ignored |
| PortfolioManager.SecurityPortfolioManager.SetTarget | crates/rlean-algorithm/src/portfolio.rs:300-308 | Takes the target step |
| PortfolioManager.SecurityPortfolioManager.RemoveHoldingIfFlat | crates/rlean-algorithm/src/portfolio.rs:310-321 | Removes the entry exactly when it is neither invested nor targeted |
| PortfolioManager.SecurityPortfolioManager.ApplyMarginInterestRate | crates/rlean-algorithm/src/portfolio.rs:436-473 | Takes the funding step: the position, cash, total and schedule all move as the catch-up count says; a charge is returned exactly when that count is positive, and it is the cash moved |
| PortfolioManager.SecurityPortfolioManager.ChargeUntil | crates/rlean-algorithm/src/portfolio.rs:462-467 | The catch-up loop ends and charges once for each funding time reached |
| PortfolioManager.SecurityPortfolioManager.TotalPortfolioValue | crates/rlean-algorithm/src/portfolio.rs:331-340 | Cash plus every holding's contribution, in whatever order the map yields them |
| Funding.EightHourRuleIsArithmetic | crates/rlean-algorithm/src/portfolio.rs:37-51 | The calendar eight-hour rule is the next multiple of eight hours |
| Funding.NextFundingIsNextBoundary | crates/rlean-algorithm/src/portfolio.rs:33-61 | The next funding time is the first period boundary strictly after the given time |
| Funding.CatchUpCounts | crates/rlean-algorithm/src/portfolio.rs:462-467 | From any boundary the loop charges once per boundary reached and stops on the first boundary after the observation |
| Funding.ChargesOfADay | crates/rlean-algorithm/src/portfolio.rs:33-61 | Over one UTC day a perpetual future of Hyperliquid is charged 24 times, any other security three times |
| Funding.NextOfAMorning | crates/rlean-algorithm/src/portfolio.rs:33-61 | At 9:30 UTC of a certain day the next funding is at 10:00 for the hourly ones and at 16:00 for the others |
| FundingOverRuns.OtherEventsKeepFunding | crates/rlean-algorithm/src/portfolio.rs:300-473 | Fills, marks, targets, removals and the events of other symbols leave a symbol that stays in the book with the schedule and the funding it had, open or flat |
| FundingOverRuns.ObservationCharges | crates/rlean-algorithm/src/portfolio.rs:436-473 | One observation charges for the boundaries it is the first to reach, at the market value of the moment, and moves the schedule behind the newest |
| FundingOverRuns.FundingTelescopesOverRun | crates/rlean-algorithm/src/portfolio.rs:436-473 | Over any portfolio run in which the symbol stays in the book and is invested and priced at each of its own observations, flat or not in between: the schedule stands on the first boundary after its newest observation, the charges number floor of the latest minus floor of the first, and the cash moved and the funding of the position are those charges, each at the rate and market value of its own moment |
| FundingOverRuns.ConstantValueOwes | crates/rlean-algorithm/src/portfolio.rs:436-473 | Where the market value is the same at every observation, the run owes that value times the rate of each observation and the boundaries it is the first to reach |
| FundingOverRuns.FlatTimeIsCharged | crates/rlean-algorithm/src/portfolio.rs:436-473 | A position closed after one observation and reopened before the next pays for the boundaries passed while it was flat |
| FundingRuns.UniformRateCharges | crates/rlean-algorithm/src/portfolio.rs:436-473 | At one rate that is rate times (boundary reached - floor(t_first / H)) |
| FundingRuns.OrderedObservationsReachTheLast | crates/rlean-algorithm/src/portfolio.rs:436-473 | For observations in time order the boundary reached is floor(t_last / H) |
| BuyingPower.MarginIsProportional | crates/rlean-algorithm/src/buying_power.rs:86-121 | Initial margin is the unit margin times the absolute quantity |
| BuyingPower.MarginCoversNotional | crates/rlean-algorithm/src/buying_power.rs:78-105 | Initial margin times the leverage, one for a cash account, is the notional value, for every quantity, price and multiplier |
| Solvency.MarginUsedAfterOrder | crates/rlean-algorithm/src/qc_algorithm.rs:905-968 | The accumulation loop is the margin of every pooled holding with the order added to its own, or opened; an order on a symbol without a security counts for nothing |
| Solvency.ComputePortfolioValue | crates/rlean-algorithm/src/qc_algorithm.rs:1834-1859 | The loop is cash plus every invested holding at its security's price |
| MarginPools.ValueMarksHoldings | crates/rlean-algorithm/src/qc_algorithm.rs:1834-1859 | The portfolio's value is its cash and what its holdings would contribute, marked at their securities' prices |
| MarginPools.ValueIsTotalValue | crates/rlean-algorithm/src/qc_algorithm.rs:1834-1859 | Where those are the prices the holdings are marked at, it is the total value of the equity identity |
| MarginPools.OnlyOwnPoolCounts | crates/rlean-algorithm/src/qc_algorithm.rs:905-968 | One holding more moves the margin an order requires by its own notional over its leverage, if both are crypto futures of one quote currency or neither is one, and otherwise not at all |
| MarginPools.OrderTakesUp | crates/rlean-algorithm/src/qc_algorithm.rs:905-968 | The order's own holding counts with the order added to it, at the price of the order, in place of what it takes up now |
| Solvency.ValidateOrderBuyingPower | crates/rlean-algorithm/src/qc_algorithm.rs:1033-1076 | Accepts a completed order, rejects a missing security or price, and otherwise accepts exactly when required margin is within max(collateral - fee, 0) |
| Solvency.ValidatedMarginIsUsed | crates/rlean-algorithm/src/qc_algorithm.rs:905-968 | The margin validated is the margin in use once the order is filled in full at the security's price |
| Solvency.FillAtPriceCostsTheFee | crates/rlean-algorithm/src/portfolio.rs:409-434 | A paid-for fill at the security's price changes the portfolio's value by exactly its fee |
| Solvency.AcceptedExactlyWhenSolvent | crates/rlean-algorithm/src/qc_algorithm.rs:1033-1076 | A paid-for order is accepted if and only if margin in use after its fill is within max(0, portfolio value after it) |
| Solvency.AcceptedCryptoFuture | crates/rlean-algorithm/src/qc_algorithm.rs:1033-1076 | A crypto-future order is accepted if and only if its margin is within the cash after the fill less the profit the fill realizes |
| Renko.ClosestMultipleIsNearest | crates/rlean-consolidators/src/renko_consolidator.rs:59-64 | Rounding finds a grid line, and no grid line is closer |
| Renko.FeedSettles | crates/rlean-consolidators/src/renko_consolidator.rs:157-256 | Every update leaves a body with no brick due, open and close within its wicks |
| Renko.EmissionSplits | crates/rlean-consolidators/src/renko_consolidator.rs:66-94 | Stopping on the way up splits one emission in two without changing a brick |
| Renko.RateIndependence | crates/rlean-consolidators/src/renko_consolidator.rs:157-256 | In every direction state, reversals included, a price between two consecutive closes can be inserted: same bricks, same body |
| Renko.InsertionChangesNothing | crates/rlean-consolidators/src/renko_consolidator.rs:157-256 | The same over whole runs: the sequence of bricks and the final body are unchanged |
| Renko.FirstInsertionIff | crates/rlean-consolidators/src/renko_consolidator.rs:157-190 | After the very first close, a price on the way to the second leaves no trace if and only if it lies on the way from the rounded first close |
| Renko.FirstInsertionShows | crates/rlean-consolidators/src/renko_consolidator.rs:157-190 | A failing input: bricks of 1, closes 0.4 and -0.5, and 0.3 inserted between them |
| Renko.FirstInsertionNeverShowsIff | crates/rlean-consolidators/src/renko_consolidator.rs:157-256 | Whatever closes follow, a price inserted after the very first close leaves no trace in the bricks or the body if and only if it lies on the way from the rounded first close |
| RenkoChain.BricksChain | crates/rlean-consolidators/src/renko_consolidator.rs:66-124 | Over every run each brick spans one grid step within its wicks; a same-direction successor opens at the last close, a reversal at the last open |
| RenkoChain.FeedChains | crates/rlean-consolidators/src/renko_consolidator.rs:157-256 | One update extends the chain |
| RenkoConsolidator.RenkoConsolidator.constructor | crates/rlean-consolidators/src/renko_consolidator.rs:39-56 | Starts with no tick, no brick and an empty queue |
| RenkoConsolidator.RenkoConsolidator.EmitRising | crates/rlean-consolidators/src/renko_consolidator.rs:66-94 | The emission loop ends and queues exactly the rising bricks, in order, with their times |
| RenkoConsolidator.RenkoConsolidator.EmitFalling | crates/rlean-consolidators/src/renko_consolidator.rs:96-126 | The same downwards |
| RenkoConsolidator.RenkoConsolidator.Update | crates/rlean-consolidators/src/renko_consolidator.rs:157-256 | Feeds one close: what is returned and queued is the old queue followed by the new bricks; the state is settled |
| RenkoConsolidator.RenkoConsolidator.DrainPending | crates/rlean-consolidators/src/renko_consolidator.rs:280-282 | Hands out the whole queue in order and empties it |
| RenkoConsolidator.RenkoConsolidator.Reset | crates/rlean-consolidators/src/renko_consolidator.rs:258-271 | Back to the first tick, with nothing queued |
| RenkoConsolidator.Consume | crates/rlean-consolidators/src/renko_consolidator.rs:157-282 | Over any run, drained or not, the bars handed out followed by the queue are the bricks emitted, none lost, doubled or overtaken; each begins where the one before it ended and ends at the update of its symbol that emitted it |
| Removal.SubmissionIsSafeIff | crates/rlean-algorithm/src/qc_algorithm.rs:1119-1131 | A submission keeps every order backed by a security if and only if the symbol has one or the order is refused; an unknown symbol is not refused |
| Removal.UnknownSymbolBreaksSafety | crates/rlean-algorithm/src/qc_algorithm.rs:1119-1131 | A failing input: an accepted order on a symbol the algorithm never added |
| Removal.FlattenIsSafe | crates/rlean-algorithm/src/qc_algorithm.rs:1705-1755 | Liquidation keeps the state safe, with or without a security for the symbol |
| Removal.DetachedIsSafe | crates/rlean-algorithm/src/qc_algorithm.rs:2073-2098 | Marking a present security untradable and filing it under the direct clock keeps the state safe |
| Removal.UniverseRequestedIsSafe | crates/rlean-algorithm/src/qc_algorithm.rs:2109-2120 | A universe request keeps the two files disjoint |
| Removal.ProcessedIsSafe | crates/rlean-algorithm/src/qc_algorithm.rs:2245-2272 | Removing the safe ones of an eligible set keeps every position and order backed |
| Removal.StepKeepsSafe | crates/rlean-algorithm/src/qc_algorithm.rs:2044-2272 | Every step of the protocol keeps safety, orders being placed on present securities |
| RemovalRuns.RemovalSafety | crates/rlean-algorithm/src/qc_algorithm.rs:2044-2272 | Over every run: no holding or open order without its security, and the pending set is the disjoint union of both files inside the securities |
| RemovalRuns.NeededIsNeverRemoved | crates/rlean-algorithm/src/qc_algorithm.rs:2154-2194 | No step removes a held, ordered, targeted or unsettled security, nor the underlying of a held, ordered or targeted one |
| RemovalRuns.DirectBarrier | crates/rlean-algorithm/src/qc_algorithm.rs:2222-2235 | After a direct request the security stays over any run that does not advance the time step |
| RemovalRuns.UniverseBarrier | crates/rlean-algorithm/src/qc_algorithm.rs:2200-2215 | After a universe request the security stays over any run that begins no selection pass |
| RemovalRuns.RequestsAreHeld | crates/rlean-algorithm/src/qc_algorithm.rs:2044-2120 | Each request puts its symbol behind its barrier |
| RemovalEffects.PassIs | crates/rlean-algorithm/src/qc_algorithm.rs:2245-2272 | A pass takes out of every table exactly the requests of earlier generations of its clock that are not held, ordered, targeted, unsettled or underlying, the drain whatever the generation; all else is left alone |
| RemovalEffects.LeavesIff | crates/rlean-algorithm/src/qc_algorithm.rs:2154-2272 | In any step a security leaves if and only if the step is a pass that looks at it and it is not needed |
| RemovalEffects.RequestsAreFiled | crates/rlean-algorithm/src/qc_algorithm.rs:2044-2120 | Each request files its security under the present generation of its clock |
| RemovalEffects.CarriedOut | crates/rlean-algorithm/src/qc_algorithm.rs:2200-2235 | Whatever happens in between, short of the security being selected or requested again, the first pass after a tick of its clock that finds it unneeded carries the request out |
| RemovalEffects.UniverseRequestIsCarriedOut | crates/rlean-algorithm/src/qc_algorithm.rs:2109-2215 | Request, new selection pass, processing: an unneeded security is out of every table |
| RemovalEffects.DirectRequestIsCarriedOut | crates/rlean-algorithm/src/qc_algorithm.rs:2044-2235 | Removal, new time step, processing: an unneeded security is out of every table |
| RemovalEffects.RemovedTakesNoOrders | crates/rlean-algorithm/src/qc_algorithm.rs:1119-1131 | After its removal no order on a security is opened over any run, short of its being selected or requested again |
| RemovalOrder.EveryRunIsOrderly | crates/rlean-algorithm/src/qc_algorithm.rs:2044-2272 | Over every run exactly the present securities are subscribed, a security is untradable only while its removal is pending, and no removal is announced twice |
| RemovalOrder.RemovalIsWithdrawn | crates/rlean-algorithm/src/qc_algorithm.rs:2073-2098 | A removal makes a security untradable, pending and announced; selecting it again withdraws all three |
| RemovalOrder.SelectionAdds | crates/rlean-algorithm/src/qc_algorithm.rs:2044-2120 | Selecting an unknown security makes it present, tradable and subscribed |
| RemovalOrder.OthersStayAnnounced | crates/rlean-algorithm/src/qc_algorithm.rs:2073-2098 | Neither announces or withdraws another security |
| RemovalRuns.LiquidationFlattens | crates/rlean-algorithm/src/qc_algorithm.rs:1705-1755 | Liquidating leaves market orders in flight that close the position exactly, orders already open included |
| RemovalCancels.RemovalLeavesCancelled | crates/rlean-algorithm/src/qc_algorithm.rs:2044-2072 | An accepted removal outside warm-up cancels the market orders in flight and deducts them as well: once the cancellations are acknowledged, the orders that stand leave exactly minus that quantity |
| RemovalCancels.RemovalClosesIff | crates/rlean-algorithm/src/qc_algorithm.rs:2044-2072 | So the position ends closed if and only if the market orders in flight at the removal netted to zero |
| RemovalCancels.RemovalOversells | crates/rlean-algorithm/src/qc_algorithm.rs:2044-2072 | A failing input: a holding of five removed with a market order for three in flight ends three short |
| RemovalFills.FillsMove | crates/rlean-algorithm/src/qc_algorithm.rs:1705-1755 | Over any run of fills, what is held of a symbol and what is in flight of it keep their sum |
| RemovalFills.LiquidationEndsFlat | crates/rlean-algorithm/src/qc_algorithm.rs:1705-1755 | An accepted liquidation ends flat, however its market orders fill |
| RemovalFills.AcknowledgedIsStanding | crates/rlean-algorithm/src/qc_algorithm.rs:2044-2072 | Acknowledging every requested cancellation leaves open the orders that stand, and no other |
| RemovalFills.RemovalEndsAt | crates/rlean-algorithm/src/qc_algorithm.rs:2044-2072 | A removal whose cancellations are acknowledged before its closing order fills ends at exactly minus the market quantity that was in flight |
| RemovalFills.UnsettledReadsBack | crates/rlean-algorithm/src/qc_algorithm.rs:2154-2194 | Unsettled cash is what it was last set to, and zero is none |
| RemovalFills.TargetReadsBack | crates/rlean-algorithm/src/qc_algorithm.rs:2154-2194 | A target is what it was last set to and leaves the position |
| RemovalFills.ContractIsAdded | crates/rlean-algorithm/src/qc_algorithm.rs:2044-2055 | Adding an option contract makes it an open contract with a security |
| RemovalFills.FlagsReadBack | crates/rlean-algorithm/src/qc_algorithm.rs:2150-2152 | Announced changes are handed over once, and warm-up is what it was last set to |
| RemovalProtocol.QcAlgorithm.CancelPendingSecurityRemoval | crates/rlean-algorithm/src/qc_algorithm.rs:2124-2141 | Takes the re-selection step; reports whether the symbol was pending |
| RemovalProtocol.QcAlgorithm.EnsureSecurity | crates/rlean-algorithm/src/qc_algorithm.rs:2331-2357 | Adds or re-selects a security |
| RemovalProtocol.QcAlgorithm.SubmitOrder | crates/rlean-algorithm/src/qc_algorithm.rs:1119-1168 | Opens the order unless a present security is untradable or the brokerage refuses |
| RemovalProtocol.QcAlgorithm.MarketOrder | crates/rlean-algorithm/src/qc_algorithm.rs:1337-1370 | Materializes an option contract, then submits |
| RemovalProtocol.QcAlgorithm.Liquidate | crates/rlean-algorithm/src/qc_algorithm.rs:1705-1755 | Takes the liquidation step |
| RemovalProtocol.QcAlgorithm.RemoveSecurity | crates/rlean-algorithm/src/qc_algorithm.rs:2044-2098 | Takes the removal step; reports whether there was a security |
| RemovalProtocol.QcAlgorithm.RequestUniverseSecurityRemoval | crates/rlean-algorithm/src/qc_algorithm.rs:2109-2120 | Takes the universe request step |
| RemovalProtocol.QcAlgorithm.DetachFromManager | crates/rlean-algorithm/src/securities.rs:200-209 | Removes a security unless it is invested |
| RemovalProtocol.QcAlgorithm.ProcessPendingUniverseSecurityRemovals | crates/rlean-algorithm/src/qc_algorithm.rs:2207-2215 | Removes and returns, once each, exactly those of the universe requests of earlier selection passes that are not needed |
| RemovalProtocol.QcAlgorithm.ProcessPendingDirectSecurityRemovals | crates/rlean-algorithm/src/qc_algorithm.rs:2222-2231 | Removes and returns, once each, exactly those of the direct requests of earlier time steps that are not needed |
| RemovalProtocol.QcAlgorithm.ProcessPendingSecurityRemovals | crates/rlean-algorithm/src/qc_algorithm.rs:2240-2243 | Removes and returns, once each, exactly the pending securities that are not needed |
| RemovalProtocol.QcAlgorithm.TakePendingRemovedSecurityChanges | crates/rlean-algorithm/src/qc_algorithm.rs:2150-2152 | Hands over the queued changes and clears them |
| RemovalProtocol.Operate | crates/rlean-algorithm/src/qc_algorithm.rs:2044-2272 | A whole run on the mutable algorithm, orders being placed on present securities, ends safe and where the state machine does |
| Sizing.RoundedIsLots | crates/rlean-algorithm/src/buying_power.rs:43-54 | Rounding gives whole lots within one lot of the quantity, on the side asked for |
| Sizing.FirstHoldingIsNear | crates/rlean-algorithm/src/buying_power.rs:171-186 | The rounded holding lies within a lot of the exact one, on the near side of zero |
| Sizing.Adjust | crates/rlean-algorithm/src/buying_power.rs:187-219 | The adjustment loop ends after the least number of moves that leaves the holding no longer beyond the target, or facing a move that makes it larger; that last move then stays in the order but not in the margin |
| Sizing.SettlesIsDetermined | crates/rlean-algorithm/src/buying_power.rs:187-219 | That description has only one outcome |
| Sizing.BeyondIsAcross | crates/rlean-algorithm/src/buying_power.rs:171-219 | A rounded holding that comes out beyond the target lies across zero, for margins of either sign |
| Sizing.AmountToOrder | crates/rlean-algorithm/src/buying_power.rs:171-220 | Order size and reported margin are those of the rounded holding, one lot further where it lies beyond the target; a zero unit margin sizes the closing order |
| Sizing.ReportedMarginIsTrueIff | crates/rlean-algorithm/src/buying_power.rs:171-220 | At a unit margin other than zero, the margin reported is that of the order returned if and only if the rounded holding does not lie beyond the target |
| SizingFees.AlignedAmount | crates/rlean-algorithm/src/buying_power.rs:171-220 | From a lot-aligned holding the order is a lot multiple whose margin is reported truly and is within the target |
| SizingFees.AlignedAmountIsLargest | crates/rlean-algorithm/src/buying_power.rs:171-220 | No lot-multiple holding on either side fits the target with a larger size |
| SizingFees.FreeUnitsCloseOut | crates/rlean-algorithm/src/buying_power.rs:171-186 | Where a unit needs no margin the order closes the lot-aligned holding |
| SizingFees.RoomShrinks | crates/rlean-algorithm/src/buying_power.rs:278-308 | Each further round of the fee loop has strictly less room in lots: the termination measure |
| SizingFees.AlignedLoopEnds | crates/rlean-algorithm/src/buying_power.rs:274-310 | From a lot-aligned holding the loop ends for every value, power and fee function |
| SizingFees.FeeLoop | crates/rlean-algorithm/src/buying_power.rs:274-310 | Wherever the loop ends, the order is that of the first round it does not survive; from a lot-aligned holding it is a lot multiple whose holding is margined within \|power (value - its fee)\| |
| SizingFees.SizedIff | crates/rlean-algorithm/src/buying_power.rs:155-169 | Sizing reaches the fee loop exactly where target, price and multiplier are not zero and the change of margin is not below the minimum share of the portfolio while margin remains |
| FeeLoops.Loop.StopIsDetermined | crates/rlean-algorithm/src/buying_power.rs:274-310 | The loop has no second outcome: what its result is described by is met by one order only |
| SizingFees.MaximumOrderQuantity | crates/rlean-algorithm/src/buying_power.rs:224-311 | The whole sizing: a zero target closes the holding, a missing price is an error, a change too small sizes nothing, and any other success is what the fee loop stops with, within its bound |
| SizingCycles.UnalignedRunsForEver | crates/rlean-algorithm/src/buying_power.rs:274-310 | From every other holding some portfolio value, power and non-negative fee keep the loop running for ever |
| SizingCycles.LoopEndsIff | crates/rlean-algorithm/src/buying_power.rs:274-310 | The loop ends for every positive value, power and non-negative fee if and only if the lot is positive and the holding a multiple of it |
| SizingCycles.UnalignedHoldingCycles | crates/rlean-algorithm/src/buying_power.rs:274-310 | A failing input: short 2.7 in lots of 1 with a fee of 1 per unit alternates for ever between orders of 3 and 1 |
| LinearSolve.ReducedDot | crates/rlean-alpha/src/alpha_analytics.rs:829-840 | Starting a row operation at the pivot column subtracts the whole pivot row, its earlier columns being zero |
| LinearSolve.EliminatedKeepsForm | crates/rlean-alpha/src/alpha_analytics.rs:817-841 | Each round clears its column and keeps the earlier ones clear |
| LinearSolve.ColumnsKeepSolutions | crates/rlean-alpha/src/alpha_analytics.rs:817-841 | Swaps and row operations neither lose nor gain a solution |
| LinearSolve.ReadOffIsTheSolution | crates/rlean-alpha/src/alpha_analytics.rs:842-851 | A cleared system has exactly the solution read off its diagonal |
| LinearSolve.SolutionIsUnique | crates/rlean-alpha/src/alpha_analytics.rs:805-852 | Whenever no pivot is skipped, a vector solves the system if and only if it is the one read off |
| LinearSolve.PivotIsLargest | crates/rlean-alpha/src/alpha_analytics.rs:818-828 | The pivot row holds the largest entry of the column, so a pivot is skipped only when all candidates are as small |
| LinearSolve.FindPivot | crates/rlean-alpha/src/alpha_analytics.rs:818-823 | The scan finds that row |
| LinearSolve.ClearColumn | crates/rlean-alpha/src/alpha_analytics.rs:829-840 | The inner loops clear every other row |
| LinearSolve.SolveSpd | crates/rlean-alpha/src/alpha_analytics.rs:805-852 | Returns the one solution of the system whenever no pivot is skipped; where an entry left on the diagonal is below 1e-12 the coordinate is zero, and elsewhere it solves its row of the cleared system |
| Ranks.AverageTies | crates/rlean-alpha/src/alpha_analytics.rs:859-873 | For whatever order the sort leaves ties in, each element gets (number smaller) + (number equal + 1) / 2 |
| Ranks.Rank | crates/rlean-alpha/src/alpha_analytics.rs:855-874 | The same for the whole function on any list of comparable numbers |
| Ranks.RankFollowsValue | crates/rlean-alpha/src/alpha_analytics.rs:855-874 | A smaller value has a strictly smaller rank |
| Ranks.SameRanksIff | crates/rlean-alpha/src/alpha_analytics.rs:855-874 | Two lists have the same ranks if and only if they order their positions alike |
| Ranks.RanksSum | crates/rlean-alpha/src/alpha_analytics.rs:855-874 | Ranks sum to n (n + 1) / 2 however values tie |
| Quotes.AccumulateAtKey | crates/rlean-data-providers/src/massive.rs:811-866 | Bars do not see each other's quotes: the pass, looked up at one start, is the fold of that bar's quotes alone |
| Quotes.AccumulateSplits | crates/rlean-data-providers/src/massive.rs:288-306 | Aggregating page after page is aggregating the concatenation |
| Quotes.AtKeySummarizes | crates/rlean-data-providers/src/massive.rs:897-944 | Each side of a bar is the first, largest, smallest and last positive price counted, or absent when there is none |
| Quotes.BarsAreDetermined | crates/rlean-data-providers/src/massive.rs:868-886 | The bars handed out are determined by the accumulators |
| Quotes.BarsOfMap | crates/rlean-data-providers/src/massive.rs:868-886 | They are in time order, and exactly the accumulators whose window ends inside the range |
| QuoteShards.DailyRanges | crates/rlean-data-providers/src/massive.rs:737-752 | The loop ends with the split at UTC midnights |
| QuoteShards.ShardIsDay | crates/rlean-data-providers/src/massive.rs:737-752 | Each shard is all of the range in one UTC day |
| QuoteShards.ShardIsUtcDay | crates/rlean-data-providers/src/massive.rs:737-752 | That day is 86400 seconds from UTC midnight |
| QuoteShards.ShardOf | crates/rlean-data-providers/src/massive.rs:737-752 | Every instant of the range is in a shard |
| QuoteShards.MergedAtKey | crates/rlean-data-providers/src/massive.rs:230-255 | A bar that only one shard can hold comes out of the merge as that shard left it, whatever the completion order |
| QuoteShards.ShardsAgreeWithOnePass | crates/rlean-data-providers/src/massive.rs:222-308 | When no two UTC days of the range share a bar, sharding, paging and merging in any completion order give the map of one pass over the stream |
| QuoteShards.FixedIsDayLocalIff | crates/rlean-data-providers/src/massive.rs:841-845 | A fixed period keeps its bars inside UTC days if and only if it divides the day |
| QuoteShards.SessionsInOneDay | crates/rlean-data-providers/src/massive.rs:832-840 | Daily bars of sessions that open and close in one UTC day qualify |
| QuoteShards.StraddlingBarDiffers | crates/rlean-data-providers/src/massive.rs:222-308 | Where two UTC days of the range share a bar, one pass over two bids opens that bar at the first and closes it at the second; the merge never does |
| QuoteContents.WindowIsBar | crates/rlean-data-providers/src/massive.rs:811-845 | The bar of an instant is the period from the multiple of the period at or before it, or the session of its trading day with both ends included |
| QuoteContents.BarsShowStream | crates/rlean-data-providers/src/massive.rs:811-944 | Each bar handed out shows the priced quotes of the range between its two times: first, largest, smallest and last positive price of each side and the last sizes; no quote whose bar ends inside the range is left out |
| QuoteContents.FixedBarsLieOnGrid | crates/rlean-data-providers/src/massive.rs:841-845 | Bars of a fixed period begin at its multiples and last it |
| QuoteShards.OnePassIff | crates/rlean-data-providers/src/massive.rs:222-308 | For every stream, paging and completion order the merged map is that of one pass if and only if no two UTC days of the range share a bar |
| QuoteBarsAgree.SameBarsIff | crates/rlean-data-providers/src/massive.rs:222-308 | The bars handed out are those of one pass, for every stream, paging and completion order, if and only if no two UTC days of the range share a bar that is handed out |
| QuoteBarsAgree.DividingPeriodsAgree | crates/rlean-data-providers/src/massive.rs:841-845 | Both hold of every range for every period that divides the day |
| QuoteBarsAgree.NightSessionIsCut | crates/rlean-data-providers/src/massive.rs:222-308 | A failing input: a session from 22:00 to 02:00 with a bid at 23:00 and another at 01:00 |
| QuoteAccumulators.QuoteAccumulator.constructor | crates/rlean-data-providers/src/massive.rs:898-914 | A new accumulator holds its first quote |
| QuoteAccumulators.QuoteAccumulator.Update | crates/rlean-data-providers/src/massive.rs:916-943 | The in-place update takes the accumulator to its next value |
| QuoteAccumulators.AggregateQuoteUpdates | crates/rlean-data-providers/src/massive.rs:811-866 | The loop over mutable accumulators computes the pass |
| QuoteAccumulators.QuoteBarAccumulators | crates/rlean-data-providers/src/massive.rs:265-308 | One day, page by page, is the pass over its concatenated pages |
| QuoteAccumulators.QuoteBarsFromAccumulators | crates/rlean-data-providers/src/massive.rs:868-886 | Kept accumulators as bars, in key order |
| QuoteAccumulators.QuoteBars | crates/rlean-data-providers/src/massive.rs:222-263 | Tick resolution is refused; the first day in completion order that failed decides the error, an unentitled equity gives no bars, otherwise the merged bars |
| QuoteAccumulators.QuoteBarsOfStream | crates/rlean-data-providers/src/massive.rs:222-308 | For a stream served day by day in pages, the request returns the bars of one pass, in time order, showing exactly the priced quotes of the stream that lie between their times, provided no two UTC days of the range share a bar that is handed out |
| Sid.UnpackPacked | crates/rlean-core/src/symbol.rs:107-141 | Every property can be read back from the packed number |
| Sid.FitsIff | crates/rlean-core/src/symbol.rs:107-141 | The packed number fits 64 bits, for a put if and only if its day is at most 84467 |
| Sid.LatePutWraps | crates/rlean-core/src/symbol.rs:107-141 | A failing input: a put dated day 84468 whose packed number loses its top bit |
| Sid.NormalizeStrike | crates/rlean-core/src/symbol.rs:143-168 | The stripping loop ends with the mantissa and the number of zeros taken off, and refuses mantissas of 475711 or more |
| Sid.StrikeDecodesIff | crates/rlean-core/src/symbol.rs:143-168 | An accepted strike, signed and scaled, decodes to itself if and only if it is a whole number of millionths; its code is below 10^6 |
| Sid.StrikeAcceptedIff | crates/rlean-core/src/symbol.rs:143-168 | A strike is refused exactly when its millionths, less their trailing zeros, reach 475711 either way |
| Sid.NegativeStrike | crates/rlean-core/src/symbol.rs:143-168 | A strike of minus one is coded as one with bit 19 set, six zeros taken off |
| Sid.SeventhDecimalIsLost | crates/rlean-core/src/symbol.rs:143-168 | A failing input: strikes 0.1234567 and 0.123456 have one code |
| Sid.ScaleFits | crates/rlean-core/src/symbol.rs:143-168 | The scale of any decimal strike is at most 28, within its two digits |
| Sid.EncodeBase36 | crates/rlean-core/src/symbol.rs:170-186 | The digit loop prints the base-36 numeral |
| Sid.ParseUndoesPrint | crates/rlean-core/src/symbol.rs:170-186 | The numeral is canonical and reads back as the number |
| Sid.PrintUndoesParse | crates/rlean-core/src/symbol.rs:170-186 | Every canonical numeral is printed by the number it reads as |
| Sid.LeanSid | crates/rlean-core/src/symbol.rs:107-141 | The identifier text, with wrap-around at 64 bits; refused exactly for dates before the epoch and refused strikes; the text of a representable contract reads back as that contract's ticker, right, date, style, strike, market, security type and underlying |
| Sid.SidIsLossless | crates/rlean-core/src/symbol.rs:107-141 | Two representable contracts with the same text agree in every property, tickers compared in upper case |
| Sid.SidReadsBack | crates/rlean-core/src/symbol.rs:107-141 | Split at its first space and bar, parsed in base 36 and unpacked, an identifier gives back its own contract |
| SidVectors.LeanOptionSid | crates/rlean-core/src/symbol.rs:65-105 | An option's identifier reads back as the option on the identifier of its underlying, of the option type of that underlying |
| SidVectors.UnderlyingText | crates/rlean-core/src/symbol.rs:819-877 | Apple's identifier is AAPL R735QTJ8XC9X |
| SidVectors.AmericanCallText | crates/rlean-core/src/symbol.rs:819-877 | The American call on Apple of 21 May 2020 at 100 is XEOLB4YAUINA |
| SidVectors.AmericanPutText | crates/rlean-core/src/symbol.rs:819-877 | The American put on Apple of 21 May 2020 at 100 is 31DSLGKXI4C12 |
| SidVectors.EuropeanCallText | crates/rlean-core/src/symbol.rs:819-877 | The European call on Apple of 21 May 2020 at 100 is XEOOUQW0NLD2 |
| SidVectors.EuropeanPutText | crates/rlean-core/src/symbol.rs:819-877 | The European put on Apple of 21 May 2020 at 100 is 31DSP06V7XEQU |
| SidVectors.CentCallText | crates/rlean-core/src/symbol.rs:819-877 | The American call on Apple of 21 May 2020 at one cent is XEOLB4YALY06 |
| SidVectors.CentPutText | crates/rlean-core/src/symbol.rs:819-877 | The American put on Apple of 21 May 2020 at one cent is 31DSLGKXHVRDY |
| BarCount.MergedBar | crates/rlean-consolidators/src/trade_bar_consolidator.rs:55-66 | A merged bar has the first open and time, the last close and end time, the extremes, the volume sum and the spanned period |
| BarCount.BlocksCompose | crates/rlean-consolidators/src/trade_bar_consolidator.rs:76-96 | Consolidating by n and then by m is consolidating by n * m, on every input |
| BarCount.VolumeIsKept | crates/rlean-consolidators/src/trade_bar_consolidator.rs:55-96 | Emitted plus working volume is input volume |
| BarCount.TradeBarConsolidator.constructor | crates/rlean-consolidators/src/trade_bar_consolidator.rs:30-38 | Starts with no working bar |
| BarCount.TradeBarConsolidator.Update | crates/rlean-consolidators/src/trade_bar_consolidator.rs:76-96 | Emits the merge of a full block and starts over, or merges into the working bar |
| BarCount.TradeBarConsolidator.Reset | crates/rlean-consolidators/src/trade_bar_consolidator.rs:128-132 | Drops the working bar |
| BarCount.Consolidate | crates/rlean-consolidators/src/trade_bar_consolidator.rs:76-96 | A whole run emits the full blocks of its input, and volume is conserved |
| BarCount.ConsolidateTwice | crates/rlean-consolidators/src/trade_bar_consolidator.rs:76-96 | One consolidator feeding another emits what a single one of the product count does |
| Insights.TakingConserves | crates/rlean-alpha/src/insight_collection.rs:235-299 | Closing some of a symbol's insights loses and doubles none |
| Insights.CutTwice | crates/rlean-alpha/src/insight_collection.rs:308-329 | Cutting short is idempotent, and the second time reports nothing |
| Insights.RefilingRestores | crates/rlean-alpha/src/insight_collection.rs:124-152 | Flattening in symbol order and refiling restores every symbol's list |
| InsightRuns.RunIsSound | crates/rlean-alpha/src/insight_collection.rs:154-355 | Over every run: added = active + closings, symbol by symbol; closed history is the latest 50000 closings at most, all final; the count is the number added |
| InsightRuns.RunConserves | crates/rlean-alpha/src/insight_collection.rs:154-355 | The same for the flattened active list observers see |
| InsightRuns.VersionStamps | crates/rlean-alpha/src/insight_collection.rs:235-355 | The version never goes back, and while it stands the closed history stands |
| InsightRuns.ReuseIsFaithful | crates/rlean-alpha/src/insight_collection.rs:106-122 | Given the version and slice of any earlier moment of the run, the reusing snapshot is the full snapshot |
| InsightRuns.RemoveExpiredExactly | crates/rlean-alpha/src/insight_collection.rs:235-260 | Expiry closes exactly the expired insights in symbol order, and leaves the others in order |
| InsightRuns.ClearSymbolsExactly | crates/rlean-alpha/src/insight_collection.rs:336-355 | Clearing symbols closes every insight of theirs once, however often a symbol is listed, and touches no other symbol |
| InsightRuns.CloseSourceExactly | crates/rlean-alpha/src/insight_collection.rs:267-299 | A flat signal closes exactly its model's insights of its symbol, and touches no other symbol |
| InsightRuns.ExpireExactly | crates/rlean-alpha/src/insight_collection.rs:308-329 | Each active insight of the symbols is cut short and reported once, however often its symbol is listed; repeating it does nothing |
| InsightTimes.ExpiryGoesByCloseTime | crates/rlean-alpha/src/insight_collection.rs:235-260 | Expiry closes the insights whose close time is before now, changed only to final; one that closes this instant stays |
| InsightTimes.FlatSignalGoesBySource | crates/rlean-alpha/src/insight_collection.rs:267-299 | A flat signal closes its model's insights of its symbol, final and none of them later than now |
| InsightTimes.ClearingGoesBySymbol | crates/rlean-alpha/src/insight_collection.rs:336-355 | Clearing closes every insight of the listed symbols and no other |
| InsightTimes.CancellingEndsBeforeNow | crates/rlean-alpha/src/insight_collection.rs:308-329 | Cutting short ends the active insights of the listed symbols one second before now, with the period that leaves, and changes no other |
| InsightTimes.CancelledExpires | crates/rlean-alpha/src/insight_collection.rs:235-329 | After that, expiry at the same instant closes all of them |
| InsightTimes.HistoryIsTheLatest | crates/rlean-alpha/src/insight_collection.rs:235-355 | The closed history is the last fifty thousand closings, or all of them |
| InsightTimes.VersionCountsClosings | crates/rlean-alpha/src/insight_collection.rs:235-355 | The version counts the operations that closed something |
| InsightRuns.SavingRestores | crates/rlean-alpha/src/insight_collection.rs:89-152 | Snapshot then restore gives back active order, closed history and count |
| InsightCollection.ScanList | crates/rlean-alpha/src/insight_collection.rs:237-248 | The remove-while-scanning loop takes what closes and keeps the rest in order |
| InsightCollection.InsightCollection.FromSnapshot | crates/rlean-alpha/src/insight_collection.rs:124-152 | Builds the restored state |
| InsightCollection.InsightCollection.AddInsight | crates/rlean-alpha/src/insight_collection.rs:154-160 | Takes the add step |
| InsightCollection.InsightCollection.RemoveExpiredInsights | crates/rlean-alpha/src/insight_collection.rs:235-260 | Takes the expiry step and returns what it closed |
| InsightCollection.InsightCollection.CloseSourceSymbol | crates/rlean-alpha/src/insight_collection.rs:267-299 | Takes the flat-signal step |
| InsightCollection.InsightCollection.ClearInsightSymbols | crates/rlean-alpha/src/insight_collection.rs:336-355 | Takes the clearing step |
| InsightCollection.InsightCollection.ExpireInsights | crates/rlean-alpha/src/insight_collection.rs:308-329 | Takes the cancelling step |
| InsightCollection.InsightCollection.TakeSnapshot | crates/rlean-alpha/src/insight_collection.rs:89-95 | The active insights in order, the closed history and the count |
| InsightCollection.InsightCollection.ActiveSnapshotReusingClosed | crates/rlean-alpha/src/insight_collection.rs:106-122 | The cheap snapshot |
| InsightCollection.Serve | crates/rlean-alpha/src/insight_collection.rs:89-152 | A whole run on the mutable collection: the reused snapshot is the full one, and saving then restoring gives the state back |
| OptionTicker.ReadsEightDigits | crates/rlean-brokerages/src/tradier.rs:514-535 | A tail with eight strike digits reads back as printed, the year moved into the window |
| OptionTicker.RefusesMoreDigits | crates/rlean-brokerages/src/tradier.rs:514-535 | A strike of 100000 or more shifts the right's letter and the text is refused |
| OptionTicker.ParseUndoesFormatIff | crates/rlean-brokerages/src/tradier.rs:514-554 | Parsing a printed ticker gives root, kind, expiry, right and strike back if and only if the root is nonempty, upper case and does not start with white space, the year lies in the window, and the strike is a whole number of thousandths from 0 to below 100000 |
| OptionTicker.FormatUndoesParse | crates/rlean-core/src/options.rs:93-106 | Printing a parsed ticker gives the text that was parsed, trimmed and in upper case |
| OptionTicker.PrintedStrike | crates/rlean-core/src/options.rs:93-106 | The strike digits are the whole thousandths, and zero where those are negative or do not fit 64 bits |
| OptionTicker.TickerOfACall | crates/rlean-core/src/options.rs:93-106 | A call on SPY at 635 of 10 August 2026 is SPY260810C00635000 |
| Calendar.ValidDateIff | crates/rlean-brokerages/src/tradier.rs:514-535 | A date is valid exactly when its day number, in closed form, lies between those of the firsts of its month and of the next |

## Left out

- Decimal rounding at 28 digits, floating-point error and NaN: arithmetic is exact, and the 1e-12 pivot threshold is the only numeric tolerance kept.
- Locks, atomics, async interleavings and bounded concurrency: each call is one atomic step, and a set of concurrent fetches is the list of days in completion order.
- HTTP, cursors, retries, rate limits and JSON: the quote endpoint is its contract, pages whose concatenation is the stream in the shard.
- CacheFirst.HistoricalDataStore.Prefetch: the store's own warming is a call that may fail and changes nothing.
- CacheFirst.CacheFirstHistoryProvider.GetHistory: tick rows, custom points' duplicates (kept by design), factor and map files, risk-free rates and `canonicalize_option_universe` are not modelled; rows carry an instant, an identity and a payload.
- CacheFirst.CacheFirstHistoryProvider.FetchGap: `canonicalize_option_universe`, between the fetch and the sort, is not modelled.
- CacheFirst.HistoricalDataProvider.GetHistory: a provider that changes its series between calls is outside the claim.
- Coverage.Missing: stored ranges are nonempty, as `TimeRange::new` makes them.
- QuoteShards.DailyRanges: requires a start that `to_utc` accepts; it panics on instants before the epoch that are not whole seconds.
- QuoteAccumulators.QuoteBars: each completed day is appended as it is reached, where the source first collects all results; conversion of a quote's floats to decimals never fails.
- Sessions and time zones: a trading day's session is a function from instants to a pair of instants.
- Portfolio.EquityIdentity: `settle_fill_without_cash`, exercises, splits, `set_holdings` and unsettled cash in margin are not events of the run; they re-base cash or cost on purpose.
- PortfolioManager.SecurityPortfolioManager.RemoveHoldingIfFlat: the unsettled cash dropped with the holding is not in this portfolio; `RemovalProtocol.QcAlgorithm.RemoveHoldingIfFlat` has it.
- FundingOverRuns.FundingTelescopesOverRun: timestamps are at or after the epoch in the source; the model's boundaries use floor division throughout. A rate observed while the position is closed or unpriced drops its schedule, and the count starts afresh; the run assumes none.
- Solvency.MarginUsedAfterOrder: excludes only the accounts on which the source panics, an invested pooled holding without a security.
- Solvency.ValidateOrderBuyingPower: a holding invested without a security makes the source panic; the model requires there is none, which `RemovalRuns.RemovalSafety` provides. The submission wrapper and `margin_remaining_*` are not modelled.
- Solvency.AcceptedExactlyWhenSolvent: margin in use is that of the order's own pool.
- SizingFees.FeeLoop: a method that ends can only be entered where the loop ends, so that is its precondition; `SizingCycles.LoopEndsIff` says where. The bound is promised for lot-aligned holdings and a positive unit margin.
- SizingFees.MaximumOrderQuantity: the same precondition, and only when the loop is reached; the delta-buying-power wrapper is not modelled.
- SizingCycles.LoopEndsIff: about positive unit margins; with a negative contract multiplier nothing is claimed. The fees are any non-negative ones; how much further the loop ends for fees that grow with the order and never exceed the portfolio value is not stated.
- RemovalFills.RemovalEndsAt: fills that arrive before a cancellation is acknowledged are not part of it.
- RemovalProtocol.QcAlgorithm.RemoveSecurity: canonical options and `remove_option_subscription` are not modelled; subscriptions are a set, open orders a map, and brokerage acceptance a parameter.
- RemovalRuns.DirectBarrier: the administrative drain bypasses generations and is excluded; generation counters do not wrap.
- RemovalRuns.UniverseBarrier: the same two exclusions.
- Order-manager internals, margin calls and warm-up bookkeeping beyond its flag.
- LinearSolve.SolveSpd: when a pivot is skipped the source reads zeros off the diagonal; the model does the same and claims no more of that vector.
- Ranks.Rank: values are comparable numbers; the sort is any stable one.
- Spearman and Pearson correlation, rolling statistics: expressions over ranks with no further state.
- Sid.LeanSid: `hash_sid` and the lookup of market codes are not modelled; codes are parameters, and 64-bit overflow wraps as in a release build.
- Sid.SidIsLossless: tickers contain no space.
- SidVectors.LeanOptionSid: security types, markets, rights and styles are their codes, and dates their day numbers.
- OptionTicker.ParseUndoesFormatIff: text is ASCII, and the hundred years two-digit years resolve to start at a parameter, chrono not being part of this model.
- BarCount.TradeBarConsolidator.Update: the time-period mode is not modelled.
- InsightCollection.InsightCollection.RemoveExpiredInsights: a symbol whose list empties is dropped at once, where the source drops empty lists after the scan; scores other than finality, `score_active`, `clear` and id allocation are not modelled.
- InsightCollection.InsightCollection.FromSnapshot: the reservation of restored insight ids, a process-wide counter, is not modelled.
- InsightRuns.ReuseIsFaithful: the earlier moment is one of the same run; a restored collection restarts its version at zero, so a slice cached before a restore is outside the claim.
- Python scripting, charting, notification, lifecycle forwarding and table schemas.
