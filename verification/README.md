# Fund analysis: a verified model

This project models the parts of the fund tracker's backend whose results are hard to check by
looking at them, and proves what they guarantee. To check the proofs:

    dafny verify dfyconfig.toml

Percentages, amounts and prices are exact reals; a date is its proleptic Gregorian ordinal; a
table is a map or a sequence held by a class, or a map passed to a method. `quantize` with
`ROUND_HALF_UP` is rounding to a grid with ties away from zero (`Decimals`). Where a property turns
on it, a value written to a column is rounded to the column's scale.

Code that works by changing things keeps that form: the traversal with its accumulators, the
services that write orders, contracts, NAV rows and operations, the loops that compound returns.
Each such method is proved equal to a specification function (or to a transition of a state
machine), and the properties below are proved about those functions. What each of these functions
returns is stated once more of the rows and records alone, without any of their helpers, in
`LookthroughGraph`, `LedgerScope`, `ImportMeaning`, `MergeLaws`, `NavReturns`, `OperationMeaning`,
`ConsistencyMeaning`, `PredictorMeaning`, `PortfolioMeaning` and `ValuationMeaning`. Loops run on local
copies of the tables and are written back at the end of the method.

**Look-through of funds of funds** (`Lookthrough*`, `LabelRanking`). A depth-bounded traversal of a
weighted graph with cycles. Its exposure is the sum over simple paths, its cycle flag is exact, more
depth only ever sees more, depth beyond the node count changes nothing, weight is conserved, and the
order of holdings is irrelevant. `LookthroughStore` builds the graph from the disclosed rows, stores
ranked derived rows beside them, and is idempotent.

**Recurring-order ledger** (`Calendar`, `LedgerModel`, `RecurringLedger`, `RecurringService`,
`LedgerProperties`, `LedgerScope`, `PortfolioImport`, `ImportLedgers`, `LedgerRuns`, `StuckOrders`,
`LateNavs`). Orders and executions in two tables, moved by creating, settling, arriving NAVs and
snapshot imports. Invariants hold over every run, other funds are left alone, settling is confluent
exactly when settlements commit and no NAV already used is revised, and the "anything to do?" check
is sound.

**Market-session alignment** (`Alignment`, `AlignmentProperties`). Returns between NAV dates telescope
and look only backwards.

**Contract merging** (`FundGrouping`, `FundMerge`, `FundCatalog`, `MergeLaws`) and **NAV upsert** (`NavChain`).
References, period uniqueness and the chain of calculated returns across in-place updates.

**Operation queue** (`OperationQueue`, `OperationStore`). One active slot, one worker, crashes between
any two commits.

**Prediction, consistency and valuation** (`Predictor`, `PredictorProperties`, `PortfolioReview`,
`DayOrder`, `Consistency`, `Valuation`). Rounding bounds, no look-ahead, Cauchy-Schwarz, and the capital
identity behind the estimated profit.

## What the proofs found

- `recurring_plans_pending` does not ask whether the position of a waiting order is still active,
  while settling does. `StuckOrders.StuckHistory` is a history from an empty database after which an
  order is stuck so, and proves that the check then stays positive over every run of creating,
  settling, NAV arrival and import, until that position is imported again.
  `LedgerProperties.PendingAfterRun` gives the exact condition.
- One order whose net amount buys no step of units (`LedgerModel.UnitsVanishIff`) violates a table
  constraint and aborts the whole settlement, of all positions
  (`RecurringService.LedgerStore.SettleRecurringPlans`).
- Settling early and again later reaches the ledger of settling once exactly under the condition of
  `LedgerProperties.SettleEarlyIff`: a NAV already used must not be revised, because executions are
  never recalculated (`LedgerProperties.RevisedNavDiverges`).
- Importing one payload twice clears the ledger of a position in two cases, and only in these
  (`ImportLedgers.ReimportKeepsLedgerIff`). Either a value has more digits than its column, because
  the payload is compared with the rounded row (`ImportLedgers.SevenDigitsLoseLedger`); or the anchor
  has changed: its NAV was revised, or a NAV for a later day up to the snapshot date has arrived
  (`ImportLedgers.SameAnchorIff`, `LateNavs.LateNavLosesOrder`).
- A NAV batch with gaps, or one that stops short of stored later rows, can leave stale calculated
  returns. `NavChain.ChainKeptIff` reduces this to two tests on the rows next to the batch, and
  `NavChain.GapBreaksChain` is an instance.
- The last weight check of `predict_day` can reject a day whose equity, fund and cash weights pass
  their own check. It needs securities above the reported equity or proxy weights above one
  (`PredictorProperties.FiringNeeds`), and both happen: `PredictorProperties.OverDisclosureRejected`
  and, with weights the proxy file admits, `PredictorProperties.ProxyTotalRejected`.
- Knowing more can widen the interval of a day's prediction: the charge for priced proxies outgrows
  the relief on the rest once their weights exceed one, which the proxy file admits by a millionth.
  `PredictorProperties.MoreInformationNarrowsIff` has the exact condition,
  `PredictorProperties.MoreInformationWidens` an instance.
- One or two residuals count for nothing in the interval (`PredictorProperties.ShortHistoryIgnored`),
  so it can be narrower than they are (`PortfolioReview.ShortHistoryNotCovered`).
- The half point that every fund's bounds keep survives the weighting if the weights total at least
  one (`PortfolioReview.BoundsSurvive`). Totals below one are accepted up to a step, and for each of
  them it can be lost (`PortfolioReview.HalfPointLost`).
- Estimated market value less estimated profit can miss the invested capital, because the columns
  hold six digits: by exactly the rounding errors of three amounts (`Valuation.CapitalErrorIs`), so
  whole cents are sufficient but not necessary (`Valuation.CentsAreNotNecessary`).

The consistency check recomputes residuals from rounded returns. It would differ from the stored
residual only for an actual return on a half step of the grid (`PortfolioReview.ResidualsAgreeIff`,
`PortfolioReview.ResidualsDiffer`); returns read from their columns never are
(`PortfolioReview.StoredReturnsAgree`).

## Model

| member | source | states |
|---|---|---|
| Lookthrough.Visit | backend/app/ingestion/lookthrough.py:48-82 | the recursive loop with its five accumulators returns, for every graph, path and depth, the result specified field by field, and terminates on cyclic graphs |
| Lookthrough.WeightedLookthrough | backend/app/ingestion/lookthrough.py:43-84 | the traversal from a root with an empty path meets that specification |
| Lookthrough.AddScaled | backend/app/ingestion/lookthrough.py:67-70 | a child's exposure is added label by label, scaled by the edge weight, and no other label changes |
| LookthroughPaths.EnumerateExactly | backend/app/ingestion/lookthrough.py:48-66 | the routes the traversal takes are exactly the simple paths of present nodes along positive resolved edges, up to the depth; parallel edges are separate routes |
| LookthroughPaths.ExposureEnumerated | backend/app/ingestion/lookthrough.py:54-70 | the exposure at any node, path and depth is the sum over those routes of the product of weights times the end's direct weight |
| LookthroughPaths.ExposureIsPathSum | backend/app/ingestion/lookthrough.py:43-84 | for every graph, root, depth and label, exposure is the sum over the set of all simple paths of at most that many edges |
| LookthroughPaths.SimplePathsAreFinite | backend/app/ingestion/lookthrough.py:48-66 | that set of paths exists for every graph, cyclic or not |
| LookthroughWalks.LabelsAreDisclosed | backend/app/ingestion/lookthrough.py:54-70 | a label is reported if and only if some node reached by a simple path within the depth discloses it |
| LookthroughWalks.CircularIffClosingWalk | backend/app/ingestion/lookthrough.py:48-75 | the cycle flag holds if and only if a simple path of present nodes closes on itself by one more positive edge within the depth |
| LookthroughWalks.CircularIffCycleReachable | backend/app/ingestion/lookthrough.py:48-75 | with depth at least the node count, the flag holds if and only if a cycle of positive edges is reachable from the root |
| LookthroughWalks.FirstReturn | backend/app/ingestion/lookthrough.py:48-75 | any walk that repeats a node contains a simple path closing on itself |
| LookthroughWalks.Pigeonhole | backend/app/ingestion/lookthrough.py:49-53 | a path without repetition has at most as many nodes as the graph |
| LookthroughWalks.NodeCountIsSharp | backend/app/ingestion/lookthrough.py:62-65 | for every number of funds, a ring of that many meets its cycle with as many levels as funds and misses it with one less |
| LookthroughWalks.DepthIsLongestWalk | backend/app/ingestion/lookthrough.py:57-74 | the reported depth is the length of the longest walk the traversal explores |
| LookthroughDepth.UnresolvedRange | backend/app/ingestion/lookthrough.py:56-79 | unresolved weight lies in [0, 100] for every graph, without assumptions on weights |
| LookthroughDepth.DeeperSeesMore | backend/app/ingestion/lookthrough.py:54-84 | raising the depth never lowers the coverage or the reported depth, never loses a label or a cycle, and never raises unresolved weight; with non-negative direct weights it never lowers an exposure |
| LookthroughDepth.EnoughDepthIsStable | backend/app/ingestion/lookthrough.py:54-84 | all depths from the node count on return the same whole result |
| LookthroughConservation.EdgeConserves | backend/app/ingestion/lookthrough.py:59-73 | each edge's weight is split exactly between coverage and unresolved, and the inner maximum never changes a value |
| LookthroughConservation.PercentagesInRange | backend/app/ingestion/lookthrough.py:55-79 | with non-negative direct weights coverage and unresolved weight lie in [0, 100], however the holdings add up |
| LookthroughConservation.NodeConserves | backend/app/ingestion/lookthrough.py:54-82 | if direct and positive edge weights total at most 100 everywhere, coverage plus unresolved is exactly the node's total and no clamp changes a value |
| LookthroughConservation.ExposureWithinCoverage | backend/app/ingestion/lookthrough.py:54-82 | with the same bounded totals, total exposure is at most coverage, and equal to it when every report accounts for exactly 100 percent |
| LookthroughConservation.LookthroughConserves | backend/app/ingestion/lookthrough.py:43-84 | both facts for the result returned for a present root |
| LookthroughOrder.ResultIgnoresOrder | backend/app/ingestion/lookthrough.py:59-75 | listing the holdings of any report in another order gives the same result |
| LabelRanking.RankLabels | backend/app/ingestion/lookthrough.py:196-198 | the labels come out each once, by falling weight and then by code point |
| LabelRanking.RankingUnique | backend/app/ingestion/lookthrough.py:196-198 | that order determines the list |
| LabelRanking.LexLessIff | backend/app/ingestion/lookthrough.py:196-198 | code-point order: the first place where two labels differ decides, or that one ends there |
| LookthroughStore.BuildNodes | backend/app/ingestion/lookthrough.py:136-181 | the graph of a quarter has one node per report, with the totals of its disclosed rows and the edges of its disclosed holdings |
| LookthroughGraph.EdgesAreHoldings | backend/app/ingestion/lookthrough.py:162-181 | the graph has a node for every listed report and for nothing else, with one edge per disclosed holding of that report in table order, of the row's weight (zero if absent), leading to the last listed report of the contract the row was resolved to, if there is one |
| LookthroughGraph.TargetIsReport | backend/app/ingestion/lookthrough.py:100-173 | with one report per contract, a holding leads to a report if and only if that is a listed report of its contract |
| LookthroughGraph.DirectIsDisclosed | backend/app/ingestion/lookthrough.py:144-160 | a node discloses a label if and only if some disclosed row of the report has it with a weight, and then with the total of those rows |
| LookthroughGraph.OneHopExposure | backend/app/ingestion/lookthrough.py:54-70 | a fund whose only holding is a fund without holdings is exposed to every label by its own disclosure plus that percentage of the other's |
| LookthroughStore.DirectIsTotal | backend/app/ingestion/lookthrough.py:155-160 | a direct weight is the total of all disclosed rows of that report and label, whatever their order |
| LookthroughStore.AllocationTable.StoreRows | backend/app/ingestion/lookthrough.py:184-227 | exactly the derived rows of that report are replaced by its ranked exposure |
| LookthroughStore.DerivedRowsRank | backend/app/ingestion/lookthrough.py:196-204 | every exposed label is stored once with its exposure as the column holds it, ranks run from 1 by falling weight and then label, and stored weights fall with them |
| LookthroughStore.CalculateAndStore | backend/app/ingestion/lookthrough.py:87-133 | for the quarter's parsed quarterly reports both tables hold exactly their derived rows beside what was there; existing metrics combine the two results; a cycle issue is open if and only if one was or either traversal met a cycle |
| LookthroughGraph.MetricsAre | backend/app/ingestion/lookthrough.py:109-116 | metrics hold the coverage by country and the larger unresolved weight to eight digits, the greater depth, and a cycle if either traversal met one |
| LookthroughGraph.CalculateTwoReports | backend/app/ingestion/lookthrough.py:87-133 | calculated over two stored reports, one holding w percent of the other, which discloses d percent of one label: the derived row is w * d / 100, coverage is w, nothing is unresolved, the depth is one, for every w and d |
| LookthroughStore.SelectedAre | backend/app/ingestion/lookthrough.py:90-99 | exactly the parsed quarterly reports of the quarter are taken, each once |
| LookthroughStore.StoringKeepsDisclosure | backend/app/ingestion/lookthrough.py:144-181 | storing keeps every disclosed row, and the graph built afterwards is the graph built before |
| LookthroughStore.StoringTwice | backend/app/ingestion/lookthrough.py:87-133 | calculating the same quarter again leaves the table row for row as it was |
| Calendar.AddWeekdays | backend/app/portfolio_recurring.py:45-52 | returns the least date on or after the start by which that many weekdays have passed, and terminates over weekends |
| Calendar.AfterWeekdaysUnique | backend/app/portfolio_recurring.py:45-52 | that specification determines the date, so one weekday ahead is the next weekday |
| Calendar.WeekdaysAfterIsLeast | backend/app/portfolio_recurring.py:45-52 | the closed form of the date used by the ledger meets it |
| Calendar.WeekdaysCompose | backend/app/portfolio_recurring.py:45-52 | counting m weekdays and then n is counting m + n |
| Calendar.CountedDateIsWeekday | backend/app/portfolio_recurring.py:45-52 | a positive lag ends on a weekday after the start; a lag of zero keeps even a weekend date |
| Calendar.NextWeekday | backend/app/q2_analysis/portfolio_review.py:1499-1503 | returns what counting one weekday returns |
| Calendar.LatestComparableNavDate | backend/app/q2_analysis/portfolio_review.py:1489-1503 | returns the weekday before the latest weekday on or before the date, so that the next weekday is that latest one |
| RecurringService.LedgerStore.CreateRecurringOrders | backend/app/portfolio_recurring.py:78-127 | adds one order for every planned position without one on that date, on weekdays only, copying the plan, and counts them |
| RecurringService.LedgerStore.RecurringPlansPending | backend/app/portfolio_recurring.py:130-172 | decides whether an order of that date is missing or a waiting order has a NAV |
| RecurringService.LedgerStore.SettleRecurringPlans | backend/app/portfolio_recurring.py:175-255 | settles exactly the waiting orders of active positions in the funds whose own date has a NAV, each by one new execution, and counts them; or, if and only if one of them buys no units, settles nothing |
| LedgerScope.CreatesExactly | backend/app/portfolio_recurring.py:55-127 | on Mondays to Fridays an order of that day is added for exactly the active positions with a plan, of the funds asked for, that have none, with the plan's amounts and due after its lag of weekdays; nothing else changes |
| LedgerScope.SettlesExactly | backend/app/portfolio_recurring.py:175-255 | exactly the waiting orders of active positions of the funds asked for whose own date has a NAV are settled at that NAV, for units of eight digits worth the net amount within half a step; all of them, or none if one is too small |
| LedgerScope.AbortsIff | backend/app/portfolio_recurring.py:222-246 | none, if and only if the net amount of one of these is below half a step of units at its NAV |
| LedgerScope.PendingIff | backend/app/portfolio_recurring.py:130-172 | the check is positive if and only if such a position has no order on that weekday, or a waiting order of a fund asked for, active or not, has a NAV on its date |
| LedgerScope.OtherFundsUntouched | backend/app/portfolio_recurring.py:62-206 | creating, settling and a whole run leave every entry of a fund that was not asked for as it is |
| LedgerScope.OtherFundsIgnored | backend/app/portfolio_recurring.py:130-206 | the check and whether a settlement aborts depend on the positions and entries of the funds asked for only |
| LedgerModel.UnitsVanishIff | backend/app/models.py:861-943 | the units of an order round to nothing, against the table constraint, if and only if its net amount is below half a step of units at the NAV |
| RecurringService.LedgerStore.FindExecution | backend/app/portfolio_recurring.py:216-221 | finds an execution for a position and date if and only if there is one |
| RecurringLedger.NoStrayExecution | backend/app/portfolio_recurring.py:216-222 | a waiting order never meets an existing execution, so settling never reuses one |
| RecurringLedger.InsertOrder | backend/app/portfolio_recurring.py:100-120 | a new order keeps the uniqueness of orders and executions and the links between them, and adds exactly its own entry |
| RecurringLedger.SettleOrder | backend/app/portfolio_recurring.py:222-246 | settling one order keeps uniqueness and links and changes exactly its own entry |
| RecurringLedger.ClearPosition | backend/app/portfolio.py:106-108 | clearing both tables of a position keeps uniqueness and links and forgets exactly its entries |
| RecurringLedger.SettledOrdersAreExecutions | backend/app/models.py:861-943 | executions of a position are in one-to-one correspondence with its settled orders, with equal date and amounts |
| RecurringLedger.AmountsConserved | backend/app/portfolio_recurring.py:175-255 | for gross, fee and net alike, executed plus waiting amounts total the ordered amounts of a position |
| LedgerProperties.SettleEarlyIffNotRevised | backend/app/portfolio_recurring.py:199-249 | for settlements that commit, settling early and again later equals settling once later if and only if no NAV used early is later different or missing |
| LedgerProperties.SettleEarlyIff | backend/app/portfolio_recurring.py:199-249 | in general they agree if and only if the early settlement aborts or finds nothing, or the late one commits and no NAV used early is revised |
| LedgerProperties.RevisedNavDiverges | backend/app/portfolio_recurring.py:199-249 | an order and a revised NAV for which they differ |
| LedgerProperties.SettleEachIsSettleOnce | backend/app/portfolio_recurring.py:199-249 | settling after each batch of never-revised NAVs reaches the ledger of settling once at the end, if that settlement commits |
| LedgerProperties.ConfluenceIff | backend/app/portfolio_recurring.py:199-249 | and otherwise if and only if none of the settlements on the way did anything |
| LedgerProperties.SettleTwice | backend/app/portfolio_recurring.py:199-249 | settling again changes nothing, whether it commits or aborts |
| LedgerProperties.CreateThenSettle | backend/app/portfolio_recurring.py:78-249 | creating and settling commute when the new orders have no NAV yet |
| LedgerProperties.PendingIsSound | backend/app/portfolio_recurring.py:130-172 | a negative check means that create and settle change nothing; they change nothing if and only if the check is negative, rests on orders of inactive positions alone, or no order is missing and the settlement aborts |
| LedgerProperties.PendingAfterRun | backend/app/portfolio_recurring.py:130-172 | right after create and settle the check is positive if and only if a waiting order of an inactive position has a NAV or the settlement has aborted |
| LedgerProperties.NothingPendingAfterRun | backend/app/portfolio_recurring.py:130-172 | it is negative when all positions concerned are active and the settlement commits |
| StuckOrders.StuckUntilImported | backend/app/portfolio_recurring.py:130-206 | a stuck order stays stuck, and the check positive on every date, over every run that does not import its position |
| StuckOrders.StuckHistory | backend/app/portfolio_recurring.py:130-206 | importing, ordering, deactivating and then receiving the NAV leads from an empty database to such an order |
| PortfolioImport.AcceptedNetIsClose | backend/app/portfolio.py:204-229 | an accepted plan has a positive gross amount, a net amount within a cent and a half of gross over one plus the fee, and a lag from 0 to 10 |
| PortfolioImport.StoredNetIsClose | backend/app/models.py:28-31 | so have the amounts as their columns hold them, up to the rounding of amounts and fee |
| PortfolioImport.StoredAsGivenIff | backend/app/models.py:793-799 | a snapshot is read back as it was given if and only if no value has more digits than its column |
| ImportMeaning.RowRejectedFor | backend/app/portfolio.py:46-77 | a row is rejected for the first of five reasons that applies, or because a value that must stay positive is rounded to nothing in its column, and accepted otherwise |
| ImportMeaning.RowTakenOver | backend/app/portfolio.py:52-131 | an accepted row is taken over value by value, anchored at the latest NAV of the share up to the snapshot date |
| ImportMeaning.ImportedIff | backend/app/portfolio.py:46-84 | a payload is imported if and only if every row is accepted and no platform and share are listed twice |
| ImportMeaning.PlanIs | backend/app/portfolio.py:204-229 | a plan is accepted if and only if it is daily, of a positive amount, with a fee of 0 to 100 percent, a lag of 0 to 10 days, and a net amount within a cent of what the fee leaves, which is the default in cents |
| ImportMeaning.ColumnsHold | backend/app/models.py:28-31 | units and rates are stored to eight digits, amounts to six |
| PortfolioImport.ImportPortfolio | backend/app/portfolio.py:33-201 | stores all rows as their columns hold them or, on the first error or violated constraint, changes nothing |
| ImportLedgers.ImportUntouched | backend/app/portfolio.py:85-131 | a position that the payload does not list keeps its row, and its entries exactly |
| ImportLedgers.ImportKeepsOrForgets | backend/app/portfolio.py:91-108 | an import keeps the identity of every position, and forgets its whole ledger if and only if the payload's snapshot differs from the stored row, and otherwise keeps all of it |
| ImportLedgers.AcceptedAgainIff | backend/app/portfolio.py:33-84 | a payload once accepted is accepted again, on any database and any NAVs, if and only if every row still has an anchor NAV; so always, while none is deleted |
| ImportLedgers.ReimportForgets | backend/app/portfolio.py:91-131 | importing a payload again, on NAVs that have changed since, keeps the set of positions, moves nothing in them but their anchors, and forgets exactly the ledgers of positions that are not read back as given |
| ImportLedgers.ReimportKeepsLedgerIff | backend/app/portfolio.py:91-131 | so the ledger is kept if and only if every listed position with entries fits its columns and has the anchor date and the anchor NAV of the first import |
| ImportLedgers.SameAnchorIff | backend/app/portfolio.py:52-65 | a position keeps its anchor if and only if the anchor NAV is not revised and no NAV has arrived for a later day up to the snapshot date |
| ImportLedgers.SevenDigitsLoseLedger | backend/app/portfolio.py:91-108 | a profit of seven decimals loses the ledger of its position on unchanged NAVs |
| LateNavs.LateNavLosesOrder | backend/app/portfolio.py:91-108 | a history from an empty database with whole values only: importing the row again changes nothing, but after the NAV of an earlier day has arrived it loses the order |
| LedgerRuns.Replay | backend/app/portfolio_recurring.py:78-255 | performing any list of events on the tables keeps their constraints and ends in the positions, NAVs and ledger of the run |
| LedgerRuns.EveryRunIsSound | backend/app/portfolio_recurring.py:78-249 | over every run of creating, settling, NAV arrival and import from an empty database: orders only on weekdays and for stored positions, due a lag of at most ten weekdays later, positive amounts on their column grids that differ by the fee, and positive settled units worth the net amount within half a step |
| LedgerRuns.UnitsAreClose | backend/app/portfolio_recurring.py:223-225 | units times NAV miss the net amount by at most the NAV times half a step |
| LedgerRuns.RunPreserves | backend/app/portfolio_recurring.py:175-249 | until an import gives its position a snapshot other than the stored one, an order is never lost, its amounts never change, and a settled one never changes at all |
| Alignment.BisectRight | backend/app/q2_analysis/alignment.py:155-166 | the binary search counts the dates on or before the given one |
| Alignment.LatestOnOrBefore | backend/app/q2_analysis/alignment.py:155-159 | finds the latest point on or before the cutoff if there is any |
| Alignment.PreviousBefore | backend/app/q2_analysis/alignment.py:162-166 | finds the latest point strictly before the date |
| Alignment.AlignReturns | backend/app/q2_analysis/alignment.py:45-145 | the loop returns one entry per distinct NAV date in order, for every unsorted input of distinct dates; each is the specified one, and says what the next rows state |
| Alignment.SelectionNames | backend/app/q2_analysis/alignment.py:64-82 | an entry names the latest session that counts, if and only if one does: strictly before the NAV date under the US policy and, by market, for US and UK securities, on or before it otherwise |
| Alignment.PreviousNames | backend/app/q2_analysis/alignment.py:98-106 | it is measured from the session of the entry before, or for the first from the latest earlier one, and is carried forward if and only if the session is the same |
| Alignment.ReturnsReported | backend/app/q2_analysis/alignment.py:104-145 | a local return exists exactly between two different sessions and takes one close to the other; across currencies FX and converted return exist exactly if both dates have a rate of their own, and take rate to rate and product to product |
| Alignment.SelectedMonotone | backend/app/q2_analysis/alignment.py:74-103 | selected dates never decrease, and once one is selected there always is one |
| Alignment.LatestDependsOnPast | backend/app/q2_analysis/alignment.py:155-159 | the point found depends only on the points on or before the cutoff, not on their order |
| AlignmentProperties.LocalsTelescope | backend/app/q2_analysis/alignment.py:74-145 | reported local returns compound to last selected close over base close, through gaps and carried-forward sessions |
| AlignmentProperties.BaseExists | backend/app/q2_analysis/alignment.py:80-103 | as soon as a point is selected the base of the telescope exists |
| AlignmentProperties.ConvertedsTelescope | backend/app/q2_analysis/alignment.py:104-145 | with a rate on every date used, converted returns compound to the ratio of price times rate |
| AlignmentProperties.ConvertedCompounds | backend/app/q2_analysis/alignment.py:104-130 | wherever an FX return is reported, the converted growth is local growth times FX growth |
| AlignmentProperties.SameCurrencyConverts | backend/app/q2_analysis/alignment.py:104-145 | in one currency the converted return is the local one and there is no FX return |
| Alignment.EntrySays | backend/app/q2_analysis/alignment.py:64-145 | all of this of every entry of the specification, whatever was selected before |
| AlignmentProperties.CarriedIffNoNewSession | backend/app/q2_analysis/alignment.py:74-103 | a session is carried forward if and only if none lies between the previous cutoff and this one |
| AlignmentProperties.EntryIsCausal | backend/app/q2_analysis/alignment.py:64-145 | entries up to a date are unchanged by any later NAV date, price or rate |
| FundGrouping.MergeKeepsReferences | backend/app/ingestion/fund_grouping.py:121-181 | after a merge no table refers to a removed contract or report, and exactly the duplicates are removed |
| FundGrouping.OneReportPerPeriod | backend/app/ingestion/fund_grouping.py:204-264 | the primary has exactly one report for every period any member had, and none for any other period |
| MergeLaws.SurvivorIsFurthest | backend/app/ingestion/fund_grouping.py:204-274 | that report is parsed or validly empty if any member's is, else downloaded, else unresolved, else failed with a reason; among equals the primary's own, then one with a document, then the lowest id |
| MergeExample.MergeTwoContracts | backend/app/ingestion/fund_grouping.py:121-264 | merging two contracts of which only the duplicate's report of a quarter was parsed keeps that report, under the primary, whatever else the database holds |
| FundGrouping.MergedReports | backend/app/ingestion/fund_grouping.py:204-264 | the reports left are those of other contracts, unchanged, and the winners, moved |
| FundGrouping.MergeKeepsPeriodsUnique | backend/app/ingestion/fund_grouping.py:204-264 | the period constraint holds afterwards |
| FundGrouping.MergeKeepsRows | backend/app/ingestion/fund_grouping.py:121-181 | no share, artifact, issue or relation is lost, shares keep their codes, other contracts are untouched |
| FundGrouping.MergeRelinks | backend/app/ingestion/fund_grouping.py:230-253 | what was filed under a merged report names the surviving report of the same period, and the rows of a report, in all six tables that belong to it, stay if and only if it does |
| FundGrouping.MergeResolvesIssues | backend/app/ingestion/fund_grouping.py:235-263 | issues of a dropped report end resolved without a report, of a survivor's open issues exactly the failures are resolved, no other status changes |
| FundMerge.PeriodsStayUnique | backend/app/ingestion/fund_grouping.py:204-264 | the period constraint holds after every single statement of the merge |
| FundMerge.DropStep | backend/app/ingestion/fund_grouping.py:223-252 | merging one losing report into its winner moves the whole database exactly one heir further |
| FundMerge.KeepStep | backend/app/ingestion/fund_grouping.py:253-264 | moving one winner to the primary moves it exactly one winner further |
| FundMerge.PrimaryIsUnique | backend/app/ingestion/fund_grouping.py:184-201 | the share priorities choose one primary contract |
| MergeLaws.PrimaryIsPreferred | backend/app/ingestion/fund_grouping.py:84-91 | the primary is judged by the share with its own code or its lowest-coded one: yuan before Hong Kong dollars before dollars before the rest, then class A, none, C, D, the rest, then the lower code |
| MergeLaws.ArtifactMoves | backend/app/ingestion/fund_grouping.py:137-235 | an artifact of a dropped report goes to the primary; any other names the primary if it named a member, and keeps its report |
| MergeLaws.IssueMoves | backend/app/ingestion/fund_grouping.py:144-243 | so does an issue, which stays what it reports |
| MergeLaws.HoldingMoves | backend/app/ingestion/fund_grouping.py:149-153 | a holding that stays keeps its report and is resolved to the primary if it was to a member |
| MergeLaws.RelationMoves | backend/app/ingestion/fund_grouping.py:154-163 | a relation moves with both its ends |
| MergeLaws.FamilyStaysIff | backend/app/ingestion/fund_grouping.py:164-252 | an exposure family stays, unchanged, if and only if neither its contract is a duplicate nor its report was dropped |
| MergeLaws.PrimaryTakesFlags | backend/app/ingestion/fund_grouping.py:168-171 | the primary is selected if any member was, a dependency if all were, and otherwise unchanged |
| FundCatalog.RepresentativePriority | backend/app/ingestion/fund_grouping.py:184-201 | finds the priority of the contract's representative share, or of its lowest-coded one |
| FundCatalog.ChoosePrimary | backend/app/ingestion/fund_grouping.py:121-136 | finds the member that precedes every other |
| FundCatalog.Catalog.MergeReports | backend/app/ingestion/fund_grouping.py:204-264 | the statement-by-statement loop ends in the merged database, with the period constraint kept all along |
| FundCatalog.Catalog.MergeContractGroup | backend/app/ingestion/fund_grouping.py:121-181 | merges members of one key into the chosen primary, and changes nothing for an empty group or different keys |
| FundCatalog.Catalog.ReconcilePublicFundContracts | backend/app/ingestion/fund_grouping.py:94-118 | afterwards selected contracts have pairwise distinct keys, no key is lost, references and periods stay sound, and nothing changes if they were distinct already |
| FundCatalog.ReconcileTwice | backend/app/ingestion/fund_grouping.py:94-118 | a second run merges nothing |
| NavChain.NavSeries.UpsertNavRows | backend/app/ingestion/nav_pipeline.py:141-221 | the loop with its running previous NAV writes every batch date from the batch date before it, the first one from the stored row before it, and nothing else |
| NavReturns.WritesExactly | backend/app/ingestion/nav_pipeline.py:151-219 | exactly the batch dates are written, each with its record and a return that takes the unit NAV of the latest batch date before it, or for the first of the latest stored date, to its own within half a step; no return exactly if there is neither |
| NavReturns.LastRecordWins | backend/app/ingestion/nav_pipeline.py:151-152 | of several records of one date the last counts |
| NavChain.ChainKeptIff | backend/app/ingestion/nav_pipeline.py:151-219 | every stored return stays relative to its immediate predecessor if and only if two tests pass: a row left alone right after a batch date already holds the return relative to it, and a row left alone in a gap gives the next batch date the return that the batch date before gives |
| NavChain.EqualUnitsPass | backend/app/ingestion/nav_pipeline.py:151-219 | equal unit NAVs at those places suffice |
| NavChain.CoveringBatchKeepsChain | backend/app/ingestion/nav_pipeline.py:151-219 | it does whenever the batch contains every stored date from its first date on |
| NavChain.GapBreaksChain | backend/app/ingestion/nav_pipeline.py:151-219 | a revising batch that stops short of a later row breaks it |
| NavChain.UpsertTwice | backend/app/ingestion/nav_pipeline.py:151-219 | running a batch again changes nothing |
| OperationQueue.StageTablesAgree | backend/app/operation_queue.py:27-33 | the stage lists have exactly the lengths of the totals table, and none is empty |
| OperationQueue.StepSafe | backend/app/operation_queue.py:36-153 | every commit keeps all row constraints, at most one active row, and the worker's view of it |
| OperationQueue.EveryRunIsSafe | backend/app/operation_queue.py:27-153 | so does every interleaving of requests, commits, exceptions, crashes and restarts from the empty queue |
| OperationQueue.RunAdvances | backend/app/models.py:1016-1041 | over every run rows are only appended, finished rows never change, and progress never falls |
| OperationQueue.ExecutionIsUndisturbed | backend/app/operation_queue.py:36-153 | requests that arrive while the worker executes are all rejected and change nothing, so an execution is as good as atomic |
| OperationQueue.RestartFrees | backend/app/operation_queue.py:80-91 | after a crash and a restart nothing runs, at most one row was failed, and a request is accepted unless one is still queued |
| OperationMeaning.RequestIs | backend/app/operation_queue.py:36-73 | a request is accepted exactly when no row holds the slot, and appends one queued row with nothing done out of three stages for a preparation and one for anything else |
| OperationMeaning.ClaimTakesEarliest | backend/app/operation_queue.py:94-109 | an idle worker takes the earliest queued row into its first stage; nothing else changes |
| OperationMeaning.RestartFailsRunning | backend/app/operation_queue.py:80-91 | a restart fails the running rows, frees the slot, and changes no other row |
| OperationMeaning.StagesBeforeCompletion | backend/app/operation_queue.py:118-153 | an operation completes only after its last stage, and after that no stage can begin, finish or raise |
| OperationStore.DataOperations.EnqueueOperation | backend/app/operation_queue.py:36-73 | appends a queued row if the slot is free, else reports the active one and changes nothing |
| OperationStore.DataOperations.ClaimNextOperation | backend/app/operation_queue.py:94-109 | claims the earliest queued row, as the state machine does |
| OperationStore.DataOperations.ExecuteOperation | backend/app/operation_queue.py:112-153 | runs stages and commits as an execution of the state machine, failing on the first stage that raises, and refuses an operation that is not running |
| OperationStore.DataOperations.RecoverInterruptedOperations | backend/app/operation_queue.py:80-91 | fails exactly the running rows and counts them |
| OperationStore.ExecutionEnds | backend/app/operation_queue.py:112-153 | an execution ends with the operation finished and the worker idle; without an error every stage is completed |
| OperationStore.ExecutionAddsUp | backend/app/operation_queue.py:118-153 | an execution without an error adds the totals of all its stages to every counter, keeps all run ids in order, and succeeds or fails if and only if every stage did |
| OperationMeaning.ExecutionSucceeds | backend/app/operation_queue.py:112-153 | if all stages return, the counters grow by the totals over all their ingestion runs and results, the row leaves the slot without an error, and no other row changes |
| OperationMeaning.ExecutionFails | backend/app/operation_queue.py:119-144 | if a stage raises, the row fails with exactly the stages before it on record, in counters and in progress |
| Consistency.BiasWithinMae | backend/app/q2_analysis/consistency.py:259-270 | over one window the bias never exceeds the mean absolute error, rounding included, and both exist together |
| Consistency.CauchySchwarz | backend/app/q2_analysis/consistency.py:278-283 | the numerator squared is at most the product of the two sums of squares |
| Consistency.CorrelationInRange | backend/app/q2_analysis/consistency.py:273-287 | whenever a correlation is reported both variances are positive and its numerator squared is at most their product |
| Consistency.CorrelationWithinOne | backend/app/q2_analysis/consistency.py:273-287 | the reported correlation lies between minus one and one, for every root that falls short of the exact one by at most four parts in a thousand million |
| Consistency.ResidualStreak | backend/app/q2_analysis/consistency.py:290-299 | the length of the longest suffix of present, non-zero residuals of one sign |
| Consistency.LongestRunIsUnique | backend/app/q2_analysis/consistency.py:290-299 | there is one such length |
| Consistency.StreakFixesBias | backend/app/q2_analysis/consistency.py:130-158 | over a window inside the streak the bias is the mean absolute error with the sign of the streak, although one is taken over days and the other over paired days |
| Consistency.StreakVerdict | backend/app/q2_analysis/consistency.py:219-256 | after a streak of five days exposure counts as changed if and only if the mean absolute error reaches the smaller of two thresholds or the cumulative test holds |
| Consistency.VerdictMonotone | backend/app/q2_analysis/consistency.py:219-256 | worse evidence never earns a milder verdict |
| Consistency.EvaluateConsistency | backend/app/q2_analysis/consistency.py:103-191 | the assessment of the sorted predictions, with all windows and the longest run, or an empty one when not applicable |
| ConsistencyMeaning.EvidenceIs | backend/app/q2_analysis/consistency.py:124-168 | observations count the days with both returns; error and bias of five, ten and twenty are means of the sizes and of the values of the last such gaps, to half a step; the cumulative residual is the total gap; coverage is the mean of the last five days, paired or not |
| ConsistencyMeaning.StreakIs | backend/app/q2_analysis/consistency.py:290-299 | the streak is the greatest number of last days whose actual return lies on one side of the predicted one |
| ConsistencyMeaning.SumsAre | backend/app/q2_analysis/consistency.py:273-283 | numerator and variances are sums of products of deviations from the two means |
| ConsistencyMeaning.CorrelatedIff | backend/app/q2_analysis/consistency.py:273-285 | there is a correlation if and only if the lists have one length of at least two and neither is constant |
| ConsistencyMeaning.VerdictIff | backend/app/q2_analysis/consistency.py:219-256 | each of the four verdicts is given if and only if its own evidence holds |
| Consistency.CumulativeIsDifference | backend/app/q2_analysis/consistency.py:125-146 | the cumulative residual is total actual less total predicted return of the paired days, up to half a step |
| Consistency.CoveredDaysSuffice | backend/app/q2_analysis/consistency.py:302-306 | enough coverage on each of the last five days is enough recent coverage, for a minimum of eight digits; for any other up to the rounding of the minimum |
| Consistency.AssessmentIgnoresOrder | backend/app/q2_analysis/consistency.py:124-168 | with one prediction per date the assessment depends on the set of predictions only |
| DayOrder.SortingForgetsOrder | backend/app/q2_analysis/consistency.py:124 | sorting gives one list for every order of distinct dates |
| DayOrder.SortedKeeps | backend/app/q2_analysis/consistency.py:198 | sorting gives the same days in date order |
| Consistency.CumulativePoints | backend/app/q2_analysis/consistency.py:194-216 | one point per day in date order, compounding both series over the days paired so far, and none on unpaired days |
| ConsistencyMeaning.PointsAre | backend/app/q2_analysis/consistency.py:194-216 | a point's cumulative return is the product of one plus the returns of the paired days so far, less one, to half a step |
| Consistency.FactorOfPaired | backend/app/q2_analysis/consistency.py:198-205 | unpaired days carry no weight: the factor is that of the paired days alone |
| Predictor.PredictDay | backend/app/q2_analysis/predictor.py:131-290 | the day's prediction or the first failed check, in the source's order |
| Predictor.AllocateProxies | backend/app/q2_analysis/predictor.py:169-204 | each proxy gets its part of the undisclosed equity and the last return of its symbol; the priced weight is what got one |
| PredictorMeaning.PredictionIs | backend/app/q2_analysis/predictor.py:151-257 | the predicted return is the total of weight times return / 100 over holdings with a return, proxies on their share of the undisclosed equity, and resolved funds, within half a step per line |
| PredictorMeaning.ContributionsAre | backend/app/q2_analysis/predictor.py:167-257 | each reported contribution is the total of its own lines, within half a step per line |
| PredictorMeaning.LastReturnIs | backend/app/q2_analysis/predictor.py:173-179 | a proxy's return is that of the last entry of its symbol |
| PredictorProperties.ContributionsAddUp | backend/app/q2_analysis/predictor.py:242-275 | the three reported contributions add up to the reported prediction exactly |
| PredictorMeaning.PredictedIff | backend/app/q2_analysis/predictor.py:242-249 | a return is predicted if and only if something with a positive weight has one: a holding, a resolved fund, or a proxy while equity is undisclosed |
| PredictorProperties.IntervalContains | backend/app/q2_analysis/predictor.py:429-456 | the bounds keep at least half a point on both sides of the prediction, rounding included, and two and a quarter with fewer than three residuals |
| PredictorMeaning.IntervalIs | backend/app/q2_analysis/predictor.py:429-456 | the bounds lie at the recent mean error, at least half a point, plus 3 percent of what has no return, 4 of the equity no proxy covers and 1.5 of that which one does, from the prediction, to half a step |
| PredictorMeaning.ConfidenceIs | backend/app/q2_analysis/predictor.py:459-476 | high and low confidence each under exactly their conditions on history, explained weight and proxies, medium otherwise |
| PredictorMeaning.OutcomeIs | backend/app/q2_analysis/predictor.py:258-265 | the residual is actual less predicted return, to half a step, and exists if and only if both do |
| PredictorProperties.IntervalCoversRecentError | backend/app/q2_analysis/predictor.py:440-456 | from three residuals on, the bounds lie at least the mean absolute error of the last ten away from the prediction, up to half a step |
| PredictorProperties.ShortHistoryIgnored | backend/app/q2_analysis/predictor.py:440-456 | with one or two residuals the day is predicted exactly as with none |
| PortfolioReview.ShortHistoryNotCovered | backend/app/q2_analysis/predictor.py:440-456 | one residual of ten points, and bounds of two and a quarter |
| PredictorProperties.MoreInformationNarrowsIff | backend/app/q2_analysis/predictor.py:165-220 | of two accepted days that differ in returns only, the one with a return for more lines has no larger half width if and only if the rise of the proxy charges over the undisclosed equity is within what the new securities and funds save; always when the priced proxy weights total at most one or, going from a to b, satisfy 3 (b - 1) <= 5 (1 - a) |
| PredictorProperties.ProxyRiseSign | backend/app/q2_analysis/predictor.py:446-453 | that inequality, or a = b, is exactly when the proxy charges do not rise |
| PredictorProperties.WideningNeedsNearlyAllPriced | backend/app/q2_analysis/predictor.py:323-326 | with proxies as the file admits them a widening needs more than 0.9999994 of them priced before |
| PredictorProperties.MoreInformationWidens | backend/app/q2_analysis/predictor.py:446-453 | two proxies the file admits, of which pricing the second widens the half width by 0.00000135, whatever the history |
| PredictorProperties.ActualIsNotUsed | backend/app/q2_analysis/predictor.py:131-290 | the day's actual return enters only the reported actual return and the residual |
| PredictorProperties.HistoryOnlyWidens | backend/app/q2_analysis/predictor.py:131-290 | earlier residuals move the bounds and the confidence only, never acceptance, prediction or coverage |
| PredictorProperties.ConfidenceGrows | backend/app/q2_analysis/predictor.py:459-476 | a longer history or more explained weight never lowers the confidence |
| PredictorProperties.WeightsAccounted | backend/app/q2_analysis/predictor.py:152-220 | disclosed weight is exactly priced plus missing plus unresolved, fund weight exactly resolved plus unresolved |
| PredictorProperties.CoverageAccounts | backend/app/q2_analysis/predictor.py:228-241 | the reported coverage fields keep those accounts up to their own rounding, in order, and explain at most 100 |
| PredictorMeaning.CoverageIs | backend/app/q2_analysis/predictor.py:152-241 | every one of the twelve coverage fields is the weight it is named after, to half a step |
| PredictorMeaning.RejectedIff | backend/app/q2_analysis/predictor.py:145-226 | a day is rejected for the first of four reasons that applies, each stated of its holdings, funds and proxies, and accepted otherwise |
| PredictorProperties.ExplainedFiresIff | backend/app/q2_analysis/predictor.py:222-226 | after the earlier checks the last one fires if and only if priced securities, undisclosed equity times the weights of priced proxies, resolved funds and cash exceed the limit |
| PredictorProperties.FiringNeeds | backend/app/q2_analysis/predictor.py:161-226 | which needs securities above the reported equity or proxy weights above one |
| PredictorProperties.FiringIsNearLimit | backend/app/q2_analysis/predictor.py:209-226 | and, with proxies as the file admits them, reported weights above 100 |
| PredictorProperties.OverDisclosureRejected | backend/app/q2_analysis/predictor.py:161-226 | an input of the first kind on which it fires |
| PredictorProperties.ProxyTotalRejected | backend/app/q2_analysis/predictor.py:323-326 | one of the second kind, with weights the proxy file admits |
| PortfolioReview.AnalyzeDays | backend/app/q2_analysis/portfolio_review.py:511-546 | the loop predicts every day from the residuals of the days before it |
| PortfolioMeaning.ReviewIs | backend/app/q2_analysis/portfolio_review.py:511-546 | one prediction per day in order, each from exactly the residuals present in the predictions before it |
| PortfolioReview.NoLookAhead | backend/app/q2_analysis/portfolio_review.py:511-546 | a day's prediction, bounds and coverage do not depend on that day's actual return or on any later day |
| PortfolioReview.FailsIffRejected | backend/app/q2_analysis/portfolio_review.py:513-543 | the review fails if and only if some day's weights are rejected, with the first such error |
| PortfolioReview.ResidualsAgreeIff | backend/app/q2_analysis/consistency.py:130-133 | the recomputed residual is the stored one if and only if the actual return lies on no half step or on the residual's side of zero, and at most one step off otherwise |
| PortfolioReview.ResidualsDiffer | backend/app/q2_analysis/predictor.py:258-262 | an actual return of half a step for which they differ |
| PortfolioReview.StoredReturnsAgree | backend/app/q2_analysis/portfolio_review.py:713-718 | for returns read from their columns they always agree |
| PortfolioReview.PredictPortfolio | backend/app/q2_analysis/portfolio_review.py:1010-1047 | a prediction if and only if the valuation is complete, every weighted fund has one, and the weights total one up to a step |
| PortfolioMeaning.CarriedAre | backend/app/q2_analysis/portfolio_review.py:1019-1039 | what is added up is weight times value of the funds that carry weight and have a prediction |
| PortfolioReview.BoundsSurvive | backend/app/q2_analysis/portfolio_review.py:1032-1047 | with non-negative weights the portfolio bounds keep half a point around its prediction if the weights total at least one, and otherwise at most one step less |
| PortfolioReview.HalfPointLost | backend/app/q2_analysis/portfolio_review.py:1020-1047 | no smaller total guarantees it: for every accepted total below one there is a fund, with a prediction of whole steps half a point from its bounds, that loses exactly one step |
| PortfolioReview.PortfolioBounds | backend/app/q2_analysis/portfolio_review.py:511-546 | end to end from the days of the funds: no margin is assumed, the intervals of the daily predictions provide it |
| PortfolioReview.CommonCumulativePoints | backend/app/q2_analysis/portfolio_review.py:1281-1309 | points exist if and only if every series is paired on the comparison date; then all of them compound exactly the same dates and end on that date |
| Valuation.CapitalConserved | backend/app/api.py:1553-1582 | estimated market value less profit is the reported difference plus the recurring gross amount, within three half cents, and exactly in whole cents |
| Valuation.CapitalErrorIs | backend/app/api.py:1571-1582 | the deviation is exactly the rounding error of the market value less that of the profit plus that of the gross amount |
| Valuation.CapitalExactIff | backend/app/api.py:1571-1582 | so it is zero if and only if these cancel; away from half cents that is a test on the three amounts alone, whatever the NAV |
| Valuation.CentsAreNotNecessary | backend/app/api.py:1571-1582 | amounts of three decimals that keep the capital, and others that lose it |
| Valuation.EstimateFollowsNav | backend/app/api.py:1553-1582 | market value and profit move with the units at the new NAV and the cost of the purchases, within three and four half cents |
| Valuation.BoundIsSharp | backend/app/api.py:1571-1582 | three half cents are attained by a position with one purchase that the tables admit |
| Valuation.CumulativeFollowsProfit | backend/app/api.py:1578-1599 | estimated cumulative profit differs from estimated profit as the reported ones do, within a cent, and exactly in whole cents |
| Valuation.ReturnIsContinuousIff | backend/app/api.py:1583-1594 | a cost basis is positive; at the reported profit without purchases the platform's own return comes out again if and only if the rounded NAV move is nothing, that return has the sign of the profit, or the market value is not above the profit |
| ValuationMeaning.ReturnIs | backend/app/api.py:1583-1594 | the cost basis is that of the snapshot plus the purchases; the return is the profit on it once the rounded NAV move or a purchase counts and it is positive, and the reported one otherwise |
| ValuationMeaning.SnapshotCostIs | backend/app/api.py:1897-1914 | the snapshot's cost is the amount on which the reported profit is the reported return, else market value less profit, if positive |
| Valuation.SummarizeCurrencies | backend/app/api.py:1541-1608 | every currency's totals are those of its positions' estimates: whole cents whose difference is the capital of its positions, within three half cents each |
| Valuation.TotalsAreRounded | backend/app/api.py:1809-1822 | rounding the totals once more changes nothing |
| Decimals.QuantizeError | backend/app/portfolio_recurring.py:223-225 | rounding moves a value by at most half a step |
| Decimals.QuantizeMonotone | backend/app/q2_analysis/consistency.py:309-310 | rounding keeps the order of values |
| Decimals.QuantizeOnGrid | backend/app/api.py:1893-1894 | rounding yields whole steps and leaves whole steps alone |
| Decimals.QuantizeShiftIff | backend/app/q2_analysis/predictor.py:258-262 | rounding a difference and rounding before subtracting whole steps agree if and only if the value is on no half step or on the difference's side of zero |

## Left out

- Row ids are integers, share and fund codes of the grouping are natural numbers in the order of the six-digit codes; timestamps, fetch times, source URLs and explanations in prose are not modelled.
- `Decimal` is an exact real: the 28-digit context is not modelled. Rounding to a column's scale is modelled for positions, plans, calculated NAV returns and derived allocations; other values, such as unit NAVs, arrive with no more digits than their columns hold.
- The grouping key is a parameter: normalising manager names, wrappers and share suffixes is not part of this model.
- Whether two currencies are the same is a parameter of the alignment; trimming and upper-casing is not modelled.
- Consistency.CorrelationInRange: bounds the numerator by the product under the root; in the division the root is any number that close to the exact one (`Consistency.CorrelationWithinOne`), not the floating-point root itself.
- Consistency.EvaluateConsistency: the correlation enters the verdict as an unspecified function of its three sums, for the same reason.
- Predictor.PredictDay: does not itemise the contributions, whose rounded sums it reports, nor their names and notes; the proxy file's rules enter as hypotheses where needed.
- PortfolioImport.ImportPortfolio: does not import cash flows, whose errors also reject the whole payload, nor fee overrides with their range constraints, data-quality notes and issues; none of them is compared with the stored snapshot.
- Valuation.SummarizeCurrencies: does not total cost basis, daily profit and the recurring counters, which are plain sums beside the two amounts modelled.
- One NAV row per share and date: with several providers the ledger uses the latest row, which is taken as given.
- NavChain.NavSeries.UpsertNavRows: one share and one provider; several series are independent copies. The issue recorded when published and calculated return differ is not modelled.
- More than one worker, and recovery while another worker still executes: the worker is declared to be the only one.
- Daily profit, conversion to a second currency and fees on the portfolio page: sums and products without further structure.
- HTTP clients, parsers of providers and documents, migrations, schemas and the front end.
