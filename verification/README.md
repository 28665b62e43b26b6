# Verified model of the inventory, outbox and billing cores

A Dafny model of the parts of the detailing-shop backend in which many functions have to agree:

- **Stock engine** (`StockTypes`, `BatchSelection`, `Stock`, `StockSpec`, `StockLaws`, `StockEffects`, `StockRuns`,
  `StockSnapshots`, `AverageCost`, `BatchLabels`, `ShelfLaws`, `ThresholdLaws`). `Stock.Stock` is the mutable
  aggregate over a list of `Stock.Batch` objects. Each method is proved against a function of `StockSpec` on the
  aggregate's value; the laws are then proved about those functions, for one operation and for whole runs.
- **Documents and sagas** (`Documents`, `DocumentLives`, `DocumentHistories`, `AdjustmentLaws`, `Inventory`, `Sagas`,
  `Deliveries`, `Interleavings`, `SystemLedger`, `TransferLaws`, `TransferRedelivery`, `TransferTallies`,
  `TransferRefusals`, `CancellationLaws`, `CancellationReplay`, `StockTakingLaws`, `StockTakingRun`). The event
  handlers work on a repository of stored rows, a set of processed keys and an id generator. What they do to the whole
  system is proved over redelivery, interruption and thrown errors.
- **Outbox poller** (`Outbox`, `OutboxLaws`). A state machine whose steps are the segments of code between two awaits;
  `Outbox.OutboxPoller` has one method per segment, and the laws range over every run of steps.
- **Calendar and billing** (`Calendar`, `GregorianCalendar`, `Billing`, `SubscriptionHistory`). Gregorian arithmetic
  as section 21.4.1 of ECMA-262 defines it, `plusMonths` on top of it, and the subscription's chain of periods.
- **Money** (`Money`) and **cursor paging** (`VisitHistory`).
- **Witnesses** (`Witnesses`): one concrete input for each surprise listed below.

`Basics`, `Sequences` and `Maps` hold the shared arithmetic, filters and sums. `dafny verify dfyconfig.toml` checks the
whole project.

Quantities are exact reals, money is whole cents, instants are milliseconds, `Math.round` is the floor of x + 1/2.
A saga's `stop` parameter is the number of lines it gets through before its process ends.

## Where the code does less than its documents promise or a caller may expect

The model follows the code. The law named says exactly when the expected behaviour holds, and the witness gives an input
at which it does not.

- The sufficiency check counts expired batches and the selector skips them, so an accepted consumption or transfer can
  be served short: `StockEffects.ServedInFull`; `Witnesses.AcceptedAndServedShort`.
- Receipt and adjustment keys are per document and SKU, so a later line of a SKU is skipped as already processed:
  `Deliveries.EveryLineApplied`, `Deliveries.ReceiptCreditedInFull`, `Deliveries.AdjustmentAppliedInFull`;
  `Witnesses.RepeatedReceiptLineIsLost`, `Witnesses.RepeatedDeltaIsLost`.
- A transfer marks its key only after the last line, so one that stops before is handled again from its first line, and
  a line already moved may move again: `TransferRedelivery.Redelivered`, `TransferRedelivery.RedeliveryMatches`,
  `TransferTallies.RedeliveriesAreOne`; `Witnesses.StoppedTransferMovesTwice`.
- Or it is refused, if its source no longer holds the quantity. Then it and all lines after it wait, whatever else is
  handled, until a delivery finds it no longer refused: `TransferRefusals.RefusedWaits`,
  `TransferRefusals.DeliveryMoves`, `TransferRefusals.RestWaits`; `Witnesses.StoppedTransferWaits`, and
  `Witnesses.RefilledTransferGoesOn` for one that goes on, moving its first line twice.
- The two saves of a transfer line are separate, so a process that ends between them loses what the line was to move:
  `TransferLaws.HalfSavedLoses`; `Witnesses.OilIsLostBetweenSaves`.
- Adjustment lines are rounded one by one with halves upwards, so a line and its reversal may not cancel out:
  `AdjustmentLaws.ReversalApproved`, `AdjustmentLaws.TotalIsWorth`; `Witnesses.ReversalIsPending`.
- A receipt cancelled before all its lines were handled can come back into stock when it is delivered again:
  `CancellationLaws.CancellationIsFinal`; `Witnesses.CancelledReceiptComesBack`.
- Cancelling a receipt undoes its posting, but not the base unit of a stock that it opened. A line of another receipt
  that was refused for that unit meanwhile is missing afterwards: `CancellationReplay.NeverPostedExactly`,
  `CancellationReplay.AsIfNeverPosted`; `Witnesses.OtherUnitIsLost`.
- A stock-taking cannot take a stock below what has expired in it, and the unit of the recorded count is ignored:
  `StockTakingLaws.StockTakingReachesCount`, `StockTakingLaws.CountInUnit`; `Witnesses.KilogramsBecomeGrams`.
- Billing dates are stepped month by month, so one short month moves all later dates: `Calendar.BoundaryAgrees`,
  `Billing.NextBillingDate`; `Witnesses.EndOfJanuaryDrifts`.
- A reactivation may set the next billing date before the period's own start, which the period's constructor would
  refuse: `Billing.LifeIsChain`, `Billing.PeriodsTile`; `Witnesses.ShortPaymentBreaksThePeriod`.
- A cancelled subscription can still advance its period: `Billing.CancelledAdvances`; `Witnesses.CancelledAndAdvanced`.
- Restoring a stock reads its reorder level in the base unit, whatever unit it had: `StockSnapshots.SnapshotRoundTrip`;
  `Witnesses.ReorderLevelLosesItsUnit`.
- The visit-history cursor is a time and the next page starts strictly below it, so rows of one time split by a page
  border are lost: `VisitHistory.PagesComplete`; `Witnesses.SecondVisitIsLost`.
- Shutdown is checked before the outbox query and not after it, so a query under way when shutdown begins still has its
  rows processed: `OutboxLaws.NothingNewAfterShutdown`, `OutboxLaws.QueryUnderWayLoads`;
  `Witnesses.ShutdownDuringQuery`.

## Model

| member | source | states |
|---|---|---|
| BatchSelection.BatchSelectionService.SelectForConsumption | libs/backend/inventory/domain/src/services/batch-selection.service.ts:12-44 | the loop yields the greedy allocation over the unexpired, undepleted batches in stable sorted order |
| BatchSelection.SortOrdered | libs/backend/inventory/domain/src/services/batch-selection.service.ts:46-65 | the sort puts earlier expiry first with never-expiring last, ties by arrival (FEFO), or earlier arrival first (FIFO) |
| BatchSelection.SortStable | libs/backend/inventory/domain/src/services/batch-selection.service.ts:46-65 | batches the comparator does not tell apart keep the order they had in the stock |
| BatchSelection.SelectionFits | libs/backend/inventory/domain/src/services/batch-selection.service.ts:17-37 | no batch gives less than nothing or more than it holds, and an expired or depleted batch gives nothing |
| BatchSelection.SelectionTotal | libs/backend/inventory/domain/src/services/batch-selection.service.ts:20-43 | the allocations add up to exactly the lesser of the amount asked and the unexpired stock |
| BatchSelection.SelectionTakes | libs/backend/inventory/domain/src/services/batch-selection.service.ts:20-43 | out of any class the order serves first, exactly the lesser of the amount and what the class holds unexpired is taken |
| BatchSelection.SelectionOptimal | libs/backend/inventory/domain/src/services/batch-selection.service.ts:12-65 | for every batch list, amount, instant and class served first, no feasible allocation of the same total leaves less unexpired stock of the class behind |
| BatchSelection.SelectionGoesAlong | libs/backend/inventory/domain/src/services/batch-selection.service.ts:20-43 | allocations come in the order of the strategy, each with the batch's own id and unit cost, and only the last may leave something of its batch |
| BatchSelection.Deadlines | libs/backend/inventory/domain/src/services/batch-selection.service.ts:49-62 | "expires by T", "expires before, or with and received by T" (FEFO) and "received by T" (FIFO) are such classes |
| Stock.Batch.Decrement | libs/backend/inventory/domain/src/stock/batch.entity.ts:90-96 | lowers the remaining quantity by the amount, or refuses more than remains or a foreign unit and changes nothing |
| Stock.Stock.TotalQuantity | libs/backend/inventory/domain/src/stock/stock.aggregate.ts:167-175 | the running total is the sum of what remains in all batches, expired ones included |
| Stock.Stock.Receive | libs/backend/inventory/domain/src/stock/stock.aggregate.ts:143-165 | appends one batch with a fresh id and re-averages over what was on hand before it; a foreign unit changes nothing; the invariant holds after |
| BatchLabels.ReceivedGauge | libs/backend/inventory/domain/src/stock/stock.aggregate.ts:143-165 | under every rate by supplier, source, initial quantity, cost, expiry and arrival, a receive adds exactly its quantity under the values of its details |
| BatchLabels.ReceivedUnexpired | libs/backend/inventory/domain/src/stock/stock.aggregate.ts:148-157 | at any instant a receive adds its quantity to the unexpired stock if it never expires or expires later, and nothing otherwise |
| BatchLabels.FifoServes | libs/backend/inventory/domain/src/services/batch-selection.service.ts:46-65 | after a receive, first-in-first-out takes from what was received by any deadline, the new batch included exactly if it was, the lesser of the amount and all that is good of it |
| BatchLabels.FefoServes | libs/backend/inventory/domain/src/services/batch-selection.service.ts:46-65 | after a receive, first-expired-first-out does so for what expires by any deadline |
| BatchLabels.KindServed | libs/backend/inventory/domain/src/services/batch-selection.service.ts:20-43 | so for every kind of stock the strategy serves first |
| Stock.Stock.RecalculateAverageCost | libs/backend/inventory/domain/src/stock/stock.aggregate.ts:385-402 | new average from the old total: the new cost when nothing is on hand, else the rounded weighted mean, always a valid Money |
| Stock.Stock.ApplyAllocations | libs/backend/inventory/domain/src/stock/stock.aggregate.ts:195-199 | finding and decrementing batch by batch succeeds every time and lowers each batch by all that is allocated to it |
| Stock.Stock.RemoveDepleted | libs/backend/inventory/domain/src/stock/stock.aggregate.ts:367-373 | splicing from the end leaves exactly the batches with something left, in their order |
| Stock.Stock.SumAllocationCost | libs/backend/inventory/domain/src/stock/stock.aggregate.ts:375-383 | the reported cost is the sum of the allocations' costs, each rounded to a cent, and always a valid Money |
| Stock.Stock.Consume | libs/backend/inventory/domain/src/stock/stock.aggregate.ts:177-219 | refused with the state unchanged, or each batch falls by its allocation, depleted ones vanish, and the consumption is followed by at most one threshold event |
| ThresholdLaws.WhenRaised | libs/backend/inventory/domain/src/stock/stock.aggregate.ts:209-216 | an accepted consumption raises out-of-stock if and only if total less min(amount, unexpired) is zero, low stock with x if and only if x is that, positive, at most the level, and the total before was above the level |
| ThresholdLaws.LowStockOnce | libs/backend/inventory/domain/src/stock/stock.aggregate.ts:209-216 | over any run of consumptions at a fixed level low stock is raised at most once, exactly when the stock comes from above the level and stops at or under it with something left |
| Stock.Stock.Adjust | libs/backend/inventory/domain/src/stock/stock.aggregate.ts:221-267 | up: one batch at the average cost with a fresh id; down: as a consumption, refused when the total is short; zero: only an event |
| BatchLabels.AdjustedGauge | libs/backend/inventory/domain/src/stock/stock.aggregate.ts:233-247 | an upward adjustment adds its delta as a batch of no supplier that never expires, at the average cost, from the reason, arriving then |
| Stock.Stock.DescribeAllocations | libs/backend/inventory/domain/src/stock/stock.aggregate.ts:293-301 | each detail carries the allocation's quantity and cost and the expiry of the batch it came from |
| Stock.Stock.TransferOut | libs/backend/inventory/domain/src/stock/stock.aggregate.ts:269-307 | takes as a consumption does and hands out the details as they were before depleted batches vanished |
| Stock.Stock.ReceiveDetails | libs/backend/inventory/domain/src/stock/stock.aggregate.ts:310-324 | takes in details one by one up to the first in a foreign unit, drawing one id each, also for the refused one |
| Stock.Stock.TransferIn | libs/backend/inventory/domain/src/stock/stock.aggregate.ts:309-327 | appends a batch per detail with its quantity, cost and expiry; a foreign unit stops it there |
| BatchLabels.TransferredInGauge | libs/backend/inventory/domain/src/stock/stock.aggregate.ts:309-327 | details arrive with their quantity, cost and expiry, of no supplier, at the instant of the transfer |
| Stock.Stock.ChangeReorderLevel | libs/backend/inventory/domain/src/stock/stock.aggregate.ts:329-336 | sets a level given in the base unit and refuses any other |
| Stock.Stock.RemoveBatchesBySourceDoc | libs/backend/inventory/domain/src/stock/stock.aggregate.ts:338-344 | leaves exactly the batches of other documents, in their order |
| StockLaws.ChosenSound | libs/backend/inventory/domain/src/stock/stock.aggregate.ts:193-199 | every allocation is in the base unit, and together they never ask a batch for more than it holds |
| StockLaws.ReceivedOk | libs/backend/inventory/domain/src/stock/stock.aggregate.ts:143-165 | receiving keeps distinct ids, one unit and 0 <= remaining <= initial, and uses one new id |
| StockLaws.WithdrawnOk | libs/backend/inventory/domain/src/stock/stock.aggregate.ts:193-201 | so does withdrawing, introducing no id |
| StockLaws.AdjustedKeeps | libs/backend/inventory/domain/src/stock/stock.aggregate.ts:221-267 | so does adjusting, using an id only when it adds a batch |
| StockLaws.TransferredInOk | libs/backend/inventory/domain/src/stock/stock.aggregate.ts:309-327 | so does transferring in, using consecutive ids |
| StockLaws.WithoutDocumentOk | libs/backend/inventory/domain/src/stock/stock.aggregate.ts:338-344 | so does removing a document |
| StockEffects.WithdrawnTotal | libs/backend/inventory/domain/src/stock/stock.aggregate.ts:177-219 | a withdrawal lowers the total by exactly min(amount, unexpired stock) |
| StockEffects.UnexpiredAfter | libs/backend/inventory/domain/src/services/batch-selection.service.ts:17-37 | a withdrawal falls wholly on the unexpired stock: expired batches keep what they hold |
| StockEffects.NothingSent | libs/backend/inventory/domain/src/services/batch-selection.service.ts:23-37 | nothing is allocated if and only if nothing is asked for or nothing unexpired is there |
| StockEffects.ServedInFull | libs/backend/inventory/domain/src/stock/stock.aggregate.ts:187-193 | an accepted request is served in full if and only if the unexpired stock covers it |
| StockEffects.WithdrawnWeight | libs/backend/inventory/domain/src/stock/stock.aggregate.ts:285-301 | for every weight by unit cost and expiry, the stock loses exactly what the transfer details carry |
| StockEffects.ConsumptionCost | libs/backend/inventory/domain/src/stock/stock.aggregate.ts:193-218 | stock value falls by the exact cost of the allocations; the reported cost is within half a cent per allocation of it and equal for whole quantities |
| StockRuns.RunLedger | libs/backend/inventory/domain/src/stock/stock.aggregate.ts:143-344 | over any run the invariant holds, and the total is the opening total plus everything received, adjusted up and transferred in less everything allocated and removed |
| ShelfLaws.RunGauge | libs/backend/inventory/domain/src/stock/stock.aggregate.ts:143-344 | over any run, for every rate by label: what is there is what was, plus what receives, upward adjustments and transfers brought under the labels they gave, less what was taken and removed; no batch changes its label |
| ShelfLaws.RunKeeps | libs/backend/inventory/domain/src/stock/stock.aggregate.ts:329-336 | over any run the SKU, branch and unit stay, the reorder level is the last one set in that unit, and only receives move the average cost |
| StockRuns.AverageBetween | libs/backend/inventory/domain/src/stock/stock.aggregate.ts:385-402 | a receive puts the average between the old average and the new cost |
| StockRuns.AverageStaysWithin | libs/backend/inventory/domain/src/stock/stock.aggregate.ts:385-402 | once within the cheapest and dearest received cost, the average stays there over any run of any operations |
| StockRuns.AverageStarts | libs/backend/inventory/domain/src/stock/stock.aggregate.ts:386-392 | a receive into empty stock starts the average at its own cost |
| StockRuns.AverageDrift | libs/backend/inventory/domain/src/stock/stock.aggregate.ts:394-401 | after k positive receipts into empty stock the average is within (k-1)/2 cents of the exact weighted mean |
| StockSnapshots.SnapshotRoundTrip | libs/backend/inventory/domain/src/stock/stock.aggregate.ts:120-141 | restoring a snapshot rebuilds every sound stock, and exactly it if and only if the reorder level is in the base unit |
| StockSnapshots.RestoreAccepts | libs/backend/inventory/domain/src/stock/stock.aggregate.ts:120-141 | a snapshot is restored if and only if no amount is negative and every cost is a whole number of cents that is not; every field of every batch is then the snapshot's, amounts in the base unit |
| AverageCost.Calculate | libs/backend/inventory/domain/src/services/average-cost.calculator.ts:6-30 | with total cost C and rounded quantity Q > 0 the result a satisfies a*Q <= C < (a+1)*Q; with nothing counted it is 0 |
| AverageCost.AverageIsFloor | libs/backend/inventory/domain/src/services/average-cost.calculator.ts:14-25 | with whole quantities that result is the exact weighted mean, value over quantity, rounded down |
| AverageCost.UnitsNearAmount | libs/backend/inventory/domain/src/services/average-cost.calculator.ts:15-20 | what is counted is within half a unit per batch of what remains |
| AverageCost.AverageWithin | libs/backend/inventory/domain/src/services/average-cost.calculator.ts:14-25 | that result lies between the cheapest and the dearest batch that counts |
| Calendar.PlusMonths | libs/backend/shared/ddd/src/date-time.value-object.ts:42-51 | overflowing the month and falling back to day 0 equals "target month, day clamped, same time of day", or fails exactly when that is out of the time range |
| GregorianCalendar.MonthLengths | libs/backend/shared/ddd/src/date-time.value-object.ts:42-51 | 31 days in January, March, May, July, August, October and December, 30 in April, June, September and November, and in February 29 exactly in years divisible by 4 and not by 100, or by 400, else 28 |
| GregorianCalendar.OneCalendar | libs/backend/shared/ddd/src/date-time.value-object.ts:42-51 | any count of days that is 0 for 1 January 1970 and goes on by those lengths is the one the calendar uses, for every month before and after |
| GregorianCalendar.MonthsAfter | libs/backend/shared/ddd/src/date-time.value-object.ts:42-51 | n months after a date is the same date of the target month or, if that is shorter, its last, at the same time of day |
| GregorianCalendar.EndOfMay | libs/backend/shared/ddd/src/date-time.value-object.ts:42-51 | one month after midnight of 31 May 2023, in milliseconds, is midnight of 30 June |
| GregorianCalendar.RangeIs | libs/backend/shared/ddd/src/date-time.value-object.ts:35-40 | the range is a hundred million days of 24 hours on either side of the epoch |
| Calendar.PlusDays | libs/backend/shared/ddd/src/date-time.value-object.ts:35-40 | carrying through setUTCDate equals adding whole days, or fails exactly when that is out of range |
| Calendar.AddMonthsFields | libs/backend/shared/ddd/src/date-time.value-object.ts:42-51 | the result lies n months on, on the lesser of the day and that month's length, at the same time of day |
| Calendar.Overflowed | libs/backend/shared/ddd/src/date-time.value-object.ts:45-48 | when the day does not fit, the overflow lands on another day number and day 0 of that month is the clamped date, also at the ends of the range |
| Calendar.Fitted | libs/backend/shared/ddd/src/date-time.value-object.ts:43-46 | when the day fits, setUTCMonth alone is right and the day number is unchanged |
| Calendar.OneMonthIsDays | libs/backend/shared/ddd/src/date-time.value-object.ts:42-51 | one month is always 28 to 31 whole days |
| Calendar.CivilFields | libs/backend/shared/ddd/src/date-time.value-object.ts:44-46 | month index, day and time of day determine an instant, with the day within its month |
| Calendar.CivilRead | libs/backend/shared/ddd/src/date-time.value-object.ts:44-46 | an instant built from a month, a day of it and a time of day reads back as those |
| Calendar.BoundaryFields | libs/backend/shared/ddd/src/date-time.value-object.ts:42-51 | k single-month steps land k months on, on the least of the start day and the lengths of all months visited |
| Calendar.BoundaryAgrees | libs/backend/shared/ddd/src/date-time.value-object.ts:42-51 | k single steps equal one step of k months if and only if no month strictly between is shorter than the day that step lands on |
| Billing.Subscription.StartTrial | libs/backend/billing/domain/src/subscription/subscription.aggregate.ts:79-108 | a trial whose first period ends, and whose billing starts, after the given days or 14 |
| Billing.Subscription.StartActive | libs/backend/billing/domain/src/subscription/subscription.aggregate.ts:110-130 | an active subscription billed one calendar month on, unless that is out of range |
| Billing.Subscription.MarkActivated | libs/backend/billing/domain/src/subscription/subscription.aggregate.ts:148-174 | from trial one month on; from past due to the paid-until instant, which is required; otherwise refused and unchanged |
| Billing.Subscription.MarkPastDue | libs/backend/billing/domain/src/subscription/subscription.aggregate.ts:176-184 | from trial or active only |
| Billing.Subscription.Cancel | libs/backend/billing/domain/src/subscription/subscription.aggregate.ts:186-199 | once only |
| Billing.Subscription.ChangePlan | libs/backend/billing/domain/src/subscription/subscription.aggregate.ts:201-216 | to a different plan, while not cancelled |
| Billing.Subscription.AdvancePeriod | libs/backend/billing/domain/src/subscription/subscription.aggregate.ts:218-227 | the next period starts where the current one ends and lasts one calendar month |
| Billing.ChainTiles | libs/backend/billing/domain/src/value-objects/period.ts:16-18 | in periods laid end to end each instant of the range lies in exactly one, any other in none |
| Billing.PeriodsTile | libs/backend/billing/domain/src/subscription/subscription.aggregate.ts:148-227 | over any life, begun active or by a trial of any length, whatever follows and whichever throws, the periods tile time if and only if no period's last reactivation paid to before its start, where a first period that a trial leaves empty counts as paid to its end (over a life that ends before it began: if and only if each was paid for nothing) |
| Billing.LifeIsChain | libs/backend/billing/domain/src/subscription/subscription.aggregate.ts:160-170 | the periods of any life are valid and lie end to end if and only if in each the last reactivation, if any, paid past its start, where a first period that a trial leaves empty counts as paid to its end; a later payment makes good an earlier short one |
| Billing.SettlementsDescribe | libs/backend/billing/domain/src/subscription/subscription.aggregate.ts:148-227 | each period begins where the one before it ends, and ends where its last reactivation paid to, if it had one |
| Billing.StartsCurrent | libs/backend/billing/domain/src/subscription/subscription.aggregate.ts:79-130 | both ways of starting begin with a non-empty period (a trial of at least a day) |
| Billing.BillingDates | libs/backend/billing/domain/src/subscription/subscription.aggregate.ts:218-227 | without activations, k successful advances put the period on the k-th and (k+1)-th monthly boundary |
| Billing.NextBillingDate | libs/backend/billing/domain/src/subscription/subscription.aggregate.ts:110-227 | after k advances billing falls k+1 months on, after the current start k months on, on the least of the start day and the lengths of the months visited: a short month shortens every later period |
| Billing.CancelledForever | libs/backend/billing/domain/src/subscription/subscription.aggregate.ts:148-227 | no life returns to its trial; a cancelled one keeps its status, plan and reason, whatever is done to it |
| Billing.CancelledAdvances | libs/backend/billing/domain/src/subscription/subscription.aggregate.ts:218-227 | a cancelled subscription still advances, if and only if the next date is in range, and its period then moves on |
| SubscriptionHistory.LifeIsHistory | libs/backend/billing/domain/src/subscription/subscription.aggregate.ts:148-227 | after any life every field is what the accepted operations tell: status by the last activation, past-due mark or cancellation, plan, reason and times by the last that set them, the trial's end gone once activated, the billing date by the last payment and the months counted since, the period start by the last advance |
| SubscriptionHistory.NextRefused | libs/backend/billing/domain/src/subscription/subscription.aggregate.ts:148-227 | after any life the next operation is refused, and with which error, exactly as status, plan and billing date told by the history demand |
| SubscriptionHistory.Alternates | libs/backend/billing/domain/src/subscription/subscription.aggregate.ts:148-199 | between two accepted activations lies a past-due mark and between two such marks an activation; after a cancellation only advances are accepted |
| SubscriptionHistory.SecondActivationRefused | libs/backend/billing/domain/src/subscription/subscription.aggregate.ts:148-174 | a trial activated in range becomes active and is billed a month later, and a second activation is refused until a past-due mark |
| SubscriptionHistory.TrialLife | libs/backend/billing/domain/src/subscription/subscription.aggregate.ts:79-108 | a life begun by a trial, told from its start |
| SubscriptionHistory.ActiveLife | libs/backend/billing/domain/src/subscription/subscription.aggregate.ts:110-130 | a life begun active, told from its start |
| Money.ReadsWritten | libs/backend/shared/ddd/src/money.value-object.ts:46-64 | the parser reads every optional sign, digits and at most two decimals, surrounded by any white space, at its value |
| Money.ReadsPadded | libs/backend/shared/ddd/src/money.value-object.ts:46-64 | an amount is read at its value with any white space before and after it |
| Money.SpacesAre | libs/backend/shared/ddd/src/money.value-object.ts:51-51 | which characters are white space, by code |
| Money.ReadsOnlyWritten | libs/backend/shared/ddd/src/money.value-object.ts:51-55 | and nothing else |
| Money.PrintersRoundTrip | libs/backend/catalog/interfaces/src/mappers/pricing.mapper.ts:31-37 | printing c cents and parsing gives c for every c >= 0, and no negative c yields a Money, for both printers |
| Money.CentsStringRoundTrip | libs/backend/inventory/domain/src/stock/stock.aggregate.ts:412-414 | a cents string reads back as its amount |
| Documents.Receipt.AddLine | libs/backend/inventory/domain/src/receipt/receipt.aggregate.ts:148-153 | appends in draft only |
| Documents.Receipt.UpdateLine | libs/backend/inventory/domain/src/receipt/receipt.aggregate.ts:155-166 | replaces the first line with the id, in draft only; no such line is no change |
| Documents.Receipt.RemoveLine | libs/backend/inventory/domain/src/receipt/receipt.aggregate.ts:168-179 | removes the first line with the id, in draft only; no such line is no change |
| Documents.Receipt.Post | libs/backend/inventory/domain/src/receipt/receipt.aggregate.ts:188-207 | from draft and with a line only; raises the posting of the lines as they are |
| Documents.Receipt.Cancel | libs/backend/inventory/domain/src/receipt/receipt.aggregate.ts:209-216 | from posted only |
| DocumentHistories.EditsOneLine | libs/backend/inventory/domain/src/receipt/receipt.aggregate.ts:155-179 | an update replaces the first line with the id and a removal takes it out; every other line stays; no such line is no change |
| DocumentHistories.LatestLineStands | libs/backend/inventory/domain/src/receipt/receipt.aggregate.ts:148-179 | over any edits of a draft with new ids for added lines, the line of an id is the one last added or updated under it, unless removed since |
| DocumentHistories.ReceiptInOrder | libs/backend/inventory/domain/src/receipt/receipt.aggregate.ts:148-252 | over any life what is accepted is edits, then at most one posting, then at most one cancellation; they tell the status, the invoice file, and who posted it and when |
| DocumentHistories.ReceiptRefuses | libs/backend/inventory/domain/src/receipt/receipt.aggregate.ts:148-252 | after any life an operation is refused, and with which error, exactly as that stage demands |
| Documents.Adjustment.ComputeTotalCents | libs/backend/inventory/domain/src/adjustment/adjustment.aggregate.ts:192-200 | the running total of the lines' rounded values |
| AdjustmentLaws.TotalNearWorth | libs/backend/inventory/domain/src/adjustment/adjustment.aggregate.ts:192-200 | the total is within half a cent per line of the exact signed sum of delta times unit cost |
| AdjustmentLaws.TotalIsWorth | libs/backend/inventory/domain/src/adjustment/adjustment.aggregate.ts:192-200 | and equal to it for whole deltas |
| Documents.Adjustment.Create | libs/backend/inventory/domain/src/adjustment/adjustment.aggregate.ts:72-112 | refuses no lines; approved at once if and only if the absolute total is under the threshold |
| AdjustmentLaws.ApprovedOnWorth | libs/backend/inventory/domain/src/adjustment/adjustment.aggregate.ts:72-112 | with whole deltas an adjustment is approved on creation if and only if the exact signed worth of its lines is under the threshold either way, and that is its one approval for ever |
| AdjustmentLaws.ReversalApproved | libs/backend/inventory/domain/src/adjustment/adjustment.aggregate.ts:72-112 | lines together with their reversals total the number of lines worth a half cent over, so they are approved if and only if the threshold is above that number; whole deltas have none |
| AdjustmentLaws.DecisionStands | libs/backend/inventory/domain/src/adjustment/adjustment.aggregate.ts:72-164 | over any life status, decider and time name the decision, and the approval carries SKU and delta of every line |
| Documents.Adjustment.Approve | libs/backend/inventory/domain/src/adjustment/adjustment.aggregate.ts:140-157 | from pending only; raises the one approval, carrying the lines |
| Documents.Adjustment.Reject | libs/backend/inventory/domain/src/adjustment/adjustment.aggregate.ts:159-164 | from pending only; raises no approval |
| Documents.Transfer.Create | libs/backend/inventory/domain/src/transfer/transfer.aggregate.ts:76-100 | succeeds if and only if the branches differ and there is a line |
| Documents.Transfer.Post | libs/backend/inventory/domain/src/transfer/transfer.aggregate.ts:126-149 | from draft only, with the two refusals told apart |
| Documents.Transfer.Cancel | libs/backend/inventory/domain/src/transfer/transfer.aggregate.ts:151-158 | from draft only |
| DocumentHistories.TransferInOrder | libs/backend/inventory/domain/src/transfer/transfer.aggregate.ts:76-158 | status, poster and time are told by the first thing done to a transfer, and so is every refusal; a transfer within one branch or without lines is refused, in that order |
| Documents.StockTaking.RecordMeasurement | libs/backend/inventory/domain/src/stock-taking/stock-taking.aggregate.ts:100-110 | sets the count of the first line with the SKU and of no other, while started |
| Documents.StockTaking.Post | libs/backend/inventory/domain/src/stock-taking/stock-taking.aggregate.ts:112-132 | while started only; raises the non-zero deltas of the measured lines, in order |
| Documents.StockTaking.Cancel | libs/backend/inventory/domain/src/stock-taking/stock-taking.aggregate.ts:134-140 | while started only |
| DocumentHistories.TakingInOrder | libs/backend/inventory/domain/src/stock-taking/stock-taking.aggregate.ts:68-140 | a stock-taking begins with the SKUs and quantities given and nothing counted; the first posting or cancellation closes it, sets the time and raises the deltas or nothing |
| DocumentHistories.TakingRefuses | libs/backend/inventory/domain/src/stock-taking/stock-taking.aggregate.ts:100-169 | after any life an operation is refused, and with which error, exactly as the closing operation demands, or a measurement of an unknown SKU |
| DocumentLives.ReceiptLife | libs/backend/inventory/domain/src/receipt/receipt.aggregate.ts:148-252 | over any life a receipt raises at most one posting, is cancelled only after it, and keeps the lines it was posted with, so a cancellation sees what was posted |
| DocumentLives.NewReceiptTold | libs/backend/inventory/domain/src/receipt/receipt.aggregate.ts:97-116 | whatever is done to a new receipt, it has raised nothing while a draft and afterwards exactly the posting of the lines it has |
| DocumentLives.AdjustmentLife | libs/backend/inventory/domain/src/adjustment/adjustment.aggregate.ts:72-190 | over its whole life an adjustment raises exactly one approval if and only if it was approved on creation or is approved before anything else; none after a rejection |
| DocumentLives.TransferLife | libs/backend/inventory/domain/src/transfer/transfer.aggregate.ts:76-158 | over its whole life a transfer raises exactly one posting, between two different branches, if and only if it is posted before anything else; none after a cancellation |
| DocumentLives.TakingLife | libs/backend/inventory/domain/src/stock-taking/stock-taking.aggregate.ts:68-169 | over any life a stock-taking raises at most one posting, none after a cancellation, whose deltas are those of its lines ever after; SKUs and expectations never change |
| DocumentLives.LastCountStands | libs/backend/inventory/domain/src/stock-taking/stock-taking.aggregate.ts:100-110 | the count of a SKU is the last recorded before the stock-taking was posted or cancelled |
| Sagas.StockRepository.FindOrCreate | libs/backend/inventory/infrastructure/src/repositories/inv-stock.repository.ts:32-47 | a new aggregate over the stored row, or an empty one that is not stored |
| Sagas.ApplyReceiptSaga.Handle | libs/backend/inventory/application/src/sagas/apply-receipt.saga.ts:22-51 | the loop, stopped anywhere or thrown out of, is the line-by-line meaning with processed lines skipped |
| Sagas.ApplyAdjustmentSaga.Handle | libs/backend/inventory/application/src/sagas/apply-adjustment.saga.ts:23-50 | likewise for adjustment lines |
| Sagas.ApplyTransferSaga.HandleLine | libs/backend/inventory/application/src/sagas/apply-transfer.saga.ts:34-58 | both stocks loaded, moved, then saved, the target last; an error in either half saves neither |
| Sagas.ApplyTransferSaga.Handle | libs/backend/inventory/application/src/sagas/apply-transfer.saga.ts:28-62 | the lines moved up to a stop, which may fall after the last save and before the mark, or up to a throw; the key marked only by a run that neither stops nor throws |
| Sagas.ApplyReceiptCancellationSaga.Handle | libs/backend/inventory/application/src/sagas/apply-receipt-cancellation.saga.ts:19-45 | the receipt's batches leave the stocks of its lines up to a stop, and a run that does not stop marks the key; a receipt not found changes nothing and marks nothing |
| Sagas.ApplyStockTakingSaga.Handle | libs/backend/inventory/application/src/sagas/apply-stock-taking.saga.ts:21-57 | exactly one approval is raised for a posted count with deltas not handled before, carrying the deltas, whatever the threshold |
| Sagas.MoveLineOk | libs/backend/inventory/application/src/sagas/apply-transfer.saga.ts:34-58 | moving a line keeps every stored stock sound |
| Inventory.RunJobsOk | libs/backend/inventory/application/src/sagas/apply-receipt.saga.ts:22-51 | handling receipt or adjustment lines keeps every stored stock sound |
| Deliveries.AllSkipped | libs/backend/inventory/application/src/sagas/apply-receipt.saga.ts:26-28 | a delivery whose lines are all marked changes nothing, whenever it comes |
| Deliveries.TwoDeliveries | libs/backend/inventory/application/src/sagas/apply-receipt.saga.ts:22-51 | two deliveries, interrupted anywhere, have the effect of the longer, also when a line throws |
| Deliveries.ExactlyOnce | libs/backend/inventory/application/src/sagas/apply-receipt.saga.ts:22-51 | any deliveries, one of them complete, leave the system as one complete delivery would; for receipts and adjustments alike |
| Deliveries.EveryLineApplied | libs/backend/inventory/application/src/sagas/apply-adjustment.saga.ts:24-29 | a delivery that does not throw applies every line of its receipt or adjustment if and only if none was applied before and no SKU repeats |
| Interleavings.AppliedOnce | libs/backend/inventory/application/src/sagas/apply-receipt.saga.ts:22-51 | however deliveries of many receipts and adjustments interleave with each other, with transfers and with cancellations, a line is applied at most once, and once if and only if its key ends up marked |
| Interleavings.KeyFollowsEffect | libs/backend/inventory/application/src/sagas/apply-adjustment.saga.ts:24-49 | a line's key is marked by an act if and only if the act applies the line; transfers and cancellations mark no line |
| Interleavings.LineTouchesOneStock | libs/backend/inventory/application/src/sagas/apply-adjustment.saga.ts:31-48 | a line touches only its own stock, and nothing once its key is marked |
| SystemLedger.SkippedCanGo | libs/backend/inventory/application/src/sagas/apply-receipt.saga.ts:26-28 | any run of the handlers ends where the same run without its skipped deliveries ends |
| SystemLedger.SystemBalances | libs/backend/inventory/application/src/sagas/apply-transfer.saga.ts:28-62 | over any run of all the handlers every stored stock stays sound, and a SKU's total over all branches is the opening total plus the receipts and deltas applied, less what cancellations removed; transfers add nothing |
| Deliveries.ReceiptCredits | libs/backend/inventory/application/src/sagas/apply-receipt.saga.ts:24-49 | a delivery that does not throw credits each SKU with its first line, unless that was done before |
| ShelfLaws.ReceiptOnShelf | libs/backend/inventory/application/src/sagas/apply-receipt.saga.ts:23-50 | post a receipt and deliver its event: under every rate by label each SKU gains its first line's quantity, of the receipt's supplier, at the line's cost and with its expiry, as arrived when posted |
| ShelfLaws.FirstReceipt | libs/backend/inventory/application/src/sagas/apply-receipt.saga.ts:30-48 | the first line for a SKU never held opens its stock in the line's unit, with that quantity, that cost as the average, and a reorder level of zero |
| Deliveries.ReceiptCreditedInFull | libs/backend/inventory/application/src/sagas/apply-receipt.saga.ts:24-28 | every SKU is credited with all its lines if and only if no line repeats an earlier SKU with a quantity |
| Deliveries.AdjustmentMoves | libs/backend/inventory/application/src/sagas/apply-adjustment.saga.ts:24-49 | a delivery that does not throw moves each SKU by its first delta, up by it or down as far as the unexpired stock goes, unless that was done before |
| ShelfLaws.AdjustmentOnShelf | libs/backend/inventory/application/src/sagas/apply-adjustment.saga.ts:31-48 | an upward delta is put on the shelf at the stock's average cost, or for nothing if the stock is new |
| Deliveries.AdjustmentAppliedInFull | libs/backend/inventory/application/src/sagas/apply-adjustment.saga.ts:24-29 | every SKU moves by all its deltas if and only if those after its first come to what the first falls short by |
| TransferLaws.MoveLineMoves | libs/backend/inventory/application/src/sagas/apply-transfer.saga.ts:34-58 | a line takes min(quantity, unexpired stock) out of the source branch, puts exactly that into the target branch and touches no other stock |
| ShelfLaws.TransferOnShelf | libs/backend/inventory/application/src/sagas/apply-transfer.saga.ts:34-58 | under every rate by label the target gains exactly the details the source hands out, arriving when the transfer was posted |
| ShelfLaws.WhyRefused | libs/backend/inventory/application/src/sagas/apply-transfer.saga.ts:34-58 | the source refuses first for its unit, then for its total; a target in another unit draws one id and refuses; a moved line draws one id per batch that arrives |
| TransferLaws.MoveLineWeight | libs/backend/inventory/application/src/sagas/apply-transfer.saga.ts:34-58 | a line changes no weight of any SKU over all branches; from a branch to itself it would create what it moves |
| TransferLaws.TransfersConserve | libs/backend/inventory/application/src/sagas/apply-transfer.saga.ts:28-62 | over any run of deliveries, repeated, stopped between lines, refused or allocated short, every weight of every SKU over all branches is unchanged |
| TransferLaws.TransfersConserveQuantityAndValue | libs/backend/inventory/application/src/sagas/apply-transfer.saga.ts:28-62 | in particular the quantity, the quantity of each unit cost and expiry, and the exact value |
| TransferLaws.HandledTransferIsFinal | libs/backend/inventory/application/src/sagas/apply-transfer.saga.ts:29-31 | a transfer whose key is marked is never handled again |
| TransferLaws.HalfSavedLoses | libs/backend/inventory/application/src/sagas/apply-transfer.saga.ts:57-58 | a stop between the two saves of a line loses what it was to move, by every weight and by quantity |
| TransferRedelivery.ThrowsWhen | libs/backend/inventory/application/src/sagas/apply-transfer.saga.ts:34-55 | a line is refused if and only if its unit or its source's total forbids it, or its target is kept in another unit and something would reach it |
| TransferRedelivery.LinesHandled | libs/backend/inventory/application/src/sagas/apply-transfer.saga.ts:33-59 | with pairwise distinct SKUs exactly the lines before the first that would be refused at the outset are moved, and no other stock changes |
| TransferRedelivery.Redelivered | libs/backend/inventory/application/src/sagas/apply-transfer.saga.ts:29-61 | after a stop, a line already moved is refused again if and only if its quantity exceeds what is left of its source, and otherwise moves min(quantity, unexpired left); a line not yet moved is handled as it would have been |
| TransferRedelivery.RedeliveryMatches | libs/backend/inventory/application/src/sagas/apply-transfer.saga.ts:29-61 | a stopped delivery and a complete one leave the totals of one delivery if and only if no line is moved again before one is refused, and, if one is refused, the lines after the stop had nothing to move |
| TransferRedelivery.RedeliveryIsOne | libs/backend/inventory/application/src/sagas/apply-transfer.saga.ts:29-61 | so when a line after the stop has something to move: if and only if every line before it asked for nothing, or for at least its unexpired stock and no more than the expired stock beside it |
| TransferTallies.Redeliveries | libs/backend/inventory/application/src/sagas/apply-transfer.saga.ts:28-62 | any number of deliveries, each stopped anywhere or not: the r times that a line is handled move min(r * quantity, unexpired stock) in all, a delivery handles a line when no line up to it has run its source short, and the key is marked by the first that gets through |
| TransferTallies.RedeliveriesAreOne | libs/backend/inventory/application/src/sagas/apply-transfer.saga.ts:28-62 | their totals are those of one complete delivery if and only if every line was handled a number of times that moves what one time does |
| TransferRefusals.DeliveryMoves | libs/backend/inventory/application/src/sagas/apply-transfer.saga.ts:33-59 | in any state, however it came about, a delivery moves a line before its stop if and only if no line up to it would be refused now, and otherwise leaves the stocks of that SKU alone |
| TransferRefusals.DeliveryMarks | libs/backend/inventory/application/src/sagas/apply-transfer.saga.ts:31-61 | and it marks the key if and only if it is not stopped and no line would be refused |
| TransferRefusals.MarkedWhenPassable | libs/backend/inventory/application/src/sagas/apply-transfer.saga.ts:31-61 | over any run of all the handlers the key ends up marked if and only if some delivery that is not stopped comes when none of its lines would be refused |
| TransferRefusals.RefusedWaits | libs/backend/inventory/application/src/sagas/apply-transfer.saga.ts:41-61 | over any run of all the handlers a line that is refused whenever the transfer is delivered keeps itself and the lines after it unmoved by this transfer and the key unmarked |
| TransferRefusals.RefusedUnaided | libs/backend/inventory/application/src/sagas/apply-transfer.saga.ts:41-46 | a line whose source holds too little stays refused at least until a receipt, an upward adjustment or a transfer brings stock to that source |
| TransferRefusals.RestWaits | libs/backend/inventory/application/src/sagas/apply-transfer.saga.ts:41-61 | so when a line before the stop asked for more than it left behind, the lines after the stop wait until something brings stock to that line's source |
| CancellationLaws.PostingAdds | libs/backend/inventory/application/src/sagas/apply-receipt.saga.ts:37-46 | posting, whole or in part, adds batches of its own document to the stocks of its lines and touches nothing else |
| CancellationLaws.ReceiptsArrive | libs/backend/inventory/application/src/sagas/apply-receipt.saga.ts:37-48 | handling a line of another receipt, applied or skipped, appends at most its own batch to its own stock |
| CancellationLaws.TransfersArrive | libs/backend/inventory/application/src/sagas/apply-transfer.saga.ts:28-62 | handling a transfer from another branch, stopped, thrown out of or skipped, only appends batches to the stocks of a branch, none of a receipt |
| CancellationLaws.CancellationUndoesPosting | libs/backend/inventory/application/src/sagas/apply-receipt-cancellation.saga.ts:19-45 | after posting, whole or in part, and any run of other receipts' lines and of transfers from other branches, cancelling leaves every stock of the branch, batch for batch and in order, what it held before and what arrived since; no other branch is touched |
| CancellationLaws.CancelledOnce | libs/backend/inventory/application/src/sagas/apply-receipt-cancellation.saga.ts:19-45 | any deliveries of a cancellation, stopped anywhere, one of them complete, leave the system as one complete delivery would |
| CancellationReplay.AsIfNeverPosted | libs/backend/inventory/application/src/sagas/apply-receipt-cancellation.saga.ts:19-45 | after posting, whole or in part, any lines of other receipts and any transfers into the branch, cancelling leaves every stock of the branch the batches, in order and content, that the same run without the posting leaves, provided that run opens the stocks the receipt had opened in the receipt's units |
| CancellationReplay.NeverPostedExactly | libs/backend/inventory/application/src/sagas/apply-receipt.saga.ts:30-48 | for runs of receipt lines that holds at every stock of the branch if and only if, for every stock the receipt opened, the first unmarked line that addresses it, if any, is in the unit it was opened in |
| CancellationLaws.CancellationReadsPostedSkus | libs/backend/inventory/application/src/sagas/apply-receipt-cancellation.saga.ts:32-33 | the SKUs read from the receipt are those of the posted event |
| CancellationLaws.CancellationIsFinal | libs/backend/inventory/application/src/sagas/apply-receipt-cancellation.saga.ts:20-24 | redelivering a cancelled receipt changes nothing if and only if every line reached is marked or the first that is not is refused for its unit; otherwise batches of the cancelled receipt come back |
| StockTakingLaws.AdjustedToCount | libs/backend/inventory/domain/src/stock/stock.aggregate.ts:233-264 | adjusting by count minus on-hand never throws and leaves the larger of the count and the expired stock |
| StockTakingLaws.DeltasMeasure | libs/backend/inventory/domain/src/stock-taking/stock-taking.aggregate.ts:123-129 | every delta comes from a measured line, every measured line that is off has one, and no SKU has two |
| StockTakingLaws.DeltasApplied | libs/backend/inventory/application/src/sagas/apply-adjustment.saga.ts:23-50 | handling the deltas takes each stock to the larger of its count and its expired stock and leaves every other alone |
| StockTakingLaws.StockTakingReachesCount | libs/backend/inventory/application/src/sagas/apply-adjustment.saga.ts:23-50 | handling the adjustment of the deltas never throws, reaches each count if and only if it is no less than what has expired, leaves unmeasured stocks alone |
| StockTakingRun.CorrectStocks | libs/backend/inventory/application/src/sagas/apply-stock-taking.saga.ts:21-57 | posting, the stock-taking saga and the adjustment saga in turn: no error, every measured stock at the larger of its count and what has expired when the adjustment is approved, every other stock as it was |
| StockTakingLaws.CountInUnit | libs/backend/inventory/domain/src/stock-taking/stock-taking-line.ts:42-45 | after the adjustment is handled a measured stock is the recorded quantity, unit included, if and only if it was recorded in the expected unit and is no less than what has expired |
| Outbox.OutboxPoller.constructor | libs/backend/shared/outbox/src/outbox-poller.service.ts:50-60 | a poller starts idle over the rows an earlier one left |
| Outbox.OutboxPoller.ProcessBatch | libs/backend/shared/outbox/src/outbox-poller.service.ts:106-136 | shares a running batch, else resolves at once when shutting down, else issues the query |
| Outbox.OutboxPoller.StartEvent | libs/backend/shared/outbox/src/outbox-poller.service.ts:143-146 | the event reaches the bus if and only if its payload deserializes |
| Outbox.OutboxPoller.PublishSucceeds | libs/backend/shared/outbox/src/outbox-poller.service.ts:148-151 | the row is published, its error and its retry time cleared |
| Outbox.OutboxPoller.PublishFails | libs/backend/shared/outbox/src/outbox-poller.service.ts:157-177 | one more retry counted; failed at the limit, else due after the backoff |
| OutboxLaws.RunsKeepInv | libs/backend/shared/outbox/src/outbox-poller.service.ts:106-189 | over any run: attempts match retry counts, spacing and due times follow the backoff, outcome times are those of the last attempt, the batch holds distinct due rows oldest first, bus counts are bounded |
| OutboxLaws.DeliveriesBounded | libs/backend/shared/outbox/src/outbox-poller.service.ts:143-177 | from the empty table no row is both published and failed, published events have reached the bus, and none reaches it more often than the retry limit, restarts aside |
| OutboxLaws.SettledForever | libs/backend/shared/outbox/src/outbox-poller.service.ts:125-155 | a published or failed row never changes again and its event never reaches the bus again |
| OutboxLaws.SingleFlight | libs/backend/shared/outbox/src/outbox-poller.service.ts:106-117 | however calls interleave, there is at most one query per released batch |
| OutboxLaws.CallsTell | libs/backend/shared/outbox/src/outbox-poller.service.ts:106-122 | after any run the calls tell whether there is a batch to wait for (a call always leaves one, also during shutdown), how many queries were issued (one by each call that finds neither a batch nor a shutdown) and that only a restart ends a shutdown |
| OutboxLaws.NothingNewAfterShutdown | libs/backend/shared/outbox/src/outbox-poller.service.ts:119-122 | after shutdown begins no query is issued, and unless one was under way only rows already loaded are touched |
| OutboxLaws.QueryUnderWayLoads | libs/backend/shared/outbox/src/outbox-poller.service.ts:120-140 | a query already issued still loads rows whenever one that was there at the time is due, and only if some row is due; if and only if, when no row came in since |
| OutboxLaws.NoOvertaking | libs/backend/shared/outbox/src/outbox-poller.service.ts:124-136 | a due row that was there for the query is left out only by a full batch of rows no younger |
| OutboxLaws.DueMeans | libs/backend/shared/outbox/src/outbox-poller.service.ts:124-133 | over any run a row is due if and only if it is neither published nor failed and base * 2^(n-1) ms have passed since the last of its n attempts was settled, if any |
| OutboxLaws.BatchesAreBounded | libs/backend/shared/outbox/src/outbox-poller.service.ts:124-136 | a batch never holds more than batchSize rows |
| OutboxLaws.BusCounts | libs/backend/shared/outbox/src/outbox-poller.service.ts:143-149 | the bus is handed an event once for every start whose payload deserializes, so never if none does |
| OutboxLaws.RowsTellTheirStory | libs/backend/shared/outbox/src/outbox-poller.service.ts:148-177 | a row keeps when its event occurred and shows the message of its last failed attempt until it is published |
| OutboxLaws.RunWork | libs/backend/shared/outbox/src/outbox-poller.service.ts:138-177 | the attempts pending rows may still use fall by at least one with every settled attempt; only new rows add any |
| OutboxLaws.AttemptsSuffice | libs/backend/shared/outbox/src/outbox-poller.service.ts:138-177 | n rows settle within n * maxRetryCount attempts, after which none is pending |
| OutboxLaws.FailureTakesTime | libs/backend/shared/outbox/src/outbox-poller.service.ts:162-189 | a failed row was tried maxRetryCount times, its first and last attempt at least base * (2^(maxRetryCount-1) - 1) ms apart |
| VisitHistory.NextPage | libs/backend/crm/infrastructure/src/adapters/crm-visit-history-read.adapter.ts:58-62 | a page with a next cursor is full, and the rows after the cursor are exactly those older than its last |
| VisitHistory.PagingEnds | libs/backend/crm/infrastructure/src/adapters/crm-visit-history-read.adapter.ts:42-63 | following the cursor ends: all pages but the last are full and share no row |
| VisitHistory.PagesAreOrdered | libs/backend/crm/infrastructure/src/adapters/crm-visit-history-read.adapter.ts:42-63 | pages never repeat a row or show a wrong one, and stay newest first across borders |
| VisitHistory.PagesComplete | libs/backend/crm/infrastructure/src/adapters/crm-visit-history-read.adapter.ts:49-60 | the pages show every row if and only if no page border falls between two rows of one time |
| VisitHistory.ShowsTheRightVisits | libs/backend/crm/infrastructure/src/adapters/crm-visit-history-read.adapter.ts:16-63 | a client's pages show only visits of that client, a vehicle's only of that vehicle, and all of them if and only if no page border splits visits of one time |
| VisitHistory.PagesAreTheListing | libs/backend/crm/infrastructure/src/adapters/crm-visit-history-read.adapter.ts:32-63 | with pairwise distinct times the pages are the plain listing, row by row |
| Witnesses.AcceptedAndServedShort | libs/backend/inventory/domain/src/stock/stock.aggregate.ts:187-201 | with three good pieces and five expired, a request for four is accepted and takes three |
| Witnesses.RepeatedReceiptLineIsLost | libs/backend/inventory/application/src/sagas/apply-receipt.saga.ts:24-28 | a receipt of two and three pieces of one SKU credits two |
| Witnesses.RepeatedDeltaIsLost | libs/backend/inventory/application/src/sagas/apply-adjustment.saga.ts:25-29 | an adjustment up by two and by three of one SKU goes up by two |
| Witnesses.ReversalIsPending | libs/backend/inventory/domain/src/adjustment/adjustment.aggregate.ts:192-200 | half a piece at one cent up and half a piece down is worth nothing and waits at a threshold of one cent |
| Witnesses.CancelledReceiptComesBack | libs/backend/inventory/application/src/sagas/apply-receipt-cancellation.saga.ts:44-44 | a receipt cancelled before it was handled comes into stock when it is handled |
| Witnesses.OtherUnitIsLost | libs/backend/inventory/application/src/sagas/apply-receipt.saga.ts:30-36 | oil opened in pieces by a receipt that is then cancelled refuses a line in kilograms, which is in stock when the receipt was never posted |
| Witnesses.KilogramsBecomeGrams | libs/backend/inventory/domain/src/stock-taking/stock-taking-line.ts:42-45 | five kilograms counted against grams set the stock to five grams |
| Witnesses.StoppedTransferMovesTwice | libs/backend/inventory/application/src/sagas/apply-transfer.saga.ts:61-61 | a stopped transfer from a well-filled source and its redelivery do not leave the totals of one delivery |
| Witnesses.StoppedTransferWaits | libs/backend/inventory/application/src/sagas/apply-transfer.saga.ts:61-61 | a transfer of all the oil and all the filters that stops after the oil moves nothing more and is never marked, over any run that brings no oil to its source |
| Witnesses.RefilledTransferGoesOn | libs/backend/inventory/application/src/sagas/apply-transfer.saga.ts:61-61 | once a receipt has brought two pieces of oil the next delivery is marked: the filters move and the oil a second time |
| Witnesses.OilIsLostBetweenSaves | libs/backend/inventory/application/src/sagas/apply-transfer.saga.ts:57-58 | a process that ends between the saves of the oil line leaves no oil in either branch |
| Witnesses.EndOfJanuaryDrifts | libs/backend/shared/ddd/src/date-time.value-object.ts:42-51 | 31 January stepped twice is 28 March and stepped by two months 31 March |
| Witnesses.ShortPaymentBreaksThePeriod | libs/backend/billing/domain/src/subscription/subscription.aggregate.ts:160-170 | a reactivation paid to before its period's start leaves an invalid period, and a later payment mends it |
| Witnesses.CancelledAndAdvanced | libs/backend/billing/domain/src/subscription/subscription.aggregate.ts:218-227 | a cancelled subscription whose period is advanced |
| Witnesses.ReorderLevelLosesItsUnit | libs/backend/inventory/domain/src/stock/stock.aggregate.ts:138-138 | a reorder level of two kilograms comes back as two grams |
| Witnesses.ShutdownDuringQuery | libs/backend/shared/outbox/src/outbox-poller.service.ts:119-136 | a run that shuts down during a query, whose answer still loads an event |
| Witnesses.SecondVisitIsLost | libs/backend/crm/infrastructure/src/adapters/crm-visit-history-read.adapter.ts:49-60 | of two visits at one time, read one to a page, the second is never shown |

## Left out

- Floating point: quantities and averages are exact, so IEEE-754 rounding, values beyond 2^53 and `Number(cents)` losses
  are not modelled.
- Saving a stock and marking its key count as one step in the receipt and adjustment sagas.
- Sagas.ApplyTransferSaga.Handle: stops fall between lines or before the mark. The repository flushes at each save and
  the saga opens no transaction, so a process can also end between the two saves of a line, which ADR-0010 means to
  rule out; `TransferLaws.HalfSavedLoses` states that loss, and runs that contain such a stop are not modelled.
- TransferTallies.RedeliveriesAreOne: deliveries of one transfer, with pairwise distinct SKUs, that a single delivery
  would finish, with nothing else in between; `TransferRefusals` ranges over runs with anything in between, and there
  says what is moved by each delivery, not how much in all.
- CancellationReplay.AsIfNeverPosted: compares the batches apart from their ids, which the generator gives out in
  another order; the average cost is not compared, since cancelling does not restore it. For runs with transfers the
  condition is sufficient; that it is necessary is shown for runs of receipt lines.
- Deliveries.ExactlyOnce: says that the whole state is that of one delivery, for deliveries of one document following
  one another. When other documents come between, `Interleavings.AppliedOnce` says that each line is applied once;
  handlers interleaving inside one line, between its load and its save, are not modelled.
- Persistence: the repository is a map from SKU and branch to the aggregate's value. Row order from the database,
  `numeric(18,4)` rounding, truncation of expiry to a day and the outbox rows appended on save are not modelled.
- Ids: batch ids are naturals from a counter, idempotency keys are constructors of `Inventory.DocKey` in place of
  strings, so distinct keys never collide.
- BatchSelection.BatchSelectionService.SelectForConsumption: works on values of the batches and takes the engine's sort
  as a function, because `Array.prototype.sort` is not the repository's code; aliasing of batch objects is not captured.
- Stock.Stock.RecalculateAverageCost: `totalQty` cannot be zero for stock on hand, so the division by zero of the source
  has no counterpart.
- Events: the stock's own events keep only their kind and amounts; document events keep what the sagas read. Creation
  and draft-editing events, `createdBy`, invoice numbers and rejection reasons are not modelled.
- `StockOpened` is not raised by the model's constructor.
- Money.ReadsWritten: only string amounts. `Money.rub` of a number or bigint, and `Money.add` and `subtract`, are not
  modelled.
- Money.CentsStringRoundTrip: `moneyFromCentsStr` is modelled on integer strings, the only ones a snapshot holds.
- Dates in snapshots stay instants; the ISO text form is not modelled.
- Calendar.PlusMonths: whole numbers of months only; NaN and fractions are not modelled.
- Billing.PeriodsTile: tenant, plan catalogue and the subscription's events are not modelled.
- Sagas.ApplyStockTakingSaga.Handle: the two commands are replaced by `Adjustment.create` and `approve`; the command
  bus, the stored adjustment and a failure between the two commands are not modelled.
- Outbox: a failing `flush`, several poller processes over one table, BullMQ scheduling, logging and the payloads are
  not modelled; clocks never run back. A restart of the process is a step and may repeat an event whose outcome was
  not stored.
- OutboxLaws.AttemptsSuffice: says how many attempts are enough, not that the scheduler ever makes them.
- VisitHistory.PagesComplete: the table does not change while the pages are read; a limit of zero or less is outside the
  law.
- Command and query handlers, controllers and the mappers of other contexts are not modelled, nor are the notification,
  appointment, work-order, CRM and catalogue aggregates with their status guards.
