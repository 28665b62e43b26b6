/** What each operation of the stock aggregate means, as functions on the aggregate's value. */
module StockSpec {
  import opened Basics
  import opened StockTypes
  import opened BatchSelection
  import Sequences

  datatype StockState = StockState(
    skuId: string,
    branchId: string,
    baseUnit: Unit,
    batches: seq<BatchView>,
    reorderLevel: Quantity,
    averageCost: int)

  datatype ReceiveDetails = ReceiveDetails(
    supplierId: Option<string>,
    sourceType: SourceType,
    sourceDocId: string,
    quantity: Quantity,
    unitCost: nat,
    expiresAt: Option<int>,
    receivedAt: int)

  datatype TransferDetail = TransferDetail(quantity: Quantity, unitCost: nat, expiresAt: Option<int>)

  /** What every reachable stock satisfies. */
  predicate StateOk(s: StockState) {
    DistinctIds(s.batches) && AllSound(s.batches, s.baseUnit) && s.averageCost >= 0
  }

  predicate IdsBelow(bs: seq<BatchView>, next: nat) {
    forall b :: b in bs ==> b.id < next
  }

  function EmptyStock(skuId: string, branchId: string, baseUnit: Unit, reorderLevel: Quantity): StockState {
    StockState(skuId, branchId, baseUnit, [], reorderLevel, 0)
  }

  function Total(s: StockState): real {
    Sequences.Sum(s.batches, Amount)
  }

  /** The part of the stock that the selector may use at an instant. */
  function Unexpired(s: StockState, at: int): real {
    Sequences.Sum(Sequences.Filter(s.batches, AvailableAt(at)), Amount)
  }

  // ---------------------------------------------------------------- receiving

  function WeightedMean(existing: real, average: int, quantity: real, cost: int): real
    requires existing + quantity != 0.0
  {
    (existing * average as real + quantity * cost as real) / (existing + quantity)
  }

  function NewAverage(existing: real, average: int, quantity: real, cost: int): int {
    if existing <= 0.0 || existing + quantity == 0.0 then cost
    else Round(WeightedMean(existing, average, quantity, cost))
  }

  function FreshBatch(id: nat, d: ReceiveDetails): BatchView {
    BatchView(id, d.supplierId, d.sourceType, d.sourceDocId, d.quantity, d.quantity, d.unitCost, d.expiresAt,
              d.receivedAt)
  }

  function Received(s: StockState, id: nat, d: ReceiveDetails): Result<StockState, StockError> {
    if d.quantity.unit != s.baseUnit then Err(UnitMismatch(d.quantity.unit, s.baseUnit))
    else Ok(s.(averageCost := NewAverage(Total(s), s.averageCost, d.quantity.amount, d.unitCost),
               batches := s.batches + [FreshBatch(id, d)]))
  }

  // ---------------------------------------------------------------- withdrawing

  function Lowered(b: BatchView, q: real): BatchView {
    b.(remaining := Quantity(b.remaining.amount - q, b.remaining.unit))
  }

  function Deducted(bs: seq<BatchView>, allocs: seq<Allocation>): seq<BatchView> {
    seq(|bs|, i requires 0 <= i < |bs| => Lowered(bs[i], AllocatedTo(allocs, bs[i].id)))
  }

  predicate Undepleted(b: BatchView) {
    !IsDepleted(b)
  }

  /** Every batch falls by its allocation, and the depleted ones vanish in place. */
  function Drained(bs: seq<BatchView>, allocs: seq<Allocation>): seq<BatchView> {
    Sequences.Filter(Deducted(bs, allocs), Undepleted)
  }

  function Chosen(s: StockState, amount: real, strategy: Strategy, at: int): seq<Allocation> {
    Allocations(strategy, s.batches, Quantity(amount, s.baseUnit), at)
  }

  function Withdrawn(s: StockState, amount: real, strategy: Strategy, at: int): StockState {
    s.(batches := Drained(s.batches, Chosen(s, amount, strategy, at)))
  }

  /** The guard of consume and transferOut: the unit, and the total including expired batches. */
  function WithdrawError(s: StockState, amount: Quantity): Option<StockError> {
    if amount.unit != s.baseUnit then Some(UnitMismatch(amount.unit, s.baseUnit))
    else if amount.amount > Total(s) then Some(InsufficientStock(Total(s), amount.amount))
    else None
  }

  function Consumed(s: StockState, amount: Quantity, strategy: Strategy, at: int): Result<StockState, StockError> {
    match WithdrawError(s, amount)
    case Some(e) => Err(e)
    case None => Ok(Withdrawn(s, amount.amount, strategy, at))
  }

  /** The reported cost: each allocation rounded to a whole cent. */
  function ReportedCost(allocs: seq<Allocation>): int {
    if allocs == [] then 0
    else Round(allocs[0].quantity.amount * allocs[0].unitCost as real) + ReportedCost(allocs[1..])
  }

  // ---------------------------------------------------------------- adjusting

  function AdjustmentBatch(s: StockState, id: nat, delta: real, reason: string, at: int): BatchView {
    var q := Quantity(delta, s.baseUnit);
    BatchView(id, None, FromAdjustment, reason, q, q, if s.averageCost >= 0 then s.averageCost else 0, None, at)
  }

  function Adjusted(s: StockState, id: nat, delta: SignedQuantity, reason: string, strategy: Strategy, at: int)
    : Result<StockState, StockError>
  {
    if delta.unit != s.baseUnit then Err(UnitMismatch(delta.unit, s.baseUnit))
    else if delta.amount > 0.0 then
      Ok(s.(batches := s.batches + [AdjustmentBatch(s, id, delta.amount, reason, at)]))
    else if delta.amount < 0.0 then
      Consumed(s, Quantity(-delta.amount, s.baseUnit), strategy, at)
    else Ok(s)
  }

  // ---------------------------------------------------------------- transferring

  function ExpiryOf(bs: seq<BatchView>, id: nat): Option<int> {
    if bs == [] then None
    else if bs[0].id == id then bs[0].expiresAt
    else ExpiryOf(bs[1..], id)
  }

  function Details(bs: seq<BatchView>, allocs: seq<Allocation>): seq<TransferDetail> {
    if allocs == [] then []
    else
      [TransferDetail(allocs[0].quantity, allocs[0].unitCost, ExpiryOf(bs, allocs[0].batchId))]
      + Details(bs, allocs[1..])
  }

  /** What leaves the source stock. */
  function Outgoing(s: StockState, amount: real, strategy: Strategy, at: int): seq<TransferDetail> {
    Details(s.batches, Chosen(s, amount, strategy, at))
  }

  function IncomingBatch(id: nat, d: TransferDetail, at: int): BatchView {
    BatchView(id, None, FromTransfer, "TRANSFER", d.quantity, d.quantity, d.unitCost, d.expiresAt, at)
  }

  /** The batches that arrive, with consecutive ids, up to the first one in a foreign unit. */
  function Incoming(unit: Unit, id: nat, details: seq<TransferDetail>, at: int): seq<BatchView>
    decreases |details|
  {
    if details == [] || details[0].quantity.unit != unit then []
    else [IncomingBatch(id, details[0], at)] + Incoming(unit, id + 1, details[1..], at)
  }

  predicate AllInUnit(details: seq<TransferDetail>, unit: Unit) {
    forall d :: d in details ==> d.quantity.unit == unit
  }

  function TransferredIn(s: StockState, id: nat, details: seq<TransferDetail>, at: int): StockState {
    s.(batches := s.batches + Incoming(s.baseUnit, id, details, at))
  }

  // ---------------------------------------------------------------- removing a document

  function NotFrom(doc: string): BatchView -> bool {
    (b: BatchView) => b.sourceDocId != doc
  }

  function WithoutDocument(s: StockState, doc: string): StockState {
    s.(batches := Sequences.Filter(s.batches, NotFrom(doc)))
  }

  datatype WriteOff = WriteOff(allocations: seq<Allocation>, totalCost: int)

  datatype Transfer = Transfer(details: seq<TransferDetail>, totalAmount: Quantity)

  // ---------------------------------------------------------------- events

  datatype StockEvent =
    | StockReceived(quantity: Quantity, unitCost: nat)
    | StockConsumed(amount: Quantity, totalCost: int)
    | OutOfStockReached
    | LowStockReached(level: real)
    | StockAdjusted(delta: real)
    | StockTransferredOut(amount: Quantity, targetBranch: string)
    | StockTransferredIn(amount: Quantity)
    | ReorderLevelChanged(newLevel: Quantity)

  /** The threshold events of consume compare the totals before and after with the reorder level. */
  function ThresholdEvents(before: real, after: real, level: real): seq<StockEvent> {
    if after == 0.0 then [OutOfStockReached]
    else if after <= level && before > level then [LowStockReached(after)]
    else []
  }
}
