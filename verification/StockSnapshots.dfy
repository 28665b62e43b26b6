/** `Stock.toSnapshot` and `Stock.restore`: money travels as strings of cents, amounts without their unit. */
module StockSnapshots {
  import opened Basics
  import opened StockTypes
  import Money
  import StockSpec

  datatype BatchSnapshot = BatchSnapshot(
    id: nat,
    supplierId: Option<string>,
    sourceType: SourceType,
    sourceDocId: string,
    initialQuantity: real,
    remainingQuantity: real,
    unitCostCents: string,
    expiresAt: Option<int>,
    receivedAt: int)

  datatype StockSnapshot = StockSnapshot(
    skuId: string,
    branchId: string,
    baseUnit: Unit,
    reorderLevel: real,
    averageCostCents: string,
    batches: seq<BatchSnapshot>)

  datatype RestoreError = InvalidQuantity(amount: real) | InvalidMoney(cents: string)

  function BatchToSnapshot(b: BatchView): BatchSnapshot {
    BatchSnapshot(b.id, b.supplierId, b.sourceType, b.sourceDocId, b.initial.amount, b.remaining.amount,
                  Money.IntString(b.unitCost), b.expiresAt, b.receivedAt)
  }

  function BatchesToSnapshot(bs: seq<BatchView>): seq<BatchSnapshot> {
    if bs == [] then [] else [BatchToSnapshot(bs[0])] + BatchesToSnapshot(bs[1..])
  }

  function ToSnapshot(s: StockSpec.StockState): StockSnapshot {
    StockSnapshot(s.skuId, s.branchId, s.baseUnit, s.reorderLevel.amount, Money.IntString(s.averageCost),
                  BatchesToSnapshot(s.batches))
  }

  /** `Quantity.of`. */
  function QuantityOf(amount: real, unit: Unit): Result<Quantity, RestoreError> {
    if amount < 0.0 then Err(InvalidQuantity(amount)) else Ok(Quantity(amount, unit))
  }

  /** `moneyFromCentsStr`, refusing what is not a number of cents. */
  function MoneyOf(cents: string): Result<nat, RestoreError> {
    if !Money.IsIntString(cents) then Err(InvalidMoney(cents))
    else
      match Money.MoneyFromCentsStr(cents)
      case Ok(c) => if c >= 0 then Ok(c) else Err(InvalidMoney(cents))
      case Err(_) => Err(InvalidMoney(cents))
  }

  function RestoreBatch(b: BatchSnapshot, unit: Unit): Result<BatchView, RestoreError> {
    match QuantityOf(b.initialQuantity, unit)
    case Err(e) => Err(e)
    case Ok(initial) =>
      match QuantityOf(b.remainingQuantity, unit)
      case Err(e) => Err(e)
      case Ok(remaining) =>
        match MoneyOf(b.unitCostCents)
        case Err(e) => Err(e)
        case Ok(cost) =>
          Ok(BatchView(b.id, b.supplierId, b.sourceType, b.sourceDocId, initial, remaining, cost, b.expiresAt,
                       b.receivedAt))
  }

  function RestoreBatches(bs: seq<BatchSnapshot>, unit: Unit): Result<seq<BatchView>, RestoreError> {
    if bs == [] then Ok([])
    else
      match RestoreBatch(bs[0], unit)
      case Err(e) => Err(e)
      case Ok(b) =>
        match RestoreBatches(bs[1..], unit)
        case Err(e) => Err(e)
        case Ok(rest) => Ok([b] + rest)
  }

  function Restore(snap: StockSnapshot): Result<StockSpec.StockState, RestoreError> {
    match RestoreBatches(snap.batches, snap.baseUnit)
    case Err(e) => Err(e)
    case Ok(batches) =>
      match QuantityOf(snap.reorderLevel, snap.baseUnit)
      case Err(e) => Err(e)
      case Ok(level) =>
        match MoneyOf(snap.averageCostCents)
        case Err(e) => Err(e)
        case Ok(average) => Ok(StockSpec.StockState(snap.skuId, snap.branchId, snap.baseUnit, batches, level, average))
  }

  lemma BatchRoundTrip(b: BatchView, unit: Unit)
    requires Sound(b, unit)
    ensures RestoreBatch(BatchToSnapshot(b), unit) == Ok(b)
  {
    Money.CentsStringRoundTrip(b.unitCost);
    hide Money.IntString, Money.MoneyFromCentsStr, Money.IsIntString;
  }

  lemma {:induction false} BatchesRoundTrip(bs: seq<BatchView>, unit: Unit)
    requires AllSound(bs, unit)
    ensures RestoreBatches(BatchesToSnapshot(bs), unit) == Ok(bs)
  {
    hide RestoreBatch, BatchToSnapshot;
    if bs != [] {
      var snaps := BatchesToSnapshot(bs);
      assert bs[0] in bs && forall b :: b in bs[1..] ==> b in bs;
      BatchRoundTrip(bs[0], unit);
      BatchesRoundTrip(bs[1..], unit);
      assert snaps[1..] == BatchesToSnapshot(bs[1..]);
      assert bs == [bs[0]] + bs[1..];
    }
  }

  /**
   Restoring a snapshot rebuilds every sound stock, except that the reorder level comes back in the
   base unit: the stock is reproduced exactly when its reorder level was in the base unit.
   */
  lemma SnapshotRoundTrip(s: StockSpec.StockState)
    requires StockSpec.StateOk(s) && s.reorderLevel.amount >= 0.0
    ensures Restore(ToSnapshot(s)) == Ok(s.(reorderLevel := Quantity(s.reorderLevel.amount, s.baseUnit)))
    ensures Restore(ToSnapshot(s)) == Ok(s) <==> s.reorderLevel.unit == s.baseUnit
  {
    BatchesRoundTrip(s.batches, s.baseUnit);
    Money.CentsStringRoundTrip(s.averageCost);
    hide RestoreBatches, BatchesToSnapshot, Money.IntString, Money.MoneyFromCentsStr, Money.IsIntString;
    assert s.reorderLevel == Quantity(s.reorderLevel.amount, s.reorderLevel.unit);
  }

  predicate ProperCents(cents: string) {
    Money.IsIntString(cents) && Money.IntValue(cents) >= 0
  }

  predicate ProperSnapshot(b: BatchSnapshot) {
    b.initialQuantity >= 0.0 && b.remainingQuantity >= 0.0 && ProperCents(b.unitCostCents)
  }

  lemma MoneyAccepts(cents: string)
    ensures MoneyOf(cents) == if ProperCents(cents) then Ok(Money.IntValue(cents)) else Err(InvalidMoney(cents))
  {
    if Money.IsIntString(cents) {
      Money.PrintersRoundTrip(Money.IntValue(cents));
      hide Money.MoneyFromCents, Money.IntValue, Money.IsIntString;
    }
  }

  /** The batch is what its snapshot says. */
  predicate Matches(b: BatchView, snap: BatchSnapshot, unit: Unit) {
    && b.id == snap.id && b.supplierId == snap.supplierId
    && b.sourceType == snap.sourceType && b.sourceDocId == snap.sourceDocId
    && b.initial == Quantity(snap.initialQuantity, unit) && b.remaining == Quantity(snap.remainingQuantity, unit)
    && ProperCents(snap.unitCostCents) && b.unitCost == Money.IntValue(snap.unitCostCents)
    && b.expiresAt == snap.expiresAt && b.receivedAt == snap.receivedAt
  }

  lemma BatchAccepted(snap: BatchSnapshot, unit: Unit)
    ensures RestoreBatch(snap, unit).Ok? <==> ProperSnapshot(snap)
    ensures RestoreBatch(snap, unit).Ok? ==> Matches(RestoreBatch(snap, unit).value, snap, unit)
  {
    MoneyAccepts(snap.unitCostCents);
    hide MoneyOf, Money.IntValue, Money.IsIntString;
  }

  lemma {:induction false} BatchesAccepted(snaps: seq<BatchSnapshot>, unit: Unit)
    ensures RestoreBatches(snaps, unit).Ok? <==> forall snap :: snap in snaps ==> ProperSnapshot(snap)
    ensures RestoreBatches(snaps, unit).Ok? ==>
              && |RestoreBatches(snaps, unit).value| == |snaps|
              && forall i :: 0 <= i < |snaps| ==> Matches(RestoreBatches(snaps, unit).value[i], snaps[i], unit)
  {
    hide RestoreBatch, ProperSnapshot, Matches;
    if snaps != [] {
      BatchesAccepted(snaps[1..], unit);
      BatchAccepted(snaps[0], unit);
      assert snaps == [snaps[0]] + snaps[1..];
    }
  }

  /**
   A snapshot is restored exactly when no amount in it is negative and every cost is a number of cents that is not;
   the stock is then what the snapshot says, all amounts in the base unit.
   */
  lemma RestoreAccepts(snap: StockSnapshot)
    ensures Restore(snap).Ok? <==>
              && snap.reorderLevel >= 0.0 && ProperCents(snap.averageCostCents)
              && forall b :: b in snap.batches ==> ProperSnapshot(b)
    ensures Restore(snap).Ok? ==>
              var s := Restore(snap).value;
              && s.baseUnit == snap.baseUnit && s.reorderLevel == Quantity(snap.reorderLevel, snap.baseUnit)
              && s.averageCost == Money.IntValue(snap.averageCostCents) && |s.batches| == |snap.batches|
              && forall i :: 0 <= i < |s.batches| ==> Matches(s.batches[i], snap.batches[i], snap.baseUnit)
  {
    BatchesAccepted(snap.batches, snap.baseUnit);
    MoneyAccepts(snap.averageCostCents);
    hide MoneyOf, ProperCents, RestoreBatches, ProperSnapshot, Matches, Money.IntValue, Money.IsIntString;
  }
}
