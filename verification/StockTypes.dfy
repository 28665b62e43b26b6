/** Values the inventory works with: units, quantities, batches and errors. */
module StockTypes {
  import Basics

  datatype Unit = G | KG | L | M | ML | PCS

  /** Quantities are exact: a non-negative amount of one unit. */
  datatype Quantity = Quantity(amount: real, unit: Unit)

  /** A signed amount, as adjustments and counts carry. */
  datatype SignedQuantity = SignedQuantity(amount: real, unit: Unit)

  datatype SourceType = FromReceipt | FromAdjustment | FromTransfer

  /** Everything a batch holds at one moment; money is in cents, instants in milliseconds. */
  datatype BatchView = BatchView(
    id: nat,
    supplierId: Basics.Option<string>,
    sourceType: SourceType,
    sourceDocId: string,
    initial: Quantity,
    remaining: Quantity,
    unitCost: nat,
    expiresAt: Basics.Option<int>,
    receivedAt: int)

  datatype Allocation = Allocation(batchId: nat, quantity: Quantity, unitCost: nat)

  datatype StockError =
    | UnitMismatch(got: Unit, expected: Unit)
    | InsufficientStock(available: real, requested: real)
    | BatchInsufficient(batchId: nat, remaining: real, requested: real)
    | QuantityUnitMismatch

  function Amount(b: BatchView): real {
    b.remaining.amount
  }

  /** The unexpired part of a batch is all of it, until the instant of expiry. */
  predicate IsExpired(b: BatchView, at: int) {
    b.expiresAt.Some? && at >= b.expiresAt.value
  }

  predicate IsDepleted(b: BatchView) {
    b.remaining.amount == 0.0
  }

  predicate Available(b: BatchView, at: int) {
    !IsExpired(b, at) && !IsDepleted(b)
  }

  /** No two batches share an id. */
  predicate DistinctIds(bs: seq<BatchView>) {
    forall i, j :: 0 <= i < j < |bs| ==> bs[i].id != bs[j].id
  }

  /** A batch in the stock's own unit, between empty and its initial quantity. */
  predicate Sound(b: BatchView, unit: Unit) {
    b.initial.unit == unit && b.remaining.unit == unit && 0.0 <= b.remaining.amount <= b.initial.amount
  }

  predicate AllSound(bs: seq<BatchView>, unit: Unit) {
    forall b :: b in bs ==> Sound(b, unit)
  }
}
