/** Whole runs of one stock: the quantity ledger, the invariant, and where the average cost can go. */
module StockRuns {
  import opened Basics
  import opened Sequences
  import opened StockTypes
  import opened BatchSelection
  import opened StockSpec
  import StockEffects
  import StockLaws

  /** A stock together with the next free batch id. */
  datatype Cell = Cell(stock: StockState, nextId: nat)

  datatype StockOp =
    | OpReceive(details: ReceiveDetails)
    | OpConsume(amount: Quantity, at: int)
    | OpAdjust(delta: SignedQuantity, reason: string, at: int)
    | OpTransferOut(amount: Quantity, at: int)
    | OpTransferIn(arrivals: seq<TransferDetail>, at: int)
    | OpRemoveDocument(doc: string)
    | OpChangeReorderLevel(level: Quantity)

  /** Quantities are never negative: `Quantity.of` refuses to build one. */
  predicate Proper(op: StockOp) {
    match op
    case OpReceive(d) => d.quantity.amount >= 0.0
    case OpConsume(q, _) => q.amount >= 0.0
    case OpTransferOut(q, _) => q.amount >= 0.0
    case OpTransferIn(ds, _) => forall d :: d in ds ==> d.quantity.amount >= 0.0
    case _ => true
  }

  function OrSame(s: StockState, r: Result<StockState, StockError>): StockState {
    match r
    case Ok(s') => s'
    case Err(_) => s
  }

  /** One operation; a throwing one leaves the stock as it was. */
  function Perform(c: Cell, strategy: Strategy, op: StockOp): Cell {
    match op
    case OpReceive(d) => Cell(OrSame(c.stock, Received(c.stock, c.nextId, d)), c.nextId + 1)
    case OpConsume(q, at) => c.(stock := OrSame(c.stock, Consumed(c.stock, q, strategy, at)))
    case OpAdjust(delta, reason, at) =>
      Cell(OrSame(c.stock, Adjusted(c.stock, c.nextId, delta, reason, strategy, at)), c.nextId + 1)
    case OpTransferOut(q, at) => c.(stock := OrSame(c.stock, Consumed(c.stock, q, strategy, at)))
    case OpTransferIn(ds, at) => Cell(TransferredIn(c.stock, c.nextId, ds, at), c.nextId + |ds|)
    case OpRemoveDocument(doc) => c.(stock := WithoutDocument(c.stock, doc))
    case OpChangeReorderLevel(level) =>
      if level.unit == c.stock.baseUnit then c.(stock := c.stock.(reorderLevel := level)) else c
  }

  function PerformAll(c: Cell, strategy: Strategy, ops: seq<StockOp>): Cell
    decreases |ops|
  {
    if ops == [] then c else PerformAll(Perform(c, strategy, ops[0]), strategy, ops[1..])
  }

  predicate CellOk(c: Cell) {
    StateOk(c.stock) && IdsBelow(c.stock.batches, c.nextId)
  }

  // ---------------------------------------------------------------- the ledger

  function From(doc: string): BatchView -> bool {
    (b: BatchView) => b.sourceDocId == doc
  }

  /** What a guarded withdrawal moves out: the lesser of the request and the unexpired stock, if it is accepted. */
  function Outflow(s: StockState, q: Quantity, at: int): real {
    if WithdrawError(s, q).None? then MinReal(q.amount, Unexpired(s, at)) else 0.0
  }

  function ArrivedQuantity(unit: Unit, ds: seq<TransferDetail>): real {
    if ds == [] || ds[0].quantity.unit != unit then 0.0
    else ds[0].quantity.amount + ArrivedQuantity(unit, ds[1..])
  }

  /** The entry an operation makes in the quantity ledger. */
  function Entry(s: StockState, op: StockOp): real {
    match op
    case OpReceive(d) => if d.quantity.unit == s.baseUnit then d.quantity.amount else 0.0
    case OpConsume(q, at) => -Outflow(s, q, at)
    case OpAdjust(delta, _, at) =>
      if delta.unit != s.baseUnit then 0.0
      else if delta.amount > 0.0 then delta.amount
      else -Outflow(s, Quantity(-delta.amount, s.baseUnit), at)
    case OpTransferOut(q, at) => -Outflow(s, q, at)
    case OpTransferIn(ds, _) => ArrivedQuantity(s.baseUnit, ds)
    case OpRemoveDocument(doc) => -Sum(Filter(s.batches, From(doc)), Amount)
    case OpChangeReorderLevel(_) => 0.0
  }

  function Ledger(c: Cell, strategy: Strategy, ops: seq<StockOp>): real
    decreases |ops|
  {
    if ops == [] then 0.0
    else Entry(c.stock, ops[0]) + Ledger(Perform(c, strategy, ops[0]), strategy, ops[1..])
  }

  lemma AppendTotal(s: StockState, b: BatchView)
    ensures Total(s.(batches := s.batches + [b])) == Total(s) + Amount(b)
  {
    SumOne(s.batches, b, Amount);
  }

  lemma ConsumedTotal(s: StockState, q: Quantity, strategy: Strategy, at: int)
    requires StateOk(s) && q.amount >= 0.0
    ensures Total(OrSame(s, Consumed(s, q, strategy, at))) == Total(s) - Outflow(s, q, at)
  {
    if WithdrawError(s, q).None? {
      StockEffects.WithdrawnTotal(s, q.amount, strategy, at);
    }
  }

  lemma {:induction false} IncomingTotal(unit: Unit, id: nat, ds: seq<TransferDetail>, at: int)
    ensures Sum(Incoming(unit, id, ds, at), Amount) == ArrivedQuantity(unit, ds)
    decreases |ds|
  {
    if ds != [] && ds[0].quantity.unit == unit {
      IncomingTotal(unit, id + 1, ds[1..], at);
      assert Incoming(unit, id, ds, at)[1..] == Incoming(unit, id + 1, ds[1..], at);
    }
  }

  lemma {:induction false} SumSplit(bs: seq<BatchView>, doc: string)
    ensures Sum(Filter(bs, NotFrom(doc)), Amount) == Sum(bs, Amount) - Sum(Filter(bs, From(doc)), Amount)
  {
    if bs != [] {
      SumSplit(bs[1..], doc);
      assert bs == [bs[0]] + bs[1..];
      FilterCons(bs[0], bs[1..], NotFrom(doc));
      FilterCons(bs[0], bs[1..], From(doc));
      SumAppend([bs[0]], Filter(bs[1..], NotFrom(doc)), Amount);
      SumAppend([bs[0]], Filter(bs[1..], From(doc)), Amount);
      assert [] + Filter(bs[1..], From(doc)) == Filter(bs[1..], From(doc));
      assert [] + Filter(bs[1..], NotFrom(doc)) == Filter(bs[1..], NotFrom(doc));
    }
  }

  /** One operation keeps the invariant and changes the total by its ledger entry. */
  lemma PerformLedger(c: Cell, strategy: Strategy, op: StockOp)
    requires CellOk(c) && Proper(op)
    ensures CellOk(Perform(c, strategy, op))
    ensures Total(Perform(c, strategy, op).stock) == Total(c.stock) + Entry(c.stock, op)
    ensures Perform(c, strategy, op).stock.baseUnit == c.stock.baseUnit
  {
    var s := c.stock;
    hide Consumed, Outflow, StateOk, Total, WithdrawError, NewAverage;
    match op
    case OpReceive(d) =>
      StockLaws.ReceivedOk(s, c.nextId, d);
      AppendTotal(s.(averageCost := NewAverage(Total(s), s.averageCost, d.quantity.amount, d.unitCost)),
                  FreshBatch(c.nextId, d));
      SameBatchesSameTotal(s, s.(averageCost := NewAverage(Total(s), s.averageCost, d.quantity.amount, d.unitCost)));
    case OpConsume(q, at) =>
      StockLaws.ConsumedOk(s, q, strategy, at);
      ConsumedTotal(s, q, strategy, at);
      ConsumedUnit(s, q, strategy, at);
    case OpAdjust(delta, reason, at) =>
      AdjustLedger(c, strategy, delta, reason, at);
    case OpTransferOut(q, at) =>
      StockLaws.ConsumedOk(s, q, strategy, at);
      ConsumedTotal(s, q, strategy, at);
      ConsumedUnit(s, q, strategy, at);
    case OpTransferIn(ds, at) =>
      StockLaws.TransferredInOk(s, c.nextId, ds, at);
      ArrivalTotal(s, c.nextId, ds, at);
    case OpRemoveDocument(doc) =>
      StockLaws.WithoutDocumentOk(s, doc);
      RemovalTotal(s, doc);
    case OpChangeReorderLevel(level) =>
      ReorderOk(s, level);
  }

  lemma ReorderOk(s: StockState, level: Quantity)
    requires StateOk(s)
    ensures StateOk(s.(reorderLevel := level)) && Total(s.(reorderLevel := level)) == Total(s)
  {
  }

  lemma SameBatchesSameTotal(s: StockState, t: StockState)
    requires s.batches == t.batches
    ensures Total(s) == Total(t)
  {
  }

  lemma ConsumedUnit(s: StockState, q: Quantity, strategy: Strategy, at: int)
    ensures Consumed(s, q, strategy, at).Ok? ==> Consumed(s, q, strategy, at).value.baseUnit == s.baseUnit
  {
  }

  lemma ArrivalTotal(s: StockState, id: nat, ds: seq<TransferDetail>, at: int)
    ensures Total(TransferredIn(s, id, ds, at)) == Total(s) + ArrivedQuantity(s.baseUnit, ds)
  {
    SumAppend(s.batches, Incoming(s.baseUnit, id, ds, at), Amount);
    IncomingTotal(s.baseUnit, id, ds, at);
  }

  lemma RemovalTotal(s: StockState, doc: string)
    ensures Total(WithoutDocument(s, doc)) == Total(s) - Sum(Filter(s.batches, From(doc)), Amount)
  {
    SumSplit(s.batches, doc);
  }

  lemma AdjustLedger(c: Cell, strategy: Strategy, delta: SignedQuantity, reason: string, at: int)
    requires CellOk(c)
    ensures var op := OpAdjust(delta, reason, at);
            && CellOk(Perform(c, strategy, op))
            && Total(Perform(c, strategy, op).stock) == Total(c.stock) + Entry(c.stock, op)
            && Perform(c, strategy, op).stock.baseUnit == c.stock.baseUnit
  {
    var s := c.stock;
    StockLaws.AdjustedKeeps(s, c.nextId, delta, reason, strategy, at);
    var q := Quantity(-delta.amount, s.baseUnit);
    hide Consumed, Outflow, StateOk, Total;
    if delta.unit == s.baseUnit && delta.amount > 0.0 {
      AppendTotal(s, AdjustmentBatch(s, c.nextId, delta.amount, reason, at));
    } else if delta.unit == s.baseUnit {
      ConsumedTotal(s, q, strategy, at);
      ConsumedUnit(s, q, strategy, at);
      if delta.amount == 0.0 {
        NoOutflow(s, at);
      }
    }
  }

  lemma NoOutflow(s: StockState, at: int)
    requires StateOk(s)
    ensures Outflow(s, Quantity(0.0, s.baseUnit), at) == 0.0
  {
    StockEffects.UnexpiredBounds(s, at);
  }

  /**
   Over any run every stock keeps distinct ids, its base unit and 0 <= remaining <= initial in every
   batch, and its total is the opening total plus the ledger.
   */
  lemma {:induction false} RunLedger(c: Cell, strategy: Strategy, ops: seq<StockOp>)
    requires CellOk(c) && forall op :: op in ops ==> Proper(op)
    ensures CellOk(PerformAll(c, strategy, ops))
    ensures Total(PerformAll(c, strategy, ops).stock) == Total(c.stock) + Ledger(c, strategy, ops)
    decreases |ops|
  {
    hide Perform, Entry, CellOk, Proper;
    if ops != [] {
      assert ops[0] in ops && forall op :: op in ops[1..] ==> op in ops;
      PerformLedger(c, strategy, ops[0]);
      RunLedger(Perform(c, strategy, ops[0]), strategy, ops[1..]);
    }
  }

  // ---------------------------------------------------------------- average cost

  lemma MeanBetween(e: real, a: int, q: real, c: int, lo: int, hi: int)
    requires e > 0.0 && q >= 0.0 && lo <= a <= hi && lo <= c <= hi
    ensures lo as real <= WeightedMean(e, a, q, c) <= hi as real
  {
    AtLeast(e, a as real, q, c as real, lo as real);
    AtMost(e, a as real, q, c as real, hi as real);
    Bounded(e * a as real + q * c as real, e + q, lo as real * (e + q), hi as real * (e + q), lo as real, hi as real);
  }

  lemma AtLeast(e: real, a: real, q: real, c: real, lo: real)
    requires e >= 0.0 && q >= 0.0 && lo <= a && lo <= c
    ensures lo * (e + q) <= e * a + q * c
  {
    Scaled(e, lo, a);
    Scaled(q, lo, c);
    Shared(lo, e, q);
    Added(e * lo, e * a, q * lo, q * c);
  }

  lemma AtMost(e: real, a: real, q: real, c: real, hi: real)
    requires e >= 0.0 && q >= 0.0 && a <= hi && c <= hi
    ensures e * a + q * c <= hi * (e + q)
  {
    Scaled(e, a, hi);
    Scaled(q, c, hi);
    Shared(hi, e, q);
    Added(e * a, e * hi, q * c, q * hi);
  }

  lemma Added(x: real, x': real, y: real, y': real)
    requires x <= x' && y <= y'
    ensures x + y <= x' + y'
  {
  }

  lemma Shared(x: real, e: real, q: real)
    ensures x * (e + q) == e * x + q * x
  {
  }

  lemma Bounded(n: real, k: real, lower: real, upper: real, lo: real, hi: real)
    requires k > 0.0 && lower <= n <= upper && lower == lo * k && upper == hi * k
    ensures lo <= n / k <= hi
  {
    var x := n / k;
    Divided(n, k);
    Cancel(lo, x, k, lower, n);
    Cancel(x, hi, k, n, upper);
  }

  lemma Scaled(k: real, x: real, y: real)
    requires k >= 0.0 && x <= y
    ensures k * x <= k * y
  {
  }

  lemma RoundBetween(x: real, lo: int, hi: int)
    requires lo as real <= x <= hi as real
    ensures lo <= Round(x) <= hi
  {
  }

  /** With stock on hand a receive puts the average between the old average and the new cost. */
  lemma AverageBetween(existing: real, average: int, quantity: real, cost: int, lo: int, hi: int)
    requires quantity >= 0.0 && lo <= average <= hi && lo <= cost <= hi
    ensures lo <= NewAverage(existing, average, quantity, cost) <= hi
  {
    if existing > 0.0 {
      MeanBetween(existing, average, quantity, cost, lo, hi);
      RoundBetween(WeightedMean(existing, average, quantity, cost), lo, hi);
    }
  }

  /** Every receive of the run costs between lo and hi a unit. */
  predicate CostsWithin(ops: seq<StockOp>, lo: int, hi: int) {
    forall op :: op in ops && op.OpReceive? ==> lo <= op.details.unitCost <= hi
  }

  lemma PerformAverage(c: Cell, strategy: Strategy, op: StockOp, lo: int, hi: int)
    requires Proper(op) && lo <= c.stock.averageCost <= hi
    requires op.OpReceive? ==> lo <= op.details.unitCost <= hi
    ensures lo <= Perform(c, strategy, op).stock.averageCost <= hi
  {
    hide NewAverage, Total, Drained;
    if op.OpReceive? {
      var d := op.details;
      AverageBetween(Total(c.stock), c.stock.averageCost, d.quantity.amount, d.unitCost, lo, hi);
    }
  }

  /**
   Once the average lies within the received costs it stays there over any run, whatever else is
   consumed, adjusted, transferred or removed in between.
   */
  lemma {:induction false} AverageStaysWithin(c: Cell, strategy: Strategy, ops: seq<StockOp>, lo: int, hi: int)
    requires lo <= c.stock.averageCost <= hi && CostsWithin(ops, lo, hi)
    requires forall op :: op in ops ==> Proper(op)
    ensures lo <= PerformAll(c, strategy, ops).stock.averageCost <= hi
    decreases |ops|
  {
    hide Perform, Proper;
    if ops != [] {
      assert ops[0] in ops && forall op :: op in ops[1..] ==> op in ops;
      PerformAverage(c, strategy, ops[0], lo, hi);
      AverageStaysWithin(Perform(c, strategy, ops[0]), strategy, ops[1..], lo, hi);
    }
  }

  /** A receive into an empty stock starts the average at its own cost. */
  lemma AverageStarts(s: StockState, id: nat, d: ReceiveDetails)
    requires Total(s) <= 0.0 && d.quantity.unit == s.baseUnit
    ensures Received(s, id, d).value.averageCost == d.unitCost
  {
  }

  /** Receives only, one after another. */
  function ReceiveAll(c: Cell, ds: seq<ReceiveDetails>): Cell {
    if ds == [] then c
    else
      var before := ReceiveAll(c, ds[..|ds| - 1]);
      Cell(OrSame(before.stock, Received(before.stock, before.nextId, ds[|ds| - 1])), before.nextId + 1)
  }

  function QuantityOf(ds: seq<ReceiveDetails>): real {
    if ds == [] then 0.0 else QuantityOf(ds[..|ds| - 1]) + ds[|ds| - 1].quantity.amount
  }

  function CostOf(ds: seq<ReceiveDetails>): real {
    if ds == [] then 0.0
    else CostOf(ds[..|ds| - 1]) + ds[|ds| - 1].quantity.amount * ds[|ds| - 1].unitCost as real
  }

  predicate PositiveReceipts(ds: seq<ReceiveDetails>, unit: Unit) {
    forall d :: d in ds ==> d.quantity.amount > 0.0 && d.quantity.unit == unit
  }

  lemma {:induction false} ReceiveAllTotal(c: Cell, ds: seq<ReceiveDetails>)
    requires Total(c.stock) == 0.0 && PositiveReceipts(ds, c.stock.baseUnit)
    ensures Total(ReceiveAll(c, ds).stock) == QuantityOf(ds)
    ensures ReceiveAll(c, ds).stock.baseUnit == c.stock.baseUnit
    ensures ds != [] ==> QuantityOf(ds) > 0.0
  {
    if ds != [] {
      var front, d := ds[..|ds| - 1], ds[|ds| - 1];
      assert d in ds && forall x :: x in front ==> x in ds;
      ReceiveAllTotal(c, front);
      var before := ReceiveAll(c, front);
      hide NewAverage, Total;
      var averaged := before.stock.(averageCost :=
        NewAverage(Total(before.stock), before.stock.averageCost, d.quantity.amount, d.unitCost));
      SameBatchesSameTotal(before.stock, averaged);
      AppendTotal(averaged, FreshBatch(before.nextId, d));
      assert front != [] || QuantityOf(front) == 0.0;
    }
  }

  /** How far an average is from the exact mean of quantity units that cost total. */
  function OffMean(average: int, total: real, quantity: real): real
    requires quantity > 0.0
  {
    AbsReal(average as real - total / quantity)
  }

  /**
   The error carried over shrinks with the share of the old stock, and rounding adds at most half a
   cent; e units cost total, and the average is off their mean by at most bound.
   */
  lemma DriftStep(e: real, q: real, average: int, cost: int, total: real, bound: real)
    requires e > 0.0 && q > 0.0 && bound >= 0.0
    requires OffMean(average, total, e) <= bound
    ensures OffMean(NewAverage(e, average, q, cost), total + q * cost as real, e + q) <= bound + 0.5
  {
    var x := WeightedMean(e, average, q, cost);
    Divided(total, e);
    ShareOfError(e, q, q * cost as real, average as real, total / e, e * average as real, total, bound);
    assert AbsReal(Round(x) as real - x) <= 0.5;
  }

  lemma ShareOfError(e: real, q: real, z: real, a: real, m: real, ea: real, em: real, bound: real)
    requires e > 0.0 && q > 0.0 && -bound <= a - m <= bound && ea == e * a && em == e * m
    ensures -bound <= (ea + z) / (e + q) - (em + z) / (e + q) <= bound
  {
    var x, y := (ea + z) / (e + q), (em + z) / (e + q);
    Divided(ea + z, e + q);
    Divided(em + z, e + q);
    Scaled(e, a - m, bound);
    Scaled(e, -bound, a - m);
    Cancel(x - y, bound, e + q, ea - em, e * bound + q * bound);
    Cancel(-bound, x - y, e + q, -(e * bound + q * bound), ea - em);
  }

  /**
   After k positive receipts into an empty stock the average cost is within (k - 1) / 2 cents of the
   exact weighted mean of what was received.
   */
  lemma {:induction false} AverageDrift(c: Cell, ds: seq<ReceiveDetails>)
    requires Total(c.stock) == 0.0 && PositiveReceipts(ds, c.stock.baseUnit) && ds != []
    ensures QuantityOf(ds) > 0.0
    ensures OffMean(ReceiveAll(c, ds).stock.averageCost, CostOf(ds), QuantityOf(ds)) <= (|ds| - 1) as real * 0.5
  {
    hide ReceiveAll, QuantityOf, CostOf, PositiveReceipts, NewAverage, Total, OffMean;
    var front, d := ds[..|ds| - 1], ds[|ds| - 1];
    LastReceipt(c, ds);
    var before := ReceiveAll(c, front);
    if front == [] {
      Quotient(d.quantity.amount, d.unitCost, CostOf(ds), QuantityOf(ds));
    } else {
      AverageDrift(c, front);
      DriftStep(QuantityOf(front), d.quantity.amount, before.stock.averageCost, d.unitCost,
                CostOf(front), (|front| - 1) as real * 0.5);
    }
  }

  /** What the last receipt adds to the running sums and does to the average. */
  lemma LastReceipt(c: Cell, ds: seq<ReceiveDetails>)
    requires Total(c.stock) == 0.0 && PositiveReceipts(ds, c.stock.baseUnit) && ds != []
    ensures var front, d := ds[..|ds| - 1], ds[|ds| - 1];
            var before := ReceiveAll(c, front).stock;
            && PositiveReceipts(front, c.stock.baseUnit) && d.quantity.amount > 0.0
            && (front != [] ==> QuantityOf(front) > 0.0) && QuantityOf(ds) > 0.0
            && QuantityOf(ds) == QuantityOf(front) + d.quantity.amount
            && CostOf(ds) == CostOf(front) + d.quantity.amount * d.unitCost as real
            && ReceiveAll(c, ds).stock.averageCost
               == NewAverage(QuantityOf(front), before.averageCost, d.quantity.amount, d.unitCost)
            && (front == [] ==> QuantityOf(front) == 0.0 && CostOf(front) == 0.0
                                && ReceiveAll(c, ds).stock.averageCost == d.unitCost)
  {
    var front, d := ds[..|ds| - 1], ds[|ds| - 1];
    assert d in ds && forall x :: x in front ==> x in ds;
    ReceiveAllTotal(c, front);
    hide Total;
  }

  lemma Quotient(q: real, c: int, n: real, k: real)
    requires q > 0.0 && k == q && n == q * c as real
    ensures OffMean(c, n, k) == 0.0
  {
  }
}
