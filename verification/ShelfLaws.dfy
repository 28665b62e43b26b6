/**
 What ends up on the shelf, label by label: over whole runs of one stock, and from the lines of a document to the
 stored stocks its handlers leave.
 */
module ShelfLaws {
  import opened Basics
  import opened StockTypes
  import opened BatchSelection
  import opened StockSpec
  import opened BatchLabels
  import opened Documents
  import opened Inventory
  import opened StockRuns
  import Sagas
  import Sequences

  // ---------------------------------------------------------------- runs of one stock

  /** What a guarded withdrawal takes, gauged. */
  function TakenGauge(s: StockState, q: Quantity, strategy: Strategy, at: int, g: Gauge): real {
    if WithdrawError(s, q).Some? then 0.0
    else Sequences.Sum(s.batches, GivenGauge(Chosen(s, q.amount, strategy, at), g))
  }

  /** The entry an operation makes in the ledger of a gauge. */
  function GaugeEntry(s: StockState, strategy: Strategy, op: StockOp, g: Gauge): real
    requires s.averageCost >= 0
  {
    match op
    case OpReceive(d) =>
      if d.quantity.unit != s.baseUnit then 0.0
      else
        d.quantity.amount
        * g(Label(d.supplierId, d.sourceType, d.sourceDocId, d.quantity, d.unitCost, d.expiresAt, d.receivedAt))
    case OpConsume(q, at) => -TakenGauge(s, q, strategy, at, g)
    case OpAdjust(delta, reason, at) =>
      if delta.unit != s.baseUnit then 0.0
      else if delta.amount > 0.0 then
        delta.amount
        * g(Label(None, FromAdjustment, reason, Quantity(delta.amount, delta.unit), s.averageCost, None, at))
      else if delta.amount < 0.0 then -TakenGauge(s, Quantity(-delta.amount, s.baseUnit), strategy, at, g)
      else 0.0
    case OpTransferOut(q, at) => -TakenGauge(s, q, strategy, at, g)
    case OpTransferIn(ds, at) => DetailGauge(s.baseUnit, ds, at, g)
    case OpRemoveDocument(doc) => -Gauged(s, OfDocument(doc, g))
    case OpChangeReorderLevel(_) => 0.0
  }

  lemma ConsumedGauge(s: StockState, q: Quantity, strategy: Strategy, at: int, g: Gauge)
    ensures Gauged(OrSame(s, Consumed(s, q, strategy, at)), g) == Gauged(s, g) - TakenGauge(s, q, strategy, at, g)
  {
    if WithdrawError(s, q).None? {
      DrainedGauge(s.batches, Chosen(s, q.amount, strategy, at), g);
    }
  }

  lemma AdjustGauge(s: StockState, id: nat, strategy: Strategy, delta: SignedQuantity, reason: string, at: int,
                    g: Gauge)
    requires s.averageCost >= 0
    ensures Gauged(OrSame(s, Adjusted(s, id, delta, reason, strategy, at)), g)
         == Gauged(s, g) + GaugeEntry(s, strategy, OpAdjust(delta, reason, at), g)
  {
    hide Consumed, TakenGauge, Gauged;
    if delta.unit == s.baseUnit {
      if delta.amount > 0.0 {
        AdjustedGauge(s, id, delta, reason, strategy, at, g);
      } else {
        ConsumedGauge(s, Quantity(-delta.amount, s.baseUnit), strategy, at, g);
      }
    }
  }

  lemma ReceiveGauge(s: StockState, id: nat, strategy: Strategy, d: ReceiveDetails, g: Gauge)
    requires s.averageCost >= 0
    ensures Gauged(OrSame(s, Received(s, id, d)), g) == Gauged(s, g) + GaugeEntry(s, strategy, OpReceive(d), g)
  {
    hide NewAverage, Total, Gauged;
    if d.quantity.unit == s.baseUnit {
      ReceivedGauge(s, id, d, g);
    }
  }

  /** The reorder level is no part of what is on the shelf. */
  lemma ReorderGauge(s: StockState, level: Quantity, g: Gauge)
    ensures Gauged(s.(reorderLevel := level), g) == Gauged(s, g)
  {
  }

  lemma PerformGauge(c: Cell, strategy: Strategy, op: StockOp, g: Gauge)
    requires c.stock.averageCost >= 0
    ensures Gauged(Perform(c, strategy, op).stock, g) == Gauged(c.stock, g) + GaugeEntry(c.stock, strategy, op, g)
  {
    var s := c.stock;
    hide Consumed, Received, Adjusted, TransferredIn, TakenGauge, Gauged, DetailGauge, OfDocument;
    match op
    case OpReceive(d) => ReceiveGauge(s, c.nextId, strategy, d, g);
    case OpConsume(q, at) => ConsumedGauge(s, q, strategy, at, g);
    case OpAdjust(delta, reason, at) => AdjustGauge(s, c.nextId, strategy, delta, reason, at, g);
    case OpTransferOut(q, at) => ConsumedGauge(s, q, strategy, at, g);
    case OpTransferIn(ds, at) => TransferredInGauge(s, c.nextId, ds, at, g);
    case OpRemoveDocument(doc) => RemoveGauge(s, doc, g);
    case OpChangeReorderLevel(level) => ReorderGauge(s, level, g);
  }

  lemma RemoveGauge(s: StockState, doc: string, g: Gauge)
    ensures Gauged(WithoutDocument(s, doc), g) == Gauged(s, g) - Gauged(s, OfDocument(doc, g))
  {
    RemovedGauge(s.batches, doc, g);
  }

  ghost function GaugeLedger(c: Cell, strategy: Strategy, ops: seq<StockOp>, g: Gauge): real
    requires CellOk(c) && forall op :: op in ops ==> Proper(op)
    decreases |ops|
  {
    if ops == [] then 0.0
    else
      assert ops[0] in ops && forall op :: op in ops[1..] ==> op in ops;
      PerformLedger(c, strategy, ops[0]);
      GaugeEntry(c.stock, strategy, ops[0], g) + GaugeLedger(Perform(c, strategy, ops[0]), strategy, ops[1..], g)
  }

  /**
   Over any run of operations and for every gauge: what is on the shelf is what was there, plus what each receive,
   each adjustment upwards and each transfer brought under the label it gave, less what was taken and removed.
   No batch ever changes its supplier, source, cost, expiry or arrival.
   */
  lemma {:induction false} RunGauge(c: Cell, strategy: Strategy, ops: seq<StockOp>, g: Gauge)
    requires CellOk(c) && forall op :: op in ops ==> Proper(op)
    ensures Gauged(PerformAll(c, strategy, ops).stock, g) == Gauged(c.stock, g) + GaugeLedger(c, strategy, ops, g)
    decreases |ops|
  {
    hide Perform, GaugeEntry, Gauged, Proper, StateOk, IdsBelow;
    if ops != [] {
      assert ops[0] in ops && forall op :: op in ops[1..] ==> op in ops;
      CostOk(c);
      PerformLedger(c, strategy, ops[0]);
      PerformGauge(c, strategy, ops[0], g);
      RunGauge(Perform(c, strategy, ops[0]), strategy, ops[1..], g);
    }
  }

  lemma CostOk(c: Cell)
    requires CellOk(c)
    ensures c.stock.averageCost >= 0
  {
  }

  /** The last level set in the base unit. */
  function LastLevel(ops: seq<StockOp>, unit: Unit, before: Quantity): Quantity {
    if ops == [] then before
    else
      LastLevel(ops[1..], unit,
                if ops[0].OpChangeReorderLevel? && ops[0].level.unit == unit then ops[0].level else before)
  }

  lemma OperationKeeps(c: Cell, strategy: Strategy, op: StockOp)
    ensures var s, s' := c.stock, Perform(c, strategy, op).stock;
            && s'.skuId == s.skuId && s'.branchId == s.branchId && s'.baseUnit == s.baseUnit
            && s'.reorderLevel == LastLevel([op], s.baseUnit, s.reorderLevel)
            && (!op.OpReceive? ==> s'.averageCost == s.averageCost)
  {
    hide NewAverage, Total, Chosen, Drained, Incoming;
    assert [op][1..] == [];
  }

  /**
   Over any run the stock stays the same SKU's, branch's and unit's, its reorder level is the last one set in that
   unit, and its average cost is moved by receives only.
   */
  lemma {:induction false} RunKeeps(c: Cell, strategy: Strategy, ops: seq<StockOp>)
    ensures var s, s' := c.stock, PerformAll(c, strategy, ops).stock;
            && s'.skuId == s.skuId && s'.branchId == s.branchId && s'.baseUnit == s.baseUnit
            && s'.reorderLevel == LastLevel(ops, s.baseUnit, s.reorderLevel)
            && ((forall op :: op in ops ==> !op.OpReceive?) ==> s'.averageCost == s.averageCost)
    decreases |ops|
  {
    hide Perform;
    if ops != [] {
      assert ops[0] in ops && forall op :: op in ops[1..] ==> op in ops;
      assert [ops[0]][1..] == [];
      OperationKeeps(c, strategy, ops[0]);
      RunKeeps(Perform(c, strategy, ops[0]), strategy, ops[1..]);
    }
  }

  // ---------------------------------------------------------------- from a receipt to the stored stocks

  function RowGauge(sys: System, key: StockKey, g: Gauge): real {
    if key in sys.rows then Gauged(sys.rows[key], g) else 0.0
  }

  lemma LoadedGauge(sys: System, key: StockKey, unit: Unit, g: Gauge)
    ensures Gauged(Load(sys, key, unit), g) == RowGauge(sys, key, g)
  {
  }

  /** Handling a line of a receipt puts its quantity on the shelf, under its own cost and expiry. */
  lemma ReceiptJobGauge(sys: System, strategy: Strategy, job: LineJob, key: StockKey, g: Gauge)
    requires job.ReceiptJob? && RunJob(sys, strategy, job).Ok?
    ensures var sys', line := RunJob(sys, strategy, job).value, job.line;
            && sys'.done == sys.done + {JobKey(job)}
            && RowGauge(sys', key, g)
               == RowGauge(sys, key, g)
                  + if key != JobStock(job) || JobKey(job) in sys.done then 0.0
                    else line.quantity.amount * g(Label(Some(job.supplierId), FromReceipt, job.receiptId, line.quantity,
                                                        line.unitCost, line.expiresAt, job.at))
  {
    hide Gauged, Received;
    if JobKey(job) in sys.done {
      assert sys.done + {JobKey(job)} == sys.done;
    } else {
      LoadedGauge(sys, JobStock(job), JobUnit(job), g);
      ReceivedGauge(Load(sys, JobStock(job), JobUnit(job)), sys.nextId,
                    ReceiptDetails(job.receiptId, job.supplierId, job.line, job.at), g);
    }
  }

  /** The first line of a SKU. */
  function FirstOf(lines: seq<ReceiptLine>, sku: string): Option<ReceiptLine> {
    if lines == [] then None else if lines[0].sku == sku then Some(lines[0]) else FirstOf(lines[1..], sku)
  }

  /** What a line of a receipt that is posted at an instant is worth. */
  function LineGauge(s: ReceiptState, line: ReceiptLine, at: int, g: Gauge): real {
    line.baseQuantity.amount
    * g(Label(Some(s.supplierId), FromReceipt, s.id, line.baseQuantity, line.unitCost, line.expiresAt, at))
  }

  function JobOf(s: ReceiptState, line: ReceiptLine, at: int): LineJob {
    ReceiptJob(s.id, s.supplierId, s.branchId,
               ReceiptPostedLine(line.sku, line.baseQuantity, line.unitCost, line.expiresAt), at)
  }

  function JobsOf(s: ReceiptState, lines: seq<ReceiptLine>, at: int): seq<LineJob> {
    seq(|lines|, i requires 0 <= i < |lines| => JobOf(s, lines[i], at))
  }

  lemma {:induction false} LinesOnShelf(sys: System, strategy: Strategy, s: ReceiptState, lines: seq<ReceiptLine>,
                                        at: int, sku: string, g: Gauge)
    requires RunJobs(sys, strategy, JobsOf(s, lines, at)).error.None?
    ensures RowGauge(RunJobs(sys, strategy, JobsOf(s, lines, at)).sys, StockKey(sku, s.branchId), g)
         == RowGauge(sys, StockKey(sku, s.branchId), g)
            + (if ReceiptLineKey(s.id, sku) in sys.done || FirstOf(lines, sku).None? then 0.0
               else LineGauge(s, FirstOf(lines, sku).value, at, g))
    decreases |lines|
  {
    hide RowGauge, RunJob;
    if lines != [] {
      var jobs := JobsOf(s, lines, at);
      assert jobs[0] == JobOf(s, lines[0], at) && jobs[1..] == JobsOf(s, lines[1..], at);
      ReceiptJobGauge(sys, strategy, jobs[0], StockKey(sku, s.branchId), g);
      LinesOnShelf(RunJob(sys, strategy, jobs[0]).value, strategy, s, lines[1..], at, sku, g);
    }
  }

  /**
   From the receipt to the shelf: post a receipt and deliver the event it raises. Each SKU gains the quantity of its
   first line, of the receipt's supplier, at the line's cost and with its expiry, as arrived when it was posted.
   */
  lemma ReceiptOnShelf(sys: System, strategy: Strategy, s: ReceiptState, user: string, at: int, sku: string, g: Gauge)
    requires StepReceipt(s, PostReceipt(user, at)).Ok?
    requires var t := StepReceipt(s, PostReceipt(user, at)).value;
             t.raised != [] && RunJobs(sys, strategy, ReceiptJobs(t.raised[|t.raised| - 1])).error.None?
    ensures var t := StepReceipt(s, PostReceipt(user, at)).value;
            var after := RunJobs(sys, strategy, ReceiptJobs(t.raised[|t.raised| - 1])).sys;
            RowGauge(after, StockKey(sku, s.branchId), g)
              == RowGauge(sys, StockKey(sku, s.branchId), g)
                 + (if ReceiptLineKey(s.id, sku) in sys.done || FirstOf(s.lines, sku).None? then 0.0
                    else LineGauge(s, FirstOf(s.lines, sku).value, at, g))
  {
    var t := StepReceipt(s, PostReceipt(user, at)).value;
    assert ReceiptJobs(t.raised[|t.raised| - 1]) == JobsOf(s, s.lines, at);
    hide RunJobs, RowGauge, StepReceipt;
    LinesOnShelf(sys, strategy, s, s.lines, at, sku, g);
  }

  /** The first line of a receipt for a SKU that a branch has never held opens its stock, in the line's own unit. */
  lemma FirstReceipt(sys: System, strategy: Strategy, job: LineJob)
    requires job.ReceiptJob? && JobKey(job) !in sys.done && StockKey(job.line.sku, job.branch) !in sys.rows
    ensures var r, key := RunJob(sys, strategy, job), StockKey(job.line.sku, job.branch);
            && r.Ok? && key in r.value.rows
            && var s := r.value.rows[key];
               && s.skuId == job.line.sku && s.branchId == job.branch && s.baseUnit == job.line.quantity.unit
               && |s.batches| == 1 && Total(s) == job.line.quantity.amount && s.averageCost == job.line.unitCost
               && s.reorderLevel == Quantity(0.0, job.line.quantity.unit)
  {
    var d := ReceiptDetails(job.receiptId, job.supplierId, job.line, job.at);
    var s := Load(sys, JobStock(job), JobUnit(job));
    assert s.batches + [FreshBatch(sys.nextId, d)] == [FreshBatch(sys.nextId, d)];
    assert [FreshBatch(sys.nextId, d)][1..] == [];
  }

  // ---------------------------------------------------------------- adjustments and transfers

  /** An upward delta of an adjustment is put on the shelf at the stock's average cost, or for nothing if it is new. */
  lemma AdjustmentOnShelf(sys: System, strategy: Strategy, job: LineJob, g: Gauge)
    requires SystemOk(sys) && job.AdjustmentJob? && job.delta.delta.amount > 0.0
    requires RunJob(sys, strategy, job).Ok? && JobKey(job) !in sys.done
    ensures var delta, key := job.delta.delta, StockKey(job.delta.sku, job.branch);
            var cost := if key in sys.rows then sys.rows[key].averageCost else 0;
            && cost >= 0
            && RowGauge(RunJob(sys, strategy, job).value, key, g)
               == RowGauge(sys, key, g)
                  + delta.amount * g(Label(None, FromAdjustment, job.reason, Quantity(delta.amount, delta.unit), cost,
                                           None, job.at))
  {
    var key, delta := JobStock(job), job.delta.delta;
    var s := Load(sys, key, delta.unit);
    LoadOk(sys, key, delta.unit);
    LoadedGauge(sys, key, delta.unit, g);
    assert s.averageCost >= 0 && delta.unit == s.baseUnit;
    AdjustedGauge(s, sys.nextId, delta, job.reason, strategy, job.at, g);
    hide Adjusted, Gauged, SystemOk;
  }

  /** A moved line arrives in the target as its details say, at the instant of the transfer. */
  lemma TransferOnShelf(sys: System, strategy: Strategy, e: TransferPosted, line: TransferLine, g: Gauge)
    requires MoveLine(sys, strategy, e, line).error.None? && e.fromBranchId != e.toBranchId
    ensures var source := Load(sys, StockKey(line.sku, e.fromBranchId), line.quantity.unit);
            var target := Load(sys, StockKey(line.sku, e.toBranchId), line.quantity.unit);
            RowGauge(MoveLine(sys, strategy, e, line).sys, StockKey(line.sku, e.toBranchId), g)
              == RowGauge(sys, StockKey(line.sku, e.toBranchId), g)
                 + DetailGauge(target.baseUnit, Outgoing(source, line.quantity.amount, strategy, e.postedAt),
                               e.postedAt, g)
  {
    var source := Load(sys, StockKey(line.sku, e.fromBranchId), line.quantity.unit);
    var target := Load(sys, StockKey(line.sku, e.toBranchId), line.quantity.unit);
    MoveLineCases(sys, strategy, e, line, source, target);
    LoadedGauge(sys, StockKey(line.sku, e.toBranchId), line.quantity.unit, g);
    hide MoveLine, Withdrawn, Outgoing, TransferredIn, Gauged, DetailGauge, WithdrawError, AllInUnit;
    TransferredInGauge(target, sys.nextId, Outgoing(source, line.quantity.amount, strategy, e.postedAt), e.postedAt, g);
  }

  /**
   Which error refuses a line, and how many ids it draws: the source is asked first, for its unit and then for its
   total; a target in another unit draws one id and refuses; a line that moves draws one for each batch that arrives.
   */
  lemma WhyRefused(sys: System, strategy: Strategy, e: TransferPosted, line: TransferLine)
    requires SystemOk(sys)
    ensures var h := MoveLine(sys, strategy, e, line);
            var source := Load(sys, StockKey(line.sku, e.fromBranchId), line.quantity.unit);
            var target := Load(sys, StockKey(line.sku, e.toBranchId), line.quantity.unit);
            var asked, details := line.quantity, Outgoing(source, line.quantity.amount, strategy, e.postedAt);
            if asked.unit != source.baseUnit then
              h.error == Some(UnitMismatch(asked.unit, source.baseUnit)) && h.sys == sys
            else if asked.amount > Total(source) then
              h.error == Some(InsufficientStock(Total(source), asked.amount)) && h.sys == sys
            else if h.error.Some? then
              && h.error == Some(UnitMismatch(asked.unit, target.baseUnit)) && asked.unit != target.baseUnit
              && details != [] && h.sys == sys.(nextId := sys.nextId + 1)
            else h.sys.nextId == sys.nextId + |details| && h.sys.done == sys.done
  {
    var source := Load(sys, StockKey(line.sku, e.fromBranchId), line.quantity.unit);
    var target := Load(sys, StockKey(line.sku, e.toBranchId), line.quantity.unit);
    MoveLineCases(sys, strategy, e, line, source, target);
    LoadOk(sys, StockKey(line.sku, e.fromBranchId), line.quantity.unit);
    Sagas.OutgoingSound(source, line.quantity.amount, strategy, e.postedAt);
    hide MoveLine, Withdrawn, Outgoing, TransferredIn, Total;
  }
}
