/** The stocks of all branches together: stored rows, processed keys, and what handling one document line means. */
module Inventory {
  import opened Basics
  import opened StockTypes
  import opened BatchSelection
  import opened StockSpec
  import opened Documents
  import StockLaws

  datatype StockKey = StockKey(sku: string, branch: string)

  /** The idempotency keys: the prefixes and ids of the source's key strings. */
  datatype DocKey =
    | ReceiptLineKey(receiptId: string, sku: string)
    | AdjustmentLineKey(adjustmentId: string, sku: string)
    | TransferKey(transferId: string)
    | StockTakingKey(stockTakingId: string)
    | ReceiptCancelKey(receiptId: string)

  /** Everything the sagas read and write: stored stocks, processed keys, and the next free batch id. */
  datatype System = System(rows: map<StockKey, StockState>, done: set<DocKey>, nextId: nat)

  /** `findOrCreate`: the stored stock, or an empty one that is not stored yet. */
  function Load(sys: System, key: StockKey, unit: Unit): StockState {
    if key in sys.rows then sys.rows[key] else EmptyStock(key.sku, key.branch, unit, Quantity(0.0, unit))
  }

  predicate RowOk(s: StockState, key: StockKey, nextId: nat) {
    StateOk(s) && IdsBelow(s.batches, nextId) && s.skuId == key.sku && s.branchId == key.branch
  }

  predicate SystemOk(sys: System) {
    forall key :: key in sys.rows ==> RowOk(sys.rows[key], key, sys.nextId)
  }

  lemma LoadOk(sys: System, key: StockKey, unit: Unit)
    requires SystemOk(sys)
    ensures RowOk(Load(sys, key, unit), key, sys.nextId)
  {
  }

  // ---------------------------------------------------------------- receipt and adjustment lines

  /** One line of a posted receipt or of an approved adjustment, with all that handling it needs. */
  datatype LineJob =
    | ReceiptJob(receiptId: string, supplierId: string, branch: string, line: ReceiptPostedLine, at: int)
    | AdjustmentJob(adjustmentId: string, branch: string, reason: string, delta: DeltaLine, at: int)

  function JobKey(job: LineJob): DocKey {
    match job
    case ReceiptJob(id, _, _, line, _) => ReceiptLineKey(id, line.sku)
    case AdjustmentJob(id, _, _, delta, _) => AdjustmentLineKey(id, delta.sku)
  }

  function JobStock(job: LineJob): StockKey {
    match job
    case ReceiptJob(_, _, branch, line, _) => StockKey(line.sku, branch)
    case AdjustmentJob(_, branch, _, delta, _) => StockKey(delta.sku, branch)
  }

  function JobUnit(job: LineJob): Unit {
    match job
    case ReceiptJob(_, _, _, line, _) => line.quantity.unit
    case AdjustmentJob(_, _, _, delta, _) => delta.delta.unit
  }

  function ReceiptDetails(receiptId: string, supplierId: string, line: ReceiptPostedLine, at: int): ReceiveDetails {
    ReceiveDetails.ReceiveDetails(Some(supplierId), FromReceipt, receiptId, line.quantity, line.unitCost,
                                  line.expiresAt, at)
  }

  /** The stock after the line, or the error its aggregate throws. */
  function JobResult(sys: System, strategy: Strategy, job: LineJob): Result<StockState, StockError> {
    var s := Load(sys, JobStock(job), JobUnit(job));
    match job
    case ReceiptJob(id, supplierId, _, line, at) => Received(s, sys.nextId, ReceiptDetails(id, supplierId, line, at))
    case AdjustmentJob(_, _, reason, delta, at) => Adjusted(s, sys.nextId, delta.delta, reason, strategy, at)
  }

  function IdsUsed(job: LineJob): nat {
    match job
    case ReceiptJob(_, _, _, _, _) => 1
    case AdjustmentJob(_, _, _, delta, _) => if delta.delta.amount > 0.0 then 1 else 0
  }

  /** One turn of the loop: skip a processed line, else apply, save and mark it. */
  function RunJob(sys: System, strategy: Strategy, job: LineJob): Result<System, StockError> {
    if JobKey(job) in sys.done then Ok(sys)
    else
      match JobResult(sys, strategy, job)
      case Err(e) => Err(e)
      case Ok(s) =>
        Ok(System(sys.rows[JobStock(job) := s], sys.done + {JobKey(job)}, sys.nextId + IdsUsed(job)))
  }

  datatype Handled = Handled(sys: System, error: Option<StockError>)

  /** The loop over lines; a throw ends it and keeps what was saved. */
  function RunJobs(sys: System, strategy: Strategy, jobs: seq<LineJob>): Handled
    decreases |jobs|
  {
    if jobs == [] then Handled(sys, None)
    else
      match RunJob(sys, strategy, jobs[0])
      case Err(e) => Handled(sys, Some(e))
      case Ok(sys') => RunJobs(sys', strategy, jobs[1..])
  }

  function ReceiptJobs(e: ReceiptPosted): seq<LineJob> {
    seq(|e.lines|, i requires 0 <= i < |e.lines| =>
      ReceiptJob(e.receiptId, e.supplierId, e.branchId, e.lines[i], e.postedAt))
  }

  function AdjustmentJobs(e: AdjustmentApproved): seq<LineJob> {
    seq(|e.lines|, i requires 0 <= i < |e.lines| =>
      AdjustmentJob(e.adjustmentId, e.branchId, e.reason, e.lines[i], e.approvedAt))
  }

  /** Quantities of receipt lines are never negative: `Quantity.of` refuses to build one. */
  predicate ProperJob(job: LineJob) {
    job.ReceiptJob? ==> job.line.quantity.amount >= 0.0
  }

  predicate ProperJobs(jobs: seq<LineJob>) {
    forall job :: job in jobs ==> ProperJob(job)
  }

  /** The result of a line is sound and keeps the identity of its stock. */
  lemma JobResultOk(sys: System, strategy: Strategy, job: LineJob)
    requires SystemOk(sys) && ProperJob(job)
    ensures var r := JobResult(sys, strategy, job);
            r.Ok? ==> RowOk(r.value, JobStock(job), sys.nextId + IdsUsed(job))
  {
    var s := Load(sys, JobStock(job), JobUnit(job));
    LoadOk(sys, JobStock(job), JobUnit(job));
    match job
    case ReceiptJob(id, supplierId, _, line, at) =>
      StockLaws.ReceivedOk(s, sys.nextId, ReceiptDetails(id, supplierId, line, at));
    case AdjustmentJob(_, _, reason, delta, at) =>
      StockLaws.AdjustedKeeps(s, sys.nextId, delta.delta, reason, strategy, at);
  }

  lemma RowsStayOk(sys: System, key: StockKey, s: StockState, next: nat, done: set<DocKey>)
    requires SystemOk(sys) && next >= sys.nextId && RowOk(s, key, next)
    ensures SystemOk(System(sys.rows[key := s], done, next))
  {
    hide StateOk;
  }

  lemma RunJobOk(sys: System, strategy: Strategy, job: LineJob)
    requires SystemOk(sys) && ProperJob(job)
    ensures RunJob(sys, strategy, job).Ok? ==> SystemOk(RunJob(sys, strategy, job).value)
  {
    hide RowOk, JobResult, SystemOk;
    JobResultOk(sys, strategy, job);
    if JobKey(job) !in sys.done && JobResult(sys, strategy, job).Ok? {
      RowsStayOk(sys, JobStock(job), JobResult(sys, strategy, job).value, sys.nextId + IdsUsed(job),
                 sys.done + {JobKey(job)});
    }
  }

  lemma {:induction false} RunJobsOk(sys: System, strategy: Strategy, jobs: seq<LineJob>)
    requires SystemOk(sys) && ProperJobs(jobs)
    ensures SystemOk(RunJobs(sys, strategy, jobs).sys)
    decreases |jobs|
  {
    hide RunJob, SystemOk, ProperJob;
    if jobs != [] {
      assert jobs[0] in jobs && forall job :: job in jobs[1..] ==> job in jobs;
      RunJobOk(sys, strategy, jobs[0]);
      if RunJob(sys, strategy, jobs[0]).Ok? {
        RunJobsOk(RunJob(sys, strategy, jobs[0]).value, strategy, jobs[1..]);
      }
    }
  }

  // ---------------------------------------------------------------- transfer lines

  /** Two stocks saved one after the other, and the ids that were used. */
  function Stored(sys: System, from: StockKey, source: StockState, to: StockKey, target: StockState,
                  used: nat): System {
    System(sys.rows[from := source][to := target], sys.done, sys.nextId + used)
  }

  /**
   One line of a transfer: out of one stock and into another, then both saved, the target last.
   The target is loaded before the source is saved.
   */
  function MoveLine(sys: System, strategy: Strategy, e: TransferPosted, line: TransferLine): Handled {
    var from, to := StockKey(line.sku, e.fromBranchId), StockKey(line.sku, e.toBranchId);
    var source := Load(sys, from, line.quantity.unit);
    match WithdrawError(source, line.quantity)
    case Some(err) => Handled(sys, Some(err))
    case None =>
      var details := Outgoing(source, line.quantity.amount, strategy, e.postedAt);
      var target := Load(sys, to, line.quantity.unit);
      if !AllInUnit(details, target.baseUnit) then
        Handled(sys.(nextId := sys.nextId + 1), Some(UnitMismatch(line.quantity.unit, target.baseUnit)))
      else
        var source' := Withdrawn(source, line.quantity.amount, strategy, e.postedAt);
        var target' := TransferredIn(target, sys.nextId, details, e.postedAt);
        Handled(Stored(sys, from, source', to, target', |details|), None)
  }

  /** The three ways a line can go, for a caller that holds the two loaded stocks. */
  lemma MoveLineCases(sys: System, strategy: Strategy, e: TransferPosted, line: TransferLine, source: StockState,
                      target: StockState)
    requires source == Load(sys, StockKey(line.sku, e.fromBranchId), line.quantity.unit)
    requires target == Load(sys, StockKey(line.sku, e.toBranchId), line.quantity.unit)
    ensures var refused := WithdrawError(source, line.quantity);
            var details := Outgoing(source, line.quantity.amount, strategy, e.postedAt);
            && (refused.Some? ==> MoveLine(sys, strategy, e, line) == Handled(sys, refused))
            && (refused.None? && !AllInUnit(details, target.baseUnit) ==>
                  MoveLine(sys, strategy, e, line)
                    == Handled(sys.(nextId := sys.nextId + 1), Some(UnitMismatch(line.quantity.unit, target.baseUnit))))
            && (refused.None? && AllInUnit(details, target.baseUnit) ==>
                  MoveLine(sys, strategy, e, line)
                    == Handled(Stored(sys, StockKey(line.sku, e.fromBranchId),
                                      Withdrawn(source, line.quantity.amount, strategy, e.postedAt),
                                      StockKey(line.sku, e.toBranchId),
                                      TransferredIn(target, sys.nextId, details, e.postedAt), |details|), None))
  {
    hide Withdrawn, Outgoing, TransferredIn, Load, WithdrawError, AllInUnit, Stored;
  }

  /** The lines handled before the run stops, in order. */
  function MoveLines(sys: System, strategy: Strategy, e: TransferPosted, lines: seq<TransferLine>): Handled
    decreases |lines|
  {
    if lines == [] then Handled(sys, None)
    else
      var h := MoveLine(sys, strategy, e, lines[0]);
      if h.error.Some? then h else MoveLines(h.sys, strategy, e, lines[1..])
  }

  /**
   Handling a transfer, stopped after some number of lines; when that is all of them, after the last save
   and before the mark. Only a run with a larger `stop` marks the key.
   */
  function HandleTransfer(sys: System, strategy: Strategy, e: TransferPosted, stop: nat): Handled {
    if TransferKey(e.transferId) in sys.done then Handled(sys, None)
    else if stop <= |e.lines| then MoveLines(sys, strategy, e, e.lines[..stop])
    else
      var h := MoveLines(sys, strategy, e, e.lines);
      if h.error.Some? then h else Handled(h.sys.(done := h.sys.done + {TransferKey(e.transferId)}), None)
  }

  // ---------------------------------------------------------------- receipt cancellations

  function RemoveReceipt(rows: map<StockKey, StockState>, receiptId: string, branch: string, skus: seq<string>)
    : map<StockKey, StockState>
  {
    if skus == [] then rows
    else
      var key := StockKey(skus[0], branch);
      var rows' := if key in rows then rows[key := WithoutDocument(rows[key], receiptId)] else rows;
      RemoveReceipt(rows', receiptId, branch, skus[1..])
  }

  /**
   Handling a cancellation of a receipt that is found, with the SKUs of its lines, stopped after some number of
   them; as with a transfer, only a run with a larger `stop` marks the key.
   */
  function HandleCancellation(sys: System, receiptId: string, branch: string, skus: seq<string>, stop: nat): System {
    if ReceiptCancelKey(receiptId) in sys.done then sys
    else if stop <= |skus| then sys.(rows := RemoveReceipt(sys.rows, receiptId, branch, skus[..stop]))
    else System(RemoveReceipt(sys.rows, receiptId, branch, skus), sys.done + {ReceiptCancelKey(receiptId)}, sys.nextId)
  }

  /** A cancellation handled to its end. */
  function CancelWholly(sys: System, receiptId: string, branch: string, skus: seq<string>): System {
    HandleCancellation(sys, receiptId, branch, skus, |skus| + 1)
  }
}
