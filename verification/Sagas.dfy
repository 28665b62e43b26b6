/** The event handlers that apply posted documents to the stored stocks. */
module Sagas {
  import opened Basics
  import opened StockTypes
  import opened BatchSelection
  import opened StockSpec
  import opened Stock
  import opened Documents
  import opened Inventory
  import StockLaws

  /** `IStockRepository`: stored states by SKU and branch; every load builds a new aggregate. */
  class StockRepository {
    var rows: map<StockKey, StockState>

    method FindByCompositeId(key: StockKey) returns (found: Option<Stock>)
      ensures found.Some? <==> key in rows
      ensures found.Some? ==> fresh(found.value) && fresh(found.value.batches) && found.value.State() == rows[key]
    {
      if key !in rows {
        return None;
      }
      var s := new Stock(rows[key]);
      found := Some(s);
    }

    method FindOrCreate(key: StockKey, baseUnit: Unit, reorderLevel: Quantity) returns (s: Stock)
      ensures fresh(s) && fresh(s.batches)
      ensures s.State() == if key in rows then rows[key] else EmptyStock(key.sku, key.branch, baseUnit, reorderLevel)
    {
      var found := FindByCompositeId(key);
      if found.Some? {
        return found.value;
      }
      s := new Stock(EmptyStock(key.sku, key.branch, baseUnit, reorderLevel));
    }

    method Save(s: Stock)
      modifies this
      ensures rows == old(rows)[StockKey(s.skuId, s.branchId) := s.State()]
    {
      rows := rows[StockKey(s.skuId, s.branchId) := s.State()];
    }
  }

  /** `IIdempotencyPort`: the keys processed so far. */
  class IdempotencyPort {
    var done: set<DocKey>

    method HasProcessed(key: DocKey) returns (yes: bool)
      ensures yes <==> key in done
    {
      yes := key in done;
    }

    method MarkProcessed(key: DocKey)
      modifies this
      ensures done == old(done) + {key}
    {
      done := done + {key};
    }
  }

  /** What every saga is built from. */
  class Ports {
    const stockRepo: StockRepository
    const idempotency: IdempotencyPort
    const idGen: IdGenerator
    const batchSelector: BatchSelectionService

    constructor (stockRepo: StockRepository, idempotency: IdempotencyPort, idGen: IdGenerator,
                 batchSelector: BatchSelectionService)
      ensures this.stockRepo == stockRepo && this.idempotency == idempotency
      ensures this.idGen == idGen && this.batchSelector == batchSelector
    {
      this.stockRepo, this.idempotency, this.idGen, this.batchSelector := stockRepo, idempotency, idGen, batchSelector;
    }

    function System(): System
      reads stockRepo, idempotency, idGen
    {
      Inventory.System(stockRepo.rows, idempotency.done, idGen.next)
    }

    /** `findOrCreate` with a reorder level of zero. */
    method LoadStock(key: StockKey, unit: Unit) returns (s: Stock)
      requires SystemOk(System())
      ensures fresh(s) && fresh(s.batches) && s.Valid() && IdsBelow(s.Views(), idGen.next)
      ensures s.State() == Load(System(), key, unit) && s.skuId == key.sku && s.branchId == key.branch
      ensures s.baseUnit == Load(System(), key, unit).baseUnit
    {
      LoadOk(System(), key, unit);
      s := stockRepo.FindOrCreate(key, unit, Quantity(0.0, unit));
      s.ValidAs(Load(System(), key, unit));
    }

    /** What a handler leaves behind when one line is, or is not, applied. */
    predicate Left(r: Result<(), StockError>, before: System, expected: Result<System, StockError>)
      reads stockRepo, idempotency, idGen
    {
      match expected
      case Ok(sys) => r == Ok(()) && System() == sys
      case Err(e) => r == Err(e) && System() == before
    }
  }

  lemma {:induction false} RunJobsSnoc(sys: System, strategy: Strategy, jobs: seq<LineJob>, job: LineJob)
    requires RunJobs(sys, strategy, jobs).error.None?
    ensures var mid := RunJobs(sys, strategy, jobs).sys;
            RunJobs(sys, strategy, jobs + [job])
              == match RunJob(mid, strategy, job)
                 case Err(e) => Handled(mid, Some(e))
                 case Ok(sys') => Handled(sys', None)
    decreases |jobs|
  {
    hide RunJob;
    if jobs == [] {
      assert jobs + [job] == [job] && [job][1..] == [];
    } else {
      assert (jobs + [job])[1..] == jobs[1..] + [job];
      RunJobsSnoc(RunJob(sys, strategy, jobs[0]).value, strategy, jobs[1..], job);
    }
  }

  /** Once the loop has thrown, later lines change nothing. */
  lemma {:induction false} RunJobsStopped(sys: System, strategy: Strategy, jobs: seq<LineJob>, more: seq<LineJob>)
    requires RunJobs(sys, strategy, jobs).error.Some?
    ensures RunJobs(sys, strategy, jobs + more) == RunJobs(sys, strategy, jobs)
    decreases |jobs|
  {
    hide RunJob;
    assert (jobs + more)[1..] == jobs[1..] + more;
    if RunJob(sys, strategy, jobs[0]).Ok? {
      RunJobsStopped(RunJob(sys, strategy, jobs[0]).value, strategy, jobs[1..], more);
    }
  }

  class ApplyReceiptSaga {
    const ports: Ports

    constructor (ports: Ports)
      ensures this.ports == ports
    {
      this.ports := ports;
    }

    /** One turn of the loop; saving and marking count as one step. */
    method HandleLine(event: ReceiptPosted, line: ReceiptPostedLine) returns (r: Result<(), StockError>)
      requires SystemOk(ports.System()) && line.quantity.amount >= 0.0
      modifies ports.stockRepo, ports.idempotency, ports.idGen
      ensures var job := ReceiptJob(event.receiptId, event.supplierId, event.branchId, line, event.postedAt);
              ports.Left(r, old(ports.System()), RunJob(old(ports.System()), ports.batchSelector.strategy, job))
    {
      var key := ReceiptLineKey(event.receiptId, line.sku);
      var processed := ports.idempotency.HasProcessed(key);
      if processed {
        return Ok(());
      }
      var stockKey := StockKey(line.sku, event.branchId);
      hide StateOk, Received, IdsBelow, Load;
      var stock := ports.LoadStock(stockKey, line.quantity.unit);
      r := stock.Receive(ReceiptDetails(event.receiptId, event.supplierId, line, event.postedAt), ports.idGen);
      if r.Err? {
        return;
      }
      ports.stockRepo.Save(stock);
      ports.idempotency.MarkProcessed(key);
    }

    /** Handles the first lines of the event, up to where the process stops. */
    method Handle(event: ReceiptPosted, stop: nat) returns (error: Option<StockError>)
      requires SystemOk(ports.System()) && ProperJobs(ReceiptJobs(event)) && stop <= |event.lines|
      modifies ports.stockRepo, ports.idempotency, ports.idGen
      ensures Handled(ports.System(), error)
           == RunJobs(old(ports.System()), ports.batchSelector.strategy, ReceiptJobs(event)[..stop])
    {
      ghost var start, jobs, strategy := ports.System(), ReceiptJobs(event), ports.batchSelector.strategy;
      hide RunJob, SystemOk;
      var i := 0;
      while i < stop
        invariant i <= stop
        invariant Handled(ports.System(), None) == RunJobs(start, strategy, jobs[..i])
      {
        assert jobs[..i + 1] == jobs[..i] + [jobs[i]] && jobs[..stop] == jobs[..i + 1] + jobs[i + 1..stop];
        assert jobs[i] in jobs && forall job :: job in jobs[..i] ==> job in jobs;
        RunJobsOk(start, strategy, jobs[..i]);
        RunJobsSnoc(start, strategy, jobs[..i], jobs[i]);
        var r := HandleLine(event, event.lines[i]);
        if r.Err? {
          RunJobsStopped(start, strategy, jobs[..i + 1], jobs[i + 1..stop]);
          return Some(r.error);
        }
        i := i + 1;
      }
      error := None;
    }
  }

  class ApplyAdjustmentSaga {
    const ports: Ports

    constructor (ports: Ports)
      ensures this.ports == ports
    {
      this.ports := ports;
    }

    /** One turn of the loop; saving and marking count as one step. */
    method HandleLine(event: AdjustmentApproved, line: DeltaLine) returns (r: Result<(), StockError>)
      requires SystemOk(ports.System())
      modifies ports.stockRepo, ports.idempotency, ports.idGen
      ensures var job := AdjustmentJob(event.adjustmentId, event.branchId, event.reason, line, event.approvedAt);
              ports.Left(r, old(ports.System()), RunJob(old(ports.System()), ports.batchSelector.strategy, job))
    {
      var key := AdjustmentLineKey(event.adjustmentId, line.sku);
      var processed := ports.idempotency.HasProcessed(key);
      if processed {
        return Ok(());
      }
      var stockKey := StockKey(line.sku, event.branchId);
      var stock := ports.LoadStock(stockKey, line.delta.unit);
      AdjustedUnit(stock.State(), ports.idGen.next, line.delta, event.reason, ports.batchSelector.strategy,
                   event.approvedAt);
      hide StateOk, Adjusted, IdsBelow;
      r := stock.Adjust(line.delta, event.reason, ports.batchSelector, event.approvedAt, ports.idGen);
      if r.Err? {
        return;
      }
      ports.stockRepo.Save(stock);
      ports.idempotency.MarkProcessed(key);
    }

    /** Handles the first lines of the event, up to where the process stops. */
    method Handle(event: AdjustmentApproved, stop: nat) returns (error: Option<StockError>)
      requires SystemOk(ports.System()) && stop <= |event.lines|
      modifies ports.stockRepo, ports.idempotency, ports.idGen
      ensures Handled(ports.System(), error)
           == RunJobs(old(ports.System()), ports.batchSelector.strategy, AdjustmentJobs(event)[..stop])
    {
      ghost var start, jobs, strategy := ports.System(), AdjustmentJobs(event), ports.batchSelector.strategy;
      assert ProperJobs(jobs);
      hide RunJob, SystemOk;
      var i := 0;
      while i < stop
        invariant i <= stop
        invariant Handled(ports.System(), None) == RunJobs(start, strategy, jobs[..i])
      {
        assert jobs[..i + 1] == jobs[..i] + [jobs[i]] && jobs[..stop] == jobs[..i + 1] + jobs[i + 1..stop];
        assert forall job :: job in jobs[..i] ==> job in jobs;
        RunJobsOk(start, strategy, jobs[..i]);
        RunJobsSnoc(start, strategy, jobs[..i], jobs[i]);
        var r := HandleLine(event, event.lines[i]);
        if r.Err? {
          RunJobsStopped(start, strategy, jobs[..i + 1], jobs[i + 1..stop]);
          return Some(r.error);
        }
        i := i + 1;
      }
      error := None;
    }
  }

  lemma AdjustedUnit(s: StockState, id: nat, delta: SignedQuantity, reason: string, strategy: Strategy, at: int)
    ensures Adjusted(s, id, delta, reason, strategy, at).Ok? ==> delta.unit == s.baseUnit
  {
  }

  lemma {:induction false} MoveLinesSnoc(sys: System, strategy: Strategy, e: TransferPosted, lines: seq<TransferLine>,
                                         line: TransferLine)
    requires MoveLines(sys, strategy, e, lines).error.None?
    ensures MoveLines(sys, strategy, e, lines + [line])
         == MoveLine(MoveLines(sys, strategy, e, lines).sys, strategy, e, line)
    decreases |lines|
  {
    hide MoveLine;
    if lines == [] {
      assert lines + [line] == [line] && [line][1..] == [];
      var h := MoveLine(sys, strategy, e, line);
      assert MoveLines(h.sys, strategy, e, []) == Handled(h.sys, None);
    } else {
      assert (lines + [line])[1..] == lines[1..] + [line];
      MoveLinesSnoc(MoveLine(sys, strategy, e, lines[0]).sys, strategy, e, lines[1..], line);
    }
  }

  lemma {:induction false} MoveLinesStopped(sys: System, strategy: Strategy, e: TransferPosted,
                                           lines: seq<TransferLine>, more: seq<TransferLine>)
    requires MoveLines(sys, strategy, e, lines).error.Some?
    ensures MoveLines(sys, strategy, e, lines + more) == MoveLines(sys, strategy, e, lines)
    decreases |lines|
  {
    hide MoveLine;
    assert (lines + more)[1..] == lines[1..] + more;
    var h := MoveLine(sys, strategy, e, lines[0]);
    if h.error.None? {
      MoveLinesStopped(h.sys, strategy, e, lines[1..], more);
    }
  }

  lemma MoveLinesNone(sys: System, strategy: Strategy, e: TransferPosted)
    ensures MoveLines(sys, strategy, e, []) == Handled(sys, None)
  {
  }

  /** Moving a line keeps every stored stock sound. */
  lemma MoveLineOk(sys: System, strategy: Strategy, e: TransferPosted, line: TransferLine)
    requires SystemOk(sys)
    ensures SystemOk(MoveLine(sys, strategy, e, line).sys)
    ensures MoveLine(sys, strategy, e, line).sys.done == sys.done
  {
    var from, to := StockKey(line.sku, e.fromBranchId), StockKey(line.sku, e.toBranchId);
    var source, target := Load(sys, from, line.quantity.unit), Load(sys, to, line.quantity.unit);
    LoadOk(sys, from, line.quantity.unit);
    LoadOk(sys, to, line.quantity.unit);
    hide Withdrawn, Outgoing, StateOk, IdsBelow, WithdrawError;
    if WithdrawError(source, line.quantity).None? {
      var details := Outgoing(source, line.quantity.amount, strategy, e.postedAt);
      var source' := Withdrawn(source, line.quantity.amount, strategy, e.postedAt);
      OutgoingSound(source, line.quantity.amount, strategy, e.postedAt);
      StockLaws.WithdrawnOk(source, line.quantity.amount, strategy, e.postedAt);
      StockLaws.TransferredInOk(target, sys.nextId, details, e.postedAt);
      WithdrawnIdentity(source, line.quantity.amount, strategy, e.postedAt);
      RowGrows(sys, sys.nextId + 1);
      if AllInUnit(details, target.baseUnit) {
        RowsStayOk(sys, from, source', sys.nextId, sys.done);
        RowsStayOk(System(sys.rows[from := source'], sys.done, sys.nextId), to,
                   TransferredIn(target, sys.nextId, details, e.postedAt), sys.nextId + |details|, sys.done);
      }
    }
  }

  lemma RowGrows(sys: System, next: nat)
    requires SystemOk(sys) && next >= sys.nextId
    ensures SystemOk(sys.(nextId := next))
  {
    hide StateOk;
  }

  lemma WithdrawnIdentity(s: StockState, amount: real, strategy: Strategy, at: int)
    ensures var s' := Withdrawn(s, amount, strategy, at);
            s'.skuId == s.skuId && s'.branchId == s.branchId && s'.baseUnit == s.baseUnit
  {
  }

  lemma OutgoingSound(s: StockState, amount: real, strategy: Strategy, at: int)
    requires StateOk(s)
    ensures AllInUnit(Outgoing(s, amount, strategy, at), s.baseUnit)
    ensures forall d :: d in Outgoing(s, amount, strategy, at) ==> d.quantity.amount >= 0.0
  {
    StockLaws.ChosenSound(s, amount, strategy, at);
    StockLaws.DetailsSound(s.batches, Chosen(s, amount, strategy, at), s.baseUnit);
  }

  lemma {:induction false} MoveLinesOk(sys: System, strategy: Strategy, e: TransferPosted, lines: seq<TransferLine>)
    requires SystemOk(sys)
    ensures SystemOk(MoveLines(sys, strategy, e, lines).sys)
    ensures MoveLines(sys, strategy, e, lines).sys.done == sys.done
    decreases |lines|
  {
    hide MoveLine, SystemOk;
    if lines != [] {
      MoveLineOk(sys, strategy, e, lines[0]);
      var h := MoveLine(sys, strategy, e, lines[0]);
      if h.error.None? {
        MoveLinesOk(h.sys, strategy, e, lines[1..]);
      }
    }
  }

  class ApplyTransferSaga {
    const ports: Ports

    constructor (ports: Ports)
      ensures this.ports == ports
    {
      this.ports := ports;
    }

    /** The second half of a turn: load the target and move the details in. */
    method Deliver(transfer: StockSpec.Transfer, to: StockKey, unit: Unit, at: int)
      returns (r: Result<Stock, StockError>)
      requires SystemOk(ports.System()) && AllInUnit(transfer.details, unit)
      requires forall d :: d in transfer.details ==> d.quantity.amount >= 0.0
      modifies ports.idGen
      ensures var target := Load(old(ports.System()), to, unit);
              if AllInUnit(transfer.details, target.baseUnit) then
                && r.Ok? && fresh(r.value) && r.value.skuId == to.sku && r.value.branchId == to.branch
                && r.value.State() == TransferredIn(target, old(ports.idGen.next), transfer.details, at)
                && ports.idGen.next == old(ports.idGen.next) + |transfer.details|
              else
                r == Err(UnitMismatch(unit, target.baseUnit)) && ports.idGen.next == old(ports.idGen.next) + 1
    {
      ghost var target := Load(ports.System(), to, unit);
      if !AllInUnit(transfer.details, target.baseUnit) {
        NothingArrives(target.baseUnit, ports.idGen.next, transfer.details, unit, at);
      }
      hide StateOk, IdsBelow, Load, AllInUnit, Stock.Views;
      var toStock := ports.LoadStock(to, unit);
      var arrived := toStock.TransferIn(transfer, at, ports.idGen);
      r := if arrived.Ok? then Ok(toStock) else Err(arrived.error);
    }

    /** The first half of a turn: load the source and move the quantity out. */
    method Dispatch(event: TransferPosted, line: TransferLine)
      returns (r: Result<(Stock, StockSpec.Transfer), StockError>)
      requires SystemOk(ports.System())
      ensures var source := Load(ports.System(), StockKey(line.sku, event.fromBranchId), line.quantity.unit);
              var strategy := ports.batchSelector.strategy;
              match WithdrawError(source, line.quantity)
              case Some(e) => r == Err(e)
              case None =>
                && r.Ok? && fresh(r.value.0)
                && r.value.0.skuId == line.sku && r.value.0.branchId == event.fromBranchId
                && r.value.0.State() == Withdrawn(source, line.quantity.amount, strategy, event.postedAt)
                && r.value.1.details == Outgoing(source, line.quantity.amount, strategy, event.postedAt)
                && AllInUnit(r.value.1.details, line.quantity.unit)
                && forall d :: d in r.value.1.details ==> d.quantity.amount >= 0.0
    {
      var from := StockKey(line.sku, event.fromBranchId);
      SentUnit(Load(ports.System(), from, line.quantity.unit), line.quantity);
      hide StateOk, Withdrawn, Outgoing, WithdrawError, Load, AllInUnit, Stock.Views;
      var fromStock := ports.LoadStock(from, line.quantity.unit);
      var out := fromStock.TransferOut(line.quantity, event.toBranchId, ports.batchSelector, event.postedAt);
      r := if out.Ok? then Ok((fromStock, out.value)) else Err(out.error);
    }

    /** The rest of a turn once the source has given: deliver to the target, then save both. */
    method Settle(fromStock: Stock, transfer: StockSpec.Transfer, to: StockKey, unit: Unit, at: int)
      returns (error: Option<StockError>)
      requires SystemOk(ports.System()) && AllInUnit(transfer.details, unit)
      requires forall d :: d in transfer.details ==> d.quantity.amount >= 0.0
      modifies ports.stockRepo, ports.idGen
      ensures var sys := old(ports.System());
              var target := Load(sys, to, unit);
              Handled(ports.System(), error) ==
                if AllInUnit(transfer.details, target.baseUnit) then
                  Handled(Stored(sys, StockKey(fromStock.skuId, fromStock.branchId), old(fromStock.State()), to,
                                 TransferredIn(target, sys.nextId, transfer.details, at), |transfer.details|), None)
                else Handled(sys.(nextId := sys.nextId + 1), Some(UnitMismatch(unit, target.baseUnit)))
    {
      hide StateOk, Load, AllInUnit, TransferredIn, SystemOk, Stored, Stock.Views, Stock.State;
      ghost var sys := ports.System();
      var toStock := Deliver(transfer, to, unit, at);
      if toStock.Err? {
        return Some(toStock.error);
      }
      SaveBoth(fromStock, toStock.value, |transfer.details|, sys);
      error := None;
    }

    /** One turn of the loop: both stocks loaded, moved and saved. */
    method HandleLine(event: TransferPosted, line: TransferLine) returns (error: Option<StockError>)
      requires SystemOk(ports.System())
      modifies ports.stockRepo, ports.idGen
      ensures Handled(ports.System(), error)
           == MoveLine(old(ports.System()), ports.batchSelector.strategy, event, line)
    {
      var from, to := StockKey(line.sku, event.fromBranchId), StockKey(line.sku, event.toBranchId);
      ghost var sys, unit := ports.System(), line.quantity.unit;
      MoveLineCases(sys, ports.batchSelector.strategy, event, line, Load(sys, from, unit), Load(sys, to, unit));
      hide StateOk, Withdrawn, Outgoing, WithdrawError, Load, AllInUnit, MoveLine, TransferredIn, SystemOk, Stored;
      hide Stock.Views, Stock.State;
      var out := Dispatch(event, line);
      if out.Ok? {
        error := Settle(out.value.0, out.value.1, to, line.quantity.unit, event.postedAt);
      } else {
        error := Some(out.error);
      }
    }

    method SaveBoth(fromStock: Stock, toStock: Stock, ghost used: nat, ghost sys: System)
      requires ports.System() == sys.(nextId := sys.nextId + used)
      modifies ports.stockRepo
      ensures ports.System() == Stored(sys, StockKey(fromStock.skuId, fromStock.branchId), fromStock.State(),
                                       StockKey(toStock.skuId, toStock.branchId), toStock.State(), used)
    {
      ports.stockRepo.Save(fromStock);
      ports.stockRepo.Save(toStock);
    }

    /** The loop over the lines; the first error leaves it. */
    method HandleLines(event: TransferPosted, lines: seq<TransferLine>) returns (error: Option<StockError>)
      requires SystemOk(ports.System())
      modifies ports.stockRepo, ports.idGen
      ensures Handled(ports.System(), error)
           == MoveLines(old(ports.System()), ports.batchSelector.strategy, event, lines)
    {
      ghost var start, strategy := ports.System(), ports.batchSelector.strategy;
      hide MoveLine, MoveLines, SystemOk;
      MoveLinesNone(start, strategy, event);
      var i := 0;
      while i < |lines|
        invariant i <= |lines| && SystemOk(ports.System())
        invariant Handled(ports.System(), None) == MoveLines(start, strategy, event, lines[..i])
      {
        assert lines[..i + 1] == lines[..i] + [lines[i]] && lines == lines[..i + 1] + lines[i + 1..];
        MoveLinesSnoc(start, strategy, event, lines[..i], lines[i]);
        MoveLineOk(ports.System(), strategy, event, lines[i]);
        error := HandleLine(event, lines[i]);
        if error.Some? {
          MoveLinesStopped(start, strategy, event, lines[..i + 1], lines[i + 1..]);
          return;
        }
        i := i + 1;
      }
      assert lines[..i] == lines;
      error := None;
    }

    /**
     Handles the event, stopping after `stop` lines; only a run that is not stopped by the last line marks the key.
     */
    method Handle(event: TransferPosted, stop: nat) returns (error: Option<StockError>)
      requires SystemOk(ports.System())
      modifies ports.stockRepo, ports.idempotency, ports.idGen
      ensures Handled(ports.System(), error)
           == HandleTransfer(old(ports.System()), ports.batchSelector.strategy, event, stop)
    {
      var key := TransferKey(event.transferId);
      var processed := ports.idempotency.HasProcessed(key);
      if processed {
        return None;
      }
      hide MoveLine, MoveLines, SystemOk;
      var lines := event.lines[..if stop < |event.lines| then stop else |event.lines|];
      assert stop > |event.lines| ==> lines == event.lines;
      error := HandleLines(event, lines);
      if error.None? && stop > |event.lines| {
        ports.idempotency.MarkProcessed(key);
      }
    }
  }

  lemma SentUnit(s: StockState, quantity: Quantity)
    ensures WithdrawError(s, quantity).None? ==> quantity.unit == s.baseUnit
  {
  }

  /** When every detail is in one unit and the target's is another, the first detail is refused. */
  lemma NothingArrives(unit: Unit, id: nat, details: seq<TransferDetail>, sent: Unit, at: int)
    requires AllInUnit(details, sent) && !AllInUnit(details, unit)
    ensures Incoming(unit, id, details, at) == [] && details != [] && details[0].quantity.unit == sent
  {
  }

  class ApplyReceiptCancellationSaga {
    const ports: Ports

    constructor (ports: Ports)
      ensures this.ports == ports
    {
      this.ports := ports;
    }

    /**
     `receipt` is what the receipt repository finds for the event, if anything. The run stops after `stop` lines;
     only one that is not stopped by the last line marks the key.
     */
    method Handle(receiptId: string, receipt: Option<Receipt>, stop: nat)
      requires SystemOk(ports.System())
      modifies ports.stockRepo, ports.idempotency
      ensures receipt.None? ==> ports.System() == old(ports.System())
      ensures receipt.Some? ==>
                var skus := SkusOf(receipt.value.lines);
                ports.System() == HandleCancellation(old(ports.System()), receiptId, receipt.value.branchId, skus, stop)
    {
      var key := ReceiptCancelKey(receiptId);
      var processed := ports.idempotency.HasProcessed(key);
      if processed || receipt.None? {
        return;
      }
      hide StateOk, RemoveReceipt;
      var lines := receipt.value.lines;
      ghost var skus := SkusOf(lines);
      var count := if stop <= |lines| then stop else |lines|;
      assert SkusOf(lines[..count]) == skus[..count];
      assert count == |lines| ==> lines[..count] == lines;
      RemoveLines(receiptId, receipt.value.branchId, lines[..count]);
      if stop > |lines| {
        ports.idempotency.MarkProcessed(key);
      }
    }

    /** The loop over the lines. */
    method RemoveLines(receiptId: string, branch: string, lines: seq<ReceiptLine>)
      requires SystemOk(ports.System())
      modifies ports.stockRepo
      ensures ports.System() == old(ports.System()).(
                rows := RemoveReceipt(old(ports.System()).rows, receiptId, branch, SkusOf(lines)))
    {
      ghost var start, skus := ports.System(), SkusOf(lines);
      hide StateOk;
      var i := 0;
      while i < |lines|
        invariant i <= |lines| && SystemOk(ports.System())
        invariant ports.System().done == start.done && ports.System().nextId == start.nextId
        invariant RemoveReceipt(ports.stockRepo.rows, receiptId, branch, skus[i..])
               == RemoveReceipt(start.rows, receiptId, branch, skus)
      {
        assert skus[i..][1..] == skus[i + 1..] && skus[i] == lines[i].sku;
        RemoveLine(receiptId, StockKey(lines[i].sku, branch));
        i := i + 1;
      }
      assert skus[i..] == [];
    }

    /** One turn of the loop: a stock that is found is loaded, cleared of the document and saved. */
    method RemoveLine(receiptId: string, key: StockKey)
      requires SystemOk(ports.System())
      modifies ports.stockRepo
      ensures SystemOk(ports.System())
      ensures var rows := old(ports.System()).rows;
              ports.System() == old(ports.System()).(
                rows := if key in rows then rows[key := WithoutDocument(rows[key], receiptId)] else rows)
    {
      hide StateOk, WithoutDocument;
      var stock := ports.stockRepo.FindByCompositeId(key);
      if stock.Some? {
        ghost var sys, row := ports.System(), ports.stockRepo.rows[key];
        assert RowOk(row, key, sys.nextId);
        stock.value.ValidAs(row);
        RemovedOk(row, receiptId, key, sys.nextId);
        RowsStayOk(sys, key, WithoutDocument(row, receiptId), sys.nextId, sys.done);
        stock.value.RemoveBatchesBySourceDoc(receiptId);
        ports.stockRepo.Save(stock.value);
      }
    }
  }

  lemma RemovedOk(s: StockState, doc: string, key: StockKey, next: nat)
    requires RowOk(s, key, next)
    ensures RowOk(WithoutDocument(s, doc), key, next)
  {
    StockLaws.WithoutDocumentOk(s, doc);
  }

  function SkusOf(lines: seq<ReceiptLine>): seq<string> {
    seq(|lines|, i requires 0 <= i < |lines| => lines[i].sku)
  }

  class ApplyStockTakingSaga {
    const ports: Ports

    constructor (ports: Ports)
      ensures this.ports == ports
    {
      this.ports := ports;
    }

    /**
     Turns the deltas into an approved adjustment: created through the command bus with zero snapshot
     costs, then approved if it was not approved on creation. The clock and the ids are parameters.
     */
    method Handle(event: StockTakingPosted, adjustmentId: string, autoApprovalThreshold: nat, createdAt: int,
                  approvedAt: int)
      returns (approved: Option<AdjustmentApproved>)
      modifies ports.idempotency
      ensures ports.idempotency.done == old(ports.idempotency.done) + {StockTakingKey(event.stockTakingId)}
      ensures approved.Some? <==>
              StockTakingKey(event.stockTakingId) !in old(ports.idempotency.done) && event.deltas != []
      ensures approved.Some? ==>
                && approved.value.adjustmentId == adjustmentId && approved.value.branchId == event.branchId
                && approved.value.reason == "StockTaking " + event.stockTakingId
                && approved.value.lines == event.deltas && approved.value.approvedBy == event.postedBy
                && approved.value.approvedAt == (if autoApprovalThreshold > 0 then createdAt else approvedAt)
    {
      var key := StockTakingKey(event.stockTakingId);
      var processed := ports.idempotency.HasProcessed(key);
      if processed {
        return None;
      }
      if |event.deltas| == 0 {
        ports.idempotency.MarkProcessed(key);
        return None;
      }
      var lines := ZeroCostLines(event.deltas);
      ZeroCostTotal(lines);
      var created := Adjustment.Create(adjustmentId, event.branchId, "StockTaking " + event.stockTakingId, lines,
                                       event.postedBy, createdAt, autoApprovalThreshold);
      var adjustment := created.value;
      if adjustment.status != AdjustmentIsApproved {
        var decided := adjustment.Approve(event.postedBy, approvedAt);
      }
      assert DeltaLines(lines) == event.deltas;
      ports.idempotency.MarkProcessed(key);
      approved := Some(adjustment.approvals[0]);
    }
  }

  function ZeroCostLines(deltas: seq<DeltaLine>): seq<AdjustmentLine> {
    seq(|deltas|, i requires 0 <= i < |deltas| => AdjustmentLine(deltas[i].sku, deltas[i].delta, 0))
  }

  lemma {:induction false} ZeroCostTotal(lines: seq<AdjustmentLine>)
    requires forall line :: line in lines ==> line.snapshotUnitCost == 0
    ensures TotalCents(lines) == 0
  {
    if lines != [] {
      var last := lines[|lines| - 1];
      assert last in lines && forall line :: line in lines[..|lines| - 1] ==> line in lines;
      ZeroCostTotal(lines[..|lines| - 1]);
      assert last.delta.amount * last.snapshotUnitCost as real == 0.0;
    }
  }
}
