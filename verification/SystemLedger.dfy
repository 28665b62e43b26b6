/**
 All branches together over any run of the handlers: skipped deliveries can be left out, every stored
 stock stays sound, and a SKU's total is the opening total plus what was applied.
 */
module SystemLedger {
  import opened Sequences
  import opened StockSpec
  import opened StockRuns
  import opened Inventory
  import opened Interleavings
  import BatchSelection
  import Deliveries
  import Maps
  import StockEffects
  import StockLaws
  import StockTypes
  import TransferLaws

  type Strategy = BatchSelection.Strategy

  // ---------------------------------------------------------------- skipped deliveries

  /** The act finds its key marked. */
  predicate Skips(sys: System, act: Act) {
    match act
    case HandleLine(job) => JobKey(job) in sys.done
    case HandleTransferEvent(e, _) => TransferKey(e.transferId) in sys.done
    case HandleCancelEvent(receiptId, _, _, _) => ReceiptCancelKey(receiptId) in sys.done
  }

  function WithoutSkipped(sys: System, strategy: Strategy, acts: seq<Act>): seq<Act>
    decreases |acts|
  {
    if acts == [] then []
    else
      var first := if Skips(sys, acts[0]) then [] else [acts[0]];
      first + WithoutSkipped(Do(sys, strategy, acts[0]), strategy, acts[1..])
  }

  lemma SkippedDoesNothing(sys: System, strategy: Strategy, act: Act)
    ensures Skips(sys, act) ==> Do(sys, strategy, act) == sys
  {
  }

  /** A run ends where the same run without its skipped deliveries ends. */
  lemma {:induction false} SkippedCanGo(sys: System, strategy: Strategy, acts: seq<Act>)
    ensures DoAll(sys, strategy, WithoutSkipped(sys, strategy, acts)) == DoAll(sys, strategy, acts)
    decreases |acts|
  {
    hide Skips, Do;
    if acts != [] {
      var rest := WithoutSkipped(Do(sys, strategy, acts[0]), strategy, acts[1..]);
      SkippedDoesNothing(sys, strategy, acts[0]);
      SkippedCanGo(Do(sys, strategy, acts[0]), strategy, acts[1..]);
      if Skips(sys, acts[0]) {
        assert [] + rest == rest;
      } else {
        assert ([acts[0]] + rest)[1..] == rest;
      }
    }
  }

  // ---------------------------------------------------------------- the ledger

  /** Quantities are never negative, and a transfer joins two branches. */
  predicate ProperAct(act: Act) {
    match act
    case HandleLine(job) => ProperJob(job)
    case HandleTransferEvent(e, _) => e.fromBranchId != e.toBranchId
    case HandleCancelEvent(_, _, _, _) => true
  }

  /** What is stored from a document in one stock. */
  function StoredFrom(rows: map<StockKey, StockState>, key: StockKey, doc: string): real {
    if key in rows then Sum(Filter(rows[key].batches, From(doc)), StockTypes.Amount) else 0.0
  }

  /** The SKUs a cancellation gets to. */
  function Reached(skus: seq<string>, stop: nat): seq<string> {
    if stop <= |skus| then skus[..stop] else skus
  }

  /** The entry an act makes for a SKU: applied receipts and deltas, less what a cancellation removes. */
  function Entry(sys: System, strategy: Strategy, act: Act, sku: string): real {
    if Skips(sys, act) then 0.0
    else
      match act
      case HandleLine(job) =>
        if JobStock(job).sku != sku || JobResult(sys, strategy, job).Err? then 0.0
        else
          (match job
           case ReceiptJob(_, _, _, line, _) => line.quantity.amount
           case AdjustmentJob(_, _, _, delta, at) =>
             Deliveries.Change(Load(sys, JobStock(job), JobUnit(job)), delta.delta, at))
      case HandleTransferEvent(_, _) => 0.0
      case HandleCancelEvent(receiptId, branch, skus, stop) =>
        if sku in Reached(skus, stop) then -StoredFrom(sys.rows, StockKey(sku, branch), receiptId) else 0.0
  }

  function Ledger(sys: System, strategy: Strategy, acts: seq<Act>, sku: string): real
    decreases |acts|
  {
    if acts == [] then 0.0
    else Entry(sys, strategy, acts[0], sku) + Ledger(Do(sys, strategy, acts[0]), strategy, acts[1..], sku)
  }

  /** The total of a SKU over all branches. */
  ghost function Everywhere(sys: System, sku: string): real {
    TransferLaws.SystemWeight(sys, sku, StockEffects.One())
  }

  lemma EverywhereUpdate(sys: System, key: StockKey, s: StockState, done: set<DocKey>, next: nat, sku: string)
    ensures Everywhere(System(sys.rows[key := s], done, next), sku)
         == Everywhere(sys, sku) + (if key.sku == sku then Total(s) - Deliveries.RowTotal(sys, key) else 0.0)
  {
    hide Total, StockEffects.Weighed, Maps.SumOver;
    Maps.SumUpdate(sys.rows, key, s, TransferLaws.OfSku(sku, StockEffects.One()));
    StockEffects.WeighedByOne(s);
    if key in sys.rows {
      StockEffects.WeighedByOne(sys.rows[key]);
    }
  }

  lemma LineEntry(sys: System, strategy: Strategy, job: LineJob, sku: string)
    requires SystemOk(sys) && ProperJob(job)
    ensures var after := Do(sys, strategy, HandleLine(job));
            && SystemOk(after)
            && Everywhere(after, sku) == Everywhere(sys, sku) + Entry(sys, strategy, HandleLine(job), sku)
  {
    RunJobOk(sys, strategy, job);
    if RunJob(sys, strategy, job).Ok? && JobKey(job) !in sys.done {
      var s := JobResult(sys, strategy, job).value;
      if job.ReceiptJob? {
        Deliveries.ReceiptJobCredits(sys, strategy, job, JobStock(job));
      } else {
        Deliveries.AdjustmentJobMoves(sys, strategy, job);
      }
      hide JobResult, SystemOk, Everywhere, Total, Deliveries.Change;
      EverywhereUpdate(sys, JobStock(job), s, sys.done + {JobKey(job)}, sys.nextId + IdsUsed(job), sku);
    }
  }

  lemma FromTwice(s: StockState, doc: string)
    ensures Sum(Filter(WithoutDocument(s, doc).batches, From(doc)), StockTypes.Amount) == 0.0
  {
    FilterMembers(s.batches, NotFrom(doc));
    FilterMembers(WithoutDocument(s, doc).batches, From(doc));
    SumZero(Filter(WithoutDocument(s, doc).batches, From(doc)), StockTypes.Amount);
  }

  /** Removing a receipt from the stocks of its SKUs, each of them once however often it is named. */
  lemma {:induction false} RemovalEntry(sys: System, doc: string, branch: string, skus: seq<string>, sku: string)
    requires SystemOk(sys)
    ensures var after := sys.(rows := RemoveReceipt(sys.rows, doc, branch, skus));
            && SystemOk(after)
            && Everywhere(after, sku)
               == Everywhere(sys, sku) - (if sku in skus then StoredFrom(sys.rows, StockKey(sku, branch), doc) else 0.0)
    decreases |skus|
  {
    if skus != [] {
      var key := StockKey(skus[0], branch);
      var sys' := sys;
      if key in sys.rows {
        var s := sys.rows[key];
        assert RowOk(s, key, sys.nextId);
        StockLaws.WithoutDocumentOk(s, doc);
        RowsStayOk(sys, key, WithoutDocument(s, doc), sys.nextId, sys.done);
        sys' := System(sys.rows[key := WithoutDocument(s, doc)], sys.done, sys.nextId);
        RemovalTotal(s, doc);
        FromTwice(s, doc);
        EverywhereUpdate(sys, key, WithoutDocument(s, doc), sys.done, sys.nextId, sku);
      }
      hide SystemOk, Everywhere, Total, WithoutDocument, Filter;
      RemovalEntry(sys', doc, branch, skus[1..], sku);
    }
  }

  lemma ActEntry(sys: System, strategy: Strategy, act: Act, sku: string)
    requires SystemOk(sys) && ProperAct(act)
    ensures SystemOk(Do(sys, strategy, act))
    ensures Everywhere(Do(sys, strategy, act), sku) == Everywhere(sys, sku) + Entry(sys, strategy, act, sku)
  {
    match act
    case HandleLine(job) => LineEntry(sys, strategy, job, sku);
    case HandleTransferEvent(e, stop) => TransferLaws.HandleConserves(sys, strategy, e, stop, sku, StockEffects.One());
    case HandleCancelEvent(receiptId, branch, skus, stop) =>
      RemovalEntry(sys, receiptId, branch, Reached(skus, stop), sku);
      MarkedOk(sys.(rows := RemoveReceipt(sys.rows, receiptId, branch, Reached(skus, stop))),
               sys.done + {ReceiptCancelKey(receiptId)}, sku);
  }

  lemma MarkedOk(sys: System, done: set<DocKey>, sku: string)
    requires SystemOk(sys)
    ensures SystemOk(sys.(done := done)) && Everywhere(sys.(done := done), sku) == Everywhere(sys, sku)
  {
  }

  /**
   Over any run of lines of receipts and adjustments, transfers and cancellations, interleaved, repeated,
   stopped or thrown out of, every stored stock stays sound and each SKU's total over all branches is the
   opening total plus the receipts and deltas applied, less what cancellations removed; transfers add nothing.
   */
  lemma {:induction false} SystemBalances(sys: System, strategy: Strategy, acts: seq<Act>, sku: string)
    requires SystemOk(sys) && forall act :: act in acts ==> ProperAct(act)
    ensures SystemOk(DoAll(sys, strategy, acts))
    ensures Everywhere(DoAll(sys, strategy, acts), sku) == Everywhere(sys, sku) + Ledger(sys, strategy, acts, sku)
    decreases |acts|
  {
    hide SystemOk, Everywhere, Entry, Do, ProperAct;
    if acts != [] {
      assert acts[0] in acts && forall act :: act in acts[1..] ==> act in acts;
      ActEntry(sys, strategy, acts[0], sku);
      SystemBalances(Do(sys, strategy, acts[0]), strategy, acts[1..], sku);
    }
  }
}
