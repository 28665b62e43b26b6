/** Cancelling a receipt removes exactly what posting it brought in. */
module CancellationLaws {
  import opened Sequences
  import opened StockTypes
  import opened BatchSelection
  import opened StockSpec
  import opened Documents
  import opened Inventory
  import opened Interleavings
  import Deliveries
  import Sagas

  type Rows = map<StockKey, StockState>

  /** The batches stored for a stock; a stock that is not stored has none. */
  function BatchesAt(rows: Rows, key: StockKey): seq<BatchView> {
    if key in rows then rows[key].batches else []
  }

  /** The batches of a stock that do not come from a document. */
  function Others(rows: Rows, key: StockKey, doc: string): seq<BatchView> {
    Filter(BatchesAt(rows, key), NotFrom(doc))
  }

  // ---------------------------------------------------------------- posting

  /** A receipt line adds a batch of its own document to its own stock, and touches no other batch. */
  lemma ReceiptJobAdds(sys: System, strategy: Strategy, job: LineJob, key: StockKey)
    requires job.ReceiptJob? && RunJob(sys, strategy, job).Ok?
    ensures var rows' := RunJob(sys, strategy, job).value.rows;
            && Others(rows', key, job.receiptId) == Others(sys.rows, key, job.receiptId)
            && (key != JobStock(job) ==> BatchesAt(rows', key) == BatchesAt(sys.rows, key))
  {
    if JobKey(job) !in sys.done && key == JobStock(job) {
      var b := FreshBatch(sys.nextId, ReceiptDetails(job.receiptId, job.supplierId, job.line, job.at));
      FilterAppend(BatchesAt(sys.rows, key), [b], NotFrom(job.receiptId));
      FilterNone(b, job.receiptId);
    }
  }

  lemma FilterNone(b: BatchView, doc: string)
    ensures b.sourceDocId == doc ==> Filter([b], NotFrom(doc)) == []
  {
  }

  /** Posting a receipt, in whole or in part, touches only the stocks of its lines, and only adds its own batches. */
  lemma {:induction false} PostingAdds(sys: System, strategy: Strategy, e: ReceiptPosted, jobs: seq<LineJob>,
                                       key: StockKey)
    requires forall job :: job in jobs ==> job.ReceiptJob? && job.receiptId == e.receiptId && job.branch == e.branchId
    ensures var rows' := RunJobs(sys, strategy, jobs).sys.rows;
            && Others(rows', key, e.receiptId) == Others(sys.rows, key, e.receiptId)
            && ((forall job :: job in jobs ==> key != JobStock(job)) ==>
                BatchesAt(rows', key) == BatchesAt(sys.rows, key))
    decreases |jobs|
  {
    hide RunJob, Others, BatchesAt;
    if jobs != [] && RunJob(sys, strategy, jobs[0]).Ok? {
      assert jobs[0] in jobs && forall job :: job in jobs[1..] ==> job in jobs;
      ReceiptJobAdds(sys, strategy, jobs[0], key);
      PostingAdds(RunJob(sys, strategy, jobs[0]).value, strategy, e, jobs[1..], key);
    }
  }

  // ---------------------------------------------------------------- what happens in between

  /**
   What may happen between posting and cancelling: lines of other receipts, transfers whose source is another
   branch, and anything at all in other branches. (A receipt named like the transfers' marker would take the
   batches of transfers for its own.)
   */
  predicate Arriving(act: Act, branch: string, doc: string) {
    match act
    case HandleLine(job) => (job.ReceiptJob? && job.receiptId != doc) || JobStock(job).branch != branch
    case HandleTransferEvent(e, _) => e.fromBranchId != branch && doc != "TRANSFER"
    case HandleCancelEvent(_, b, _, _) => b != branch
  }

  /** The batches that one line of a transfer brings into a stock. */
  function LineBrings(sys: System, strategy: Strategy, e: TransferPosted, line: TransferLine,
                      key: StockKey): seq<BatchView> {
    var source := Load(sys, StockKey(line.sku, e.fromBranchId), line.quantity.unit);
    if key != StockKey(line.sku, e.toBranchId) || MoveLine(sys, strategy, e, line).error.Some? then []
    else
      Incoming(Load(sys, key, line.quantity.unit).baseUnit, sys.nextId,
               Outgoing(source, line.quantity.amount, strategy, e.postedAt), e.postedAt)
  }

  /** And all its lines, up to the one that throws. */
  function LineArrivals(sys: System, strategy: Strategy, e: TransferPosted, lines: seq<TransferLine>, key: StockKey)
    : seq<BatchView>
    decreases |lines|
  {
    if lines == [] then []
    else
      var h := MoveLine(sys, strategy, e, lines[0]);
      LineBrings(sys, strategy, e, lines[0], key)
      + (if h.error.Some? then [] else LineArrivals(h.sys, strategy, e, lines[1..], key))
  }

  /** The batches that an act brings into a stock. */
  function ActArrivals(sys: System, strategy: Strategy, act: Act, key: StockKey): seq<BatchView> {
    match act
    case HandleLine(job) =>
      if job.ReceiptJob? && key == JobStock(job) && Applies(sys, strategy, act, JobKey(job)) then
        [FreshBatch(sys.nextId, ReceiptDetails(job.receiptId, job.supplierId, job.line, job.at))]
      else []
    case HandleTransferEvent(e, stop) =>
      if TransferKey(e.transferId) in sys.done then []
      else LineArrivals(sys, strategy, e, if stop <= |e.lines| then e.lines[..stop] else e.lines, key)
    case HandleCancelEvent(_, _, _, _) => []
  }

  /** All that arrives in a stock over a run, in order. */
  function Arrived(sys: System, strategy: Strategy, acts: seq<Act>, key: StockKey): seq<BatchView>
    decreases |acts|
  {
    if acts == [] then []
    else ActArrivals(sys, strategy, acts[0], key) + Arrived(Do(sys, strategy, acts[0]), strategy, acts[1..], key)
  }

  predicate NoneFrom(bs: seq<BatchView>, doc: string) {
    forall b :: b in bs ==> b.sourceDocId != doc
  }

  lemma {:induction false} IncomingMarked(unit: Unit, id: nat, details: seq<TransferDetail>, at: int)
    ensures forall b :: b in Incoming(unit, id, details, at) ==> b.sourceDocId == "TRANSFER"
    decreases |details|
  {
    if details != [] && details[0].quantity.unit == unit {
      IncomingMarked(unit, id + 1, details[1..], at);
    }
  }

  /** One line of a transfer from another branch: at most its details arrive, and nothing else in the branch changes. */
  lemma LineArrives(sys: System, strategy: Strategy, e: TransferPosted, line: TransferLine, key: StockKey)
    requires key.branch != e.fromBranchId
    ensures BatchesAt(MoveLine(sys, strategy, e, line).sys.rows, key)
         == BatchesAt(sys.rows, key) + LineBrings(sys, strategy, e, line, key)
    ensures forall b :: b in LineBrings(sys, strategy, e, line, key) ==> b.sourceDocId == "TRANSFER"
  {
    var unit, amount := line.quantity.unit, line.quantity.amount;
    var source := Load(sys, StockKey(line.sku, e.fromBranchId), unit);
    var target := Load(sys, StockKey(line.sku, e.toBranchId), unit);
    var details := Outgoing(source, amount, strategy, e.postedAt);
    hide MoveLine, Outgoing, Withdrawn, Incoming, WithdrawError, AllInUnit, Load, BatchesAt, Stored;
    MoveLineCases(sys, strategy, e, line, source, target);
    IncomingMarked(target.baseUnit, sys.nextId, details, e.postedAt);
    LoadedBatches(sys, StockKey(line.sku, e.toBranchId), unit);
    StoredAt(sys, StockKey(line.sku, e.fromBranchId), Withdrawn(source, amount, strategy, e.postedAt),
             StockKey(line.sku, e.toBranchId), TransferredIn(target, sys.nextId, details, e.postedAt), |details|, key);
    assert BatchesAt(sys.rows, key) + [] == BatchesAt(sys.rows, key);
  }

  lemma LoadedBatches(sys: System, key: StockKey, unit: Unit)
    ensures Load(sys, key, unit).batches == BatchesAt(sys.rows, key)
  {
  }

  lemma StoredAt(sys: System, from: StockKey, source: StockState, to: StockKey, target: StockState, used: nat,
                 key: StockKey)
    requires key != from
    ensures BatchesAt(Stored(sys, from, source, to, target, used).rows, key)
         == if key == to then target.batches else BatchesAt(sys.rows, key)
  {
  }

  lemma {:induction false} LinesArrive(sys: System, strategy: Strategy, e: TransferPosted, lines: seq<TransferLine>,
                                       key: StockKey)
    requires key.branch != e.fromBranchId
    ensures BatchesAt(MoveLines(sys, strategy, e, lines).sys.rows, key)
         == BatchesAt(sys.rows, key) + LineArrivals(sys, strategy, e, lines, key)
    ensures forall b :: b in LineArrivals(sys, strategy, e, lines, key) ==> b.sourceDocId == "TRANSFER"
    decreases |lines|
  {
    hide MoveLine, BatchesAt, LineBrings;
    if lines == [] {
      assert BatchesAt(sys.rows, key) + [] == BatchesAt(sys.rows, key);
    } else {
      var h, first := MoveLine(sys, strategy, e, lines[0]), LineBrings(sys, strategy, e, lines[0], key);
      LineArrives(sys, strategy, e, lines[0], key);
      if h.error.None? {
        LinesArrive(h.sys, strategy, e, lines[1..], key);
        var rest := LineArrivals(h.sys, strategy, e, lines[1..], key);
        assert BatchesAt(sys.rows, key) + first + rest == BatchesAt(sys.rows, key) + (first + rest);
      } else {
        assert first + [] == first;
      }
    }
  }

  /** A delivery of a transfer from another branch, stopped, thrown out of or skipped, only brings batches in. */
  lemma TransfersArrive(sys: System, strategy: Strategy, e: TransferPosted, stop: nat, key: StockKey)
    requires key.branch != e.fromBranchId
    ensures var act := HandleTransferEvent(e, stop);
            && BatchesAt(HandleTransfer(sys, strategy, e, stop).sys.rows, key)
               == BatchesAt(sys.rows, key) + ActArrivals(sys, strategy, act, key)
            && forall b :: b in ActArrivals(sys, strategy, act, key) ==> b.sourceDocId == "TRANSFER"
  {
    hide MoveLines, LineArrivals;
    LinesArrive(sys, strategy, e, if stop <= |e.lines| then e.lines[..stop] else e.lines, key);
  }

  /**
   A line of another receipt appends at most its own batch to its own stock; a line elsewhere changes nothing here.
   */
  lemma ReceiptsArrive(sys: System, strategy: Strategy, job: LineJob, key: StockKey)
    requires job.ReceiptJob? || JobStock(job).branch != key.branch
    ensures var act := HandleLine(job);
            && BatchesAt(Do(sys, strategy, act).rows, key)
               == BatchesAt(sys.rows, key) + ActArrivals(sys, strategy, act, key)
            && forall b :: b in ActArrivals(sys, strategy, act, key) ==>
               job.ReceiptJob? && b.sourceDocId == job.receiptId
  {
    hide Adjusted;
  }

  lemma ActArrives(sys: System, strategy: Strategy, act: Act, key: StockKey, doc: string)
    requires Arriving(act, key.branch, doc)
    ensures BatchesAt(Do(sys, strategy, act).rows, key)
            == BatchesAt(sys.rows, key) + ActArrivals(sys, strategy, act, key)
    ensures NoneFrom(ActArrivals(sys, strategy, act, key), doc)
  {
    match act
    case HandleLine(job) =>
      ReceiptsArrive(sys, strategy, job, key);
    case HandleTransferEvent(e, stop) =>
      hide HandleTransfer;
      TransfersArrive(sys, strategy, e, stop, key);
    case HandleCancelEvent(receiptId, branch, skus, stop) =>
      hide RemoveReceipt, BatchesAt;
      RemovedAt(sys.rows, receiptId, branch, if stop <= |skus| then skus[..stop] else skus, key);
      assert BatchesAt(sys.rows, key) + [] == BatchesAt(sys.rows, key);
  }

  lemma {:induction false} RunArrives(sys: System, strategy: Strategy, acts: seq<Act>, key: StockKey, doc: string)
    requires forall act :: act in acts ==> Arriving(act, key.branch, doc)
    ensures BatchesAt(DoAll(sys, strategy, acts).rows, key)
            == BatchesAt(sys.rows, key) + Arrived(sys, strategy, acts, key)
    ensures NoneFrom(Arrived(sys, strategy, acts, key), doc)
    decreases |acts|
  {
    hide Do, ActArrivals, BatchesAt, Arriving;
    if acts == [] {
      assert BatchesAt(sys.rows, key) + [] == BatchesAt(sys.rows, key);
    } else {
      assert acts[0] in acts && forall act :: act in acts[1..] ==> act in acts;
      ActArrives(sys, strategy, acts[0], key, doc);
      RunArrives(Do(sys, strategy, acts[0]), strategy, acts[1..], key, doc);
      var first := ActArrivals(sys, strategy, acts[0], key);
      var rest := Arrived(Do(sys, strategy, acts[0]), strategy, acts[1..], key);
      assert BatchesAt(sys.rows, key) + first + rest == BatchesAt(sys.rows, key) + (first + rest);
    }
  }

  // ---------------------------------------------------------------- cancelling

  lemma {:induction false} RemovedAt(rows: Rows, doc: string, branch: string, skus: seq<string>, key: StockKey)
    ensures BatchesAt(RemoveReceipt(rows, doc, branch, skus), key)
         == if key.branch == branch && key.sku in skus then Others(rows, key, doc) else BatchesAt(rows, key)
    ensures RemoveReceipt(rows, doc, branch, skus).Keys == rows.Keys
    decreases |skus|
  {
    if skus != [] {
      var k := StockKey(skus[0], branch);
      var rows' := if k in rows then rows[k := WithoutDocument(rows[k], doc)] else rows;
      RemovedAt(rows', doc, branch, skus[1..], key);
      if key == k {
        FilterTwice(BatchesAt(rows, key), doc);
      }
    }
  }

  lemma FilterTwice(bs: seq<BatchView>, doc: string)
    ensures Filter(Filter(bs, NotFrom(doc)), NotFrom(doc)) == Filter(bs, NotFrom(doc))
  {
    FilterMembers(bs, NotFrom(doc));
    FilterAll(Filter(bs, NotFrom(doc)), NotFrom(doc));
  }

  /** Each stock of the SKUs loses the document's batches, and no other stock changes. */
  lemma {:induction false} RemovedRow(rows: Rows, doc: string, branch: string, skus: seq<string>, key: StockKey)
    requires key in rows
    ensures var after := RemoveReceipt(rows, doc, branch, skus);
            && after.Keys == rows.Keys
            && after[key] ==
               if key.branch == branch && key.sku in skus then WithoutDocument(rows[key], doc) else rows[key]
    decreases |skus|
  {
    if skus != [] {
      var k := StockKey(skus[0], branch);
      var rows' := if k in rows then rows[k := WithoutDocument(rows[k], doc)] else rows;
      RemovedRow(rows', doc, branch, skus[1..], key);
      if key == k {
        FilterTwice(rows[key].batches, doc);
      }
    }
  }

  /** Removing for some of the SKUs first makes no difference to removing for all. */
  lemma RemovedFirst(rows: Rows, doc: string, branch: string, skus: seq<string>, stop: nat)
    requires stop <= |skus|
    ensures RemoveReceipt(RemoveReceipt(rows, doc, branch, skus[..stop]), doc, branch, skus)
            == RemoveReceipt(rows, doc, branch, skus)
  {
    hide RemoveReceipt, WithoutDocument;
    var mid := RemoveReceipt(rows, doc, branch, skus[..stop]);
    forall key | key in rows
      ensures key in mid && key in RemoveReceipt(mid, doc, branch, skus)
              && key in RemoveReceipt(rows, doc, branch, skus)
      ensures RemoveReceipt(mid, doc, branch, skus)[key] == RemoveReceipt(rows, doc, branch, skus)[key]
    {
      RemovedRow(rows, doc, branch, skus[..stop], key);
      RemovedRow(mid, doc, branch, skus, key);
      RemovedRow(rows, doc, branch, skus, key);
      WithoutTwice(rows[key], doc);
    }
    NoNewRows(rows, doc, branch, skus);
    NoNewRows(rows, doc, branch, skus[..stop]);
    NoNewRows(mid, doc, branch, skus);
  }

  lemma NoNewRows(rows: Rows, doc: string, branch: string, skus: seq<string>)
    ensures RemoveReceipt(rows, doc, branch, skus).Keys == rows.Keys
  {
    hide RemoveReceipt;
    RemovedAt(rows, doc, branch, skus, StockKey("", ""));
  }

  lemma WithoutTwice(s: StockState, doc: string)
    ensures WithoutDocument(WithoutDocument(s, doc), doc) == WithoutDocument(s, doc)
  {
    FilterTwice(s.batches, doc);
  }

  /** Deliveries of one cancellation, each stopped somewhere or not. */
  function Cancellations(sys: System, doc: string, branch: string, skus: seq<string>, stops: seq<nat>): System
    decreases |stops|
  {
    if stops == [] then sys
    else Cancellations(HandleCancellation(sys, doc, branch, skus, stops[0]), doc, branch, skus, stops[1..])
  }

  lemma {:induction false} CancelledStays(sys: System, doc: string, branch: string, skus: seq<string>, stops: seq<nat>)
    requires ReceiptCancelKey(doc) in sys.done
    ensures Cancellations(sys, doc, branch, skus, stops) == sys
    decreases |stops|
  {
    if stops != [] {
      CancelledStays(sys, doc, branch, skus, stops[1..]);
    }
  }

  /**
   Any deliveries of a cancellation, some stopped between lines or before the mark and at least one handled to
   its end, leave the system of one cancellation handled to its end.
   */
  lemma {:induction false} CancelledOnce(sys: System, doc: string, branch: string, skus: seq<string>, stops: seq<nat>)
    requires exists i :: 0 <= i < |stops| && stops[i] > |skus|
    ensures Cancellations(sys, doc, branch, skus, stops) == CancelWholly(sys, doc, branch, skus)
    decreases |stops|
  {
    hide RemoveReceipt;
    var next := HandleCancellation(sys, doc, branch, skus, stops[0]);
    if ReceiptCancelKey(doc) in sys.done || stops[0] > |skus| {
      CancelledStays(next, doc, branch, skus, stops[1..]);
    } else {
      var i :| 0 <= i < |stops| && stops[i] > |skus|;
      assert stops[1..][i - 1] == stops[i];
      CancelledOnce(next, doc, branch, skus, stops[1..]);
      RemovedFirst(sys.rows, doc, branch, skus, stops[0]);
    }
  }

  /** No stored batch comes from the document. */
  predicate Absent(rows: Rows, doc: string) {
    forall key, b :: key in rows && b in rows[key].batches ==> b.sourceDocId != doc
  }

  function LineSkus(e: ReceiptPosted): seq<string> {
    seq(|e.lines|, i requires 0 <= i < |e.lines| => e.lines[i].sku)
  }

  lemma JobsOfReceipt(e: ReceiptPosted, stop: nat)
    requires stop <= |e.lines|
    ensures forall job :: job in ReceiptJobs(e)[..stop] ==>
              job.ReceiptJob? && job.receiptId == e.receiptId && job.branch == e.branchId
              && JobStock(job).branch == e.branchId && JobStock(job).sku in LineSkus(e)
  {
    forall job | job in ReceiptJobs(e)[..stop]
      ensures job.ReceiptJob? && job.receiptId == e.receiptId && job.branch == e.branchId
              && JobStock(job).branch == e.branchId && JobStock(job).sku in LineSkus(e)
    {
      var i :| 0 <= i < stop && ReceiptJobs(e)[i] == job;
      assert LineSkus(e)[i] == e.lines[i].sku;
    }
  }

  /**
   Cancelling undoes posting: start from stocks without the document, post the receipt (or only the lines up
   to where handling stopped or threw), run any acts that bring stock into the branch, with transfers
   repeated, stopped or thrown out of among them, then handle the cancellation. Every stock of the branch then
   holds, batch for batch and in the same order, what it held before the receipt and what arrived since;
   posting and cancelling touch no other branch.
   */
  lemma CancellationUndoesPosting(
    sys: System, strategy: Strategy, e: ReceiptPosted, stop: nat, acts: seq<Act>, key: StockKey)
    requires Absent(sys.rows, e.receiptId) && stop <= |e.lines|
    requires forall act :: act in acts ==> Arriving(act, e.branchId, e.receiptId)
    ensures var posted := RunJobs(sys, strategy, ReceiptJobs(e)[..stop]).sys;
            var before := DoAll(posted, strategy, acts);
            var after := CancelWholly(before, e.receiptId, e.branchId, LineSkus(e));
            && (key.branch == e.branchId && ReceiptCancelKey(e.receiptId) !in before.done ==>
                  BatchesAt(after.rows, key) == BatchesAt(sys.rows, key) + Arrived(posted, strategy, acts, key))
            && (key.branch != e.branchId ==>
                  && BatchesAt(posted.rows, key) == BatchesAt(sys.rows, key)
                  && BatchesAt(after.rows, key) == BatchesAt(before.rows, key))
  {
    var doc, jobs := e.receiptId, ReceiptJobs(e)[..stop];
    var posted := RunJobs(sys, strategy, jobs).sys;
    var before := DoAll(posted, strategy, acts);
    JobsOfReceipt(e, stop);
    hide RunJobs, BatchesAt, Arrived, Arriving, DoAll, RemoveReceipt, NoneFrom;
    PostingAdds(sys, strategy, e, jobs, key);
    RemovedAt(before.rows, doc, e.branchId, LineSkus(e), key);
    AbsentIsOthers(sys.rows, key, doc);
    if key.branch == e.branchId {
      RunArrives(posted, strategy, acts, key, doc);
      FilterAppend(BatchesAt(posted.rows, key), Arrived(posted, strategy, acts, key), NotFrom(doc));
      ArrivedOthers(Arrived(posted, strategy, acts, key), doc);
    }
  }

  lemma ArrivedOthers(bs: seq<BatchView>, doc: string)
    requires NoneFrom(bs, doc)
    ensures Filter(bs, NotFrom(doc)) == bs
  {
    FilterAll(bs, NotFrom(doc));
  }

  lemma AbsentIsOthers(rows: Rows, key: StockKey, doc: string)
    requires Absent(rows, doc)
    ensures Others(rows, key, doc) == BatchesAt(rows, key)
  {
    FilterAll(BatchesAt(rows, key), NotFrom(doc));
  }

  /** The SKUs the cancellation reads from the receipt are those of the posted event. */
  lemma CancellationReadsPostedSkus(receiptId: string, supplierId: string, branchId: string, lines: seq<ReceiptLine>,
                                    at: int)
    ensures Sagas.SkusOf(lines) == LineSkus(ReceiptPosted(receiptId, supplierId, branchId, PostedLines(lines), at))
  {
  }

  // ---------------------------------------------------------------- delivering again after a cancellation

  /** The stock is kept in another unit than the line's. */
  predicate Refuses(sys: System, job: LineJob) {
    JobUnit(job) != Load(sys, JobStock(job), JobUnit(job)).baseUnit
  }

  predicate FirstUnmarked(sys: System, jobs: seq<LineJob>, i: nat)
    requires i < |jobs|
  {
    JobKey(jobs[i]) !in sys.done && forall j :: 0 <= j < i ==> JobKey(jobs[j]) in sys.done
  }

  /** The first line not marked yet, if there is one, is refused for its unit. */
  predicate FirstUnmarkedRefused(sys: System, jobs: seq<LineJob>) {
    forall i :: 0 <= i < |jobs| && FirstUnmarked(sys, jobs, i) ==> Refuses(sys, jobs[i])
  }

  predicate AllReceiptsOf(jobs: seq<LineJob>, doc: string) {
    forall job :: job in jobs ==> job.ReceiptJob? && job.receiptId == doc
  }

  /** A batch in a stock stays there while receipt lines are handled. */
  lemma {:induction false} BatchesStay(sys: System, strategy: Strategy, jobs: seq<LineJob>, key: StockKey, b: BatchView)
    requires (forall job :: job in jobs ==> job.ReceiptJob?) && b in BatchesAt(sys.rows, key)
    ensures b in BatchesAt(RunJobs(sys, strategy, jobs).sys.rows, key)
    decreases |jobs|
  {
    hide RunJob, BatchesAt;
    if jobs != [] && RunJob(sys, strategy, jobs[0]).Ok? {
      assert jobs[0] in jobs && forall job :: job in jobs[1..] ==> job in jobs;
      ReceiptsArrive(sys, strategy, jobs[0], key);
      BatchesStay(RunJob(sys, strategy, jobs[0]).value, strategy, jobs[1..], key, b);
    }
  }

  ghost predicate HoldsBatchOf(rows: Rows, doc: string) {
    exists key, b :: b in BatchesAt(rows, key) && b.sourceDocId == doc
  }

  lemma {:induction false} RerunChanges(sys: System, strategy: Strategy, jobs: seq<LineJob>, doc: string)
    requires AllReceiptsOf(jobs, doc)
    ensures FirstUnmarkedRefused(sys, jobs) ==> RunJobs(sys, strategy, jobs).sys == sys
    ensures !FirstUnmarkedRefused(sys, jobs) ==>
              RunJobs(sys, strategy, jobs).sys != sys && HoldsBatchOf(RunJobs(sys, strategy, jobs).sys.rows, doc)
    decreases |jobs|
  {
    if jobs != [] {
      var job, rest := jobs[0], jobs[1..];
      assert job in jobs && forall x :: x in rest ==> x in jobs;
      if JobKey(job) in sys.done {
        FirstIsMarked(sys, jobs);
        RerunChanges(sys, strategy, rest, doc);
      } else if !Refuses(sys, job) {
        var sys' := RunJob(sys, strategy, job).value;
        var b := FreshBatch(sys.nextId, ReceiptDetails(job.receiptId, job.supplierId, job.line, job.at));
        assert b in BatchesAt(sys'.rows, JobStock(job));
        BatchesStay(sys', strategy, rest, JobStock(job), b);
        Deliveries.KeysMarked(sys', strategy, rest);
      }
    }
  }

  lemma FirstIsMarked(sys: System, jobs: seq<LineJob>)
    requires jobs != [] && JobKey(jobs[0]) in sys.done
    ensures FirstUnmarkedRefused(sys, jobs) <==> FirstUnmarkedRefused(sys, jobs[1..])
  {
    var rest := jobs[1..];
    hide Refuses, JobKey;
    if FirstUnmarkedRefused(sys, rest) {
      forall i | 0 <= i < |jobs| && FirstUnmarked(sys, jobs, i)
        ensures Refuses(sys, jobs[i])
      {
        assert rest[i - 1] == jobs[i];
        assert forall j :: 0 <= j < i - 1 ==> rest[j] == jobs[j + 1];
      }
    }
    if FirstUnmarkedRefused(sys, jobs) {
      forall i | 0 <= i < |rest| && FirstUnmarked(sys, rest, i)
        ensures Refuses(sys, rest[i])
      {
        assert jobs[i + 1] == rest[i];
        assert forall j :: 0 < j < i + 1 ==> jobs[j] == rest[j - 1];
      }
    }
  }

  /**
   After a cancellation, delivering the cancellation again changes nothing. Delivering the receipt again,
   wholly or in part, changes nothing exactly when every line it reaches is marked, or the first that is not
   is refused for its unit; otherwise batches of the cancelled receipt come back.
   */
  lemma CancellationIsFinal(sys: System, strategy: Strategy, e: ReceiptPosted, skus: seq<string>, stop: nat)
    requires stop <= |e.lines|
    ensures var done := CancelWholly(sys, e.receiptId, e.branchId, skus);
            var jobs := ReceiptJobs(e)[..stop];
            && (forall again: nat :: HandleCancellation(done, e.receiptId, e.branchId, skus, again) == done)
            && (RunJobs(done, strategy, jobs).sys == done <==> FirstUnmarkedRefused(done, jobs))
            && (!FirstUnmarkedRefused(done, jobs) ==> HoldsBatchOf(RunJobs(done, strategy, jobs).sys.rows, e.receiptId))
  {
    var done := CancelWholly(sys, e.receiptId, e.branchId, skus);
    hide RunJobs, RemoveReceipt, FirstUnmarkedRefused, HoldsBatchOf;
    JobsOfReceipt(e, stop);
    RerunChanges(done, strategy, ReceiptJobs(e)[..stop], e.receiptId);
  }
}
