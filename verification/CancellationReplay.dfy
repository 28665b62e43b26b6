/**
 The run with a posted and cancelled receipt against the same run without it: the stocks of the branch end
 up holding the same batches in the same order, apart from the ids the generator happened to give them.
 */
module CancellationReplay {
  import opened StockTypes
  import opened BatchSelection
  import opened StockSpec
  import opened Documents
  import opened Inventory
  import opened Interleavings
  import opened CancellationLaws
  import Sequences

  /** The batches without their ids. */
  function Contents(bs: seq<BatchView>): seq<BatchView> {
    seq(|bs|, i requires 0 <= i < |bs| => bs[i].(id := 0))
  }

  lemma ContentsAppend(xs: seq<BatchView>, ys: seq<BatchView>)
    ensures Contents(xs + ys) == Contents(xs) + Contents(ys)
  {
  }

  lemma {:induction false} IncomingContents(unit: Unit, id: nat, id': nat, details: seq<TransferDetail>, at: int)
    ensures Contents(Incoming(unit, id, details, at)) == Contents(Incoming(unit, id', details, at))
    decreases |details|
  {
    if details != [] && details[0].quantity.unit == unit {
      var tail, tail' := Incoming(unit, id + 1, details[1..], at), Incoming(unit, id' + 1, details[1..], at);
      IncomingContents(unit, id + 1, id' + 1, details[1..], at);
      ContentsAppend([IncomingBatch(id, details[0], at)], tail);
      ContentsAppend([IncomingBatch(id', details[0], at)], tail');
    }
  }

  // ---------------------------------------------------------------- acts of one branch

  /** The stocks that only the receipt has opened, and the units they were opened in. */
  type Opened = map<StockKey, Unit>

  /** A line of another receipt in the branch, or a transfer into it from another. */
  predicate Replayable(act: Act, branch: string, doc: string) {
    match act
    case HandleLine(job) => job.ReceiptJob? && job.receiptId != doc && job.branch == branch
    case HandleTransferEvent(e, _) => e.toBranchId == branch != e.fromBranchId && doc != "TRANSFER"
    case HandleCancelEvent(_, _, _, _) => false
  }

  /** Where the run without the receipt would open the stock now, it would do so in the receipt's unit. */
  predicate FitsNow(sys: System, units: Opened, key: StockKey, unit: Unit) {
    key in units && key !in sys.rows ==> unit == units[key]
  }

  /** The lines of a transfer that open a stock do so in the receipt's unit, up to the line that throws. */
  predicate LinesFit(sys: System, strategy: Strategy, e: TransferPosted, lines: seq<TransferLine>, units: Opened)
    decreases |lines|
  {
    lines != [] ==>
      var line, h := lines[0], MoveLine(sys, strategy, e, lines[0]);
      && (WithdrawError(Load(sys, StockKey(line.sku, e.fromBranchId), line.quantity.unit), line.quantity).Some?
          || FitsNow(sys, units, StockKey(line.sku, e.toBranchId), line.quantity.unit))
      && (h.error.None? ==> LinesFit(h.sys, strategy, e, lines[1..], units))
  }

  predicate ActFits(sys: System, strategy: Strategy, act: Act, units: Opened) {
    match act
    case HandleLine(job) => JobKey(job) in sys.done || FitsNow(sys, units, JobStock(job), JobUnit(job))
    case HandleTransferEvent(e, stop) =>
      TransferKey(e.transferId) in sys.done
      || LinesFit(sys, strategy, e, if stop <= |e.lines| then e.lines[..stop] else e.lines, units)
    case HandleCancelEvent(_, _, _, _) => true
  }

  /** Over the run without the receipt, every stock the receipt had opened is opened in the receipt's unit. */
  predicate RunFits(sys: System, strategy: Strategy, acts: seq<Act>, units: Opened)
    decreases |acts|
  {
    acts != [] ==>
      && ActFits(sys, strategy, acts[0], units)
      && RunFits(Do(sys, strategy, acts[0]), strategy, acts[1..], units)
  }

  predicate KeyOfDoc(key: DocKey, doc: string) {
    key.ReceiptLineKey? && key.receiptId == doc
  }

  /** Other branches alike; in the branch the same contents but for the document, in the same unit. */
  ghost predicate RowsAlike(a: Rows, b: Rows, branch: string, doc: string, units: Opened) {
    && (forall k: StockKey :: k.branch != branch ==> (k in a <==> k in b) && (k in a ==> a[k] == b[k]))
    && (forall k: StockKey :: k.branch == branch ==> Contents(Others(a, k, doc)) == Contents(BatchesAt(b, k)))
    && (forall k: StockKey :: k.branch == branch && k in b ==> k in a && a[k].baseUnit == b[k].baseUnit)
    && (forall k: StockKey :: k.branch == branch && k in a && k !in b ==> k in units && a[k].baseUnit == units[k])
    && (forall k: StockKey :: k in units ==> k.branch == branch && k in a)
  }

  ghost predicate Alike(a: System, b: System, branch: string, doc: string, units: Opened) {
    && RowsAlike(a.rows, b.rows, branch, doc, units)
    && forall key :: !KeyOfDoc(key, doc) ==> (key in a.done <==> key in b.done)
  }

  /** Both systems let a line in, or neither does. */
  lemma SameUnit(a: Rows, b: Rows, x: System, y: System, key: StockKey, unit: Unit, branch: string, doc: string,
                 units: Opened)
    requires RowsAlike(a, b, branch, doc, units) && x.rows == a && y.rows == b
    requires key.branch == branch && FitsNow(y, units, key, unit)
    ensures Load(x, key, unit).baseUnit == Load(y, key, unit).baseUnit
  {
  }

  /** The same contents added on both sides leave the same contents. */
  lemma AddedAlike(held: seq<BatchView>, held': seq<BatchView>, xs: seq<BatchView>, ys: seq<BatchView>, doc: string)
    requires Contents(Sequences.Filter(held, NotFrom(doc))) == Contents(held') && Contents(xs) == Contents(ys)
             && NoneFrom(xs, doc)
    ensures Contents(Sequences.Filter(held + xs, NotFrom(doc))) == Contents(held' + ys)
  {
    Sequences.FilterAppend(held, xs, NotFrom(doc));
    Sequences.FilterAll(xs, NotFrom(doc));
    hide Sequences.Filter;
    ContentsAppend(Sequences.Filter(held, NotFrom(doc)), xs);
    ContentsAppend(held', ys);
  }

  /** Storing the stock of one key with the same contents added on both sides, in the same unit. */
  lemma StoreAlike(a: Rows, b: Rows, branch: string, doc: string, units: Opened, key: StockKey,
                   s: StockState, t: StockState, xs: seq<BatchView>, ys: seq<BatchView>)
    requires RowsAlike(a, b, branch, doc, units) && key.branch == branch
    requires s.batches == BatchesAt(a, key) + xs && t.batches == BatchesAt(b, key) + ys && s.baseUnit == t.baseUnit
    requires Contents(xs) == Contents(ys) && NoneFrom(xs, doc)
    ensures RowsAlike(a[key := s], b[key := t], branch, doc, units)
  {
    hide Contents, Sequences.Filter, NoneFrom;
    assert Contents(Others(a, key, doc)) == Contents(BatchesAt(b, key));
    AddedAlike(BatchesAt(a, key), BatchesAt(b, key), xs, ys, doc);
  }

  lemma StoreElsewhere(a: Rows, b: Rows, branch: string, doc: string, units: Opened, key: StockKey, s: StockState)
    requires RowsAlike(a, b, branch, doc, units) && key.branch != branch
    ensures RowsAlike(a[key := s], b[key := s], branch, doc, units)
  {
    hide Contents, Others, BatchesAt;
    forall k: StockKey | k.branch == branch
      ensures Contents(Others(a[key := s], k, doc)) == Contents(BatchesAt(b[key := s], k))
    {
      OtherRow(a, key, s, k, doc);
      OtherRow(b, key, s, k, doc);
    }
  }

  lemma OtherRow(rows: Rows, key: StockKey, s: StockState, k: StockKey, doc: string)
    requires k != key
    ensures BatchesAt(rows[key := s], k) == BatchesAt(rows, k) && Others(rows[key := s], k, doc) == Others(rows, k, doc)
  {
  }

  lemma FreshContents(id: nat, id': nat, d: ReceiveDetails)
    ensures Contents([FreshBatch(id, d)]) == Contents([FreshBatch(id', d)])
  {
  }

  lemma ReceiptAlike(a: System, b: System, strategy: Strategy, job: LineJob, branch: string, doc: string, units: Opened)
    requires Alike(a, b, branch, doc, units) && Replayable(HandleLine(job), branch, doc)
    requires ActFits(b, strategy, HandleLine(job), units)
    ensures Alike(Do(a, strategy, HandleLine(job)), Do(b, strategy, HandleLine(job)), branch, doc, units)
  {
    hide RowsAlike, Contents, NewAverage, Total;
    var key, d := JobStock(job), ReceiptDetails(job.receiptId, job.supplierId, job.line, job.at);
    assert !KeyOfDoc(JobKey(job), doc);
    if JobKey(job) !in a.done {
      SameUnit(a.rows, b.rows, a, b, key, JobUnit(job), branch, doc, units);
    }
    if JobKey(job) !in a.done && JobResult(a, strategy, job).Ok? {
      var x, y := FreshBatch(a.nextId, d), FreshBatch(b.nextId, d);
      FreshContents(a.nextId, b.nextId, d);
      StoreAlike(a.rows, b.rows, branch, doc, units, key, JobResult(a, strategy, job).value,
                 JobResult(b, strategy, job).value, [x], [y]);
    }
  }

  lemma SameSource(a: System, b: System, key: StockKey, unit: Unit, branch: string, doc: string, units: Opened)
    requires RowsAlike(a.rows, b.rows, branch, doc, units) && key.branch != branch
    ensures Load(a, key, unit) == Load(b, key, unit)
  {
  }

  /** A line that is let in by both: the same lowered source, the same contents arriving. */
  lemma StoredAlike(a: System, b: System, branch: string, doc: string, units: Opened, from: StockKey, to: StockKey,
                    unit: Unit, lowered: StockState, details: seq<TransferDetail>, at: int)
    requires RowsAlike(a.rows, b.rows, branch, doc, units) && from.branch != branch == to.branch && doc != "TRANSFER"
    requires Load(a, to, unit).baseUnit == Load(b, to, unit).baseUnit
    ensures RowsAlike(a.rows[from := lowered][to := TransferredIn(Load(a, to, unit), a.nextId, details, at)],
                      b.rows[from := lowered][to := TransferredIn(Load(b, to, unit), b.nextId, details, at)],
                      branch, doc, units)
  {
    var s, t := Load(a, to, unit), Load(b, to, unit);
    var xs, ys := Incoming(s.baseUnit, a.nextId, details, at), Incoming(t.baseUnit, b.nextId, details, at);
    IncomingContents(s.baseUnit, a.nextId, b.nextId, details, at);
    IncomingMarked(s.baseUnit, a.nextId, details, at);
    StoreElsewhere(a.rows, b.rows, branch, doc, units, from, lowered);
    hide RowsAlike, Contents, Incoming;
    StoreAlike(a.rows[from := lowered], b.rows[from := lowered], branch, doc, units, to,
               TransferredIn(s, a.nextId, details, at), TransferredIn(t, b.nextId, details, at), xs, ys);
  }

  lemma MoveAlike(a: System, b: System, strategy: Strategy, e: TransferPosted, line: TransferLine,
                  branch: string, doc: string, units: Opened)
    requires Alike(a, b, branch, doc, units) && e.toBranchId == branch != e.fromBranchId && doc != "TRANSFER"
    requires WithdrawError(Load(b, StockKey(line.sku, e.fromBranchId), line.quantity.unit), line.quantity).Some?
             || FitsNow(b, units, StockKey(line.sku, branch), line.quantity.unit)
    ensures var h, h' := MoveLine(a, strategy, e, line), MoveLine(b, strategy, e, line);
            && (h.error.None? <==> h'.error.None?)
            && Alike(h.sys, h'.sys, branch, doc, units)
  {
    hide MoveLine, Outgoing, Withdrawn, Incoming, TransferredIn, WithdrawError, AllInUnit, RowsAlike, Contents, Load,
         FitsNow;
    var from, to, unit := StockKey(line.sku, e.fromBranchId), StockKey(line.sku, branch), line.quantity.unit;
    var source, amount, at := Load(a, from, unit), line.quantity.amount, e.postedAt;
    SameSource(a, b, from, unit, branch, doc, units);
    MoveLineCases(a, strategy, e, line, source, Load(a, to, unit));
    MoveLineCases(b, strategy, e, line, source, Load(b, to, unit));
    if WithdrawError(source, line.quantity).None? {
      SameUnit(a.rows, b.rows, a, b, to, unit, branch, doc, units);
      StoredAlike(a, b, branch, doc, units, from, to, unit, Withdrawn(source, amount, strategy, at),
                  Outgoing(source, amount, strategy, at), at);
    }
  }

  lemma {:induction false} MovesAlike(a: System, b: System, strategy: Strategy, e: TransferPosted,
                                      lines: seq<TransferLine>, branch: string, doc: string, units: Opened)
    requires Alike(a, b, branch, doc, units) && e.toBranchId == branch != e.fromBranchId && doc != "TRANSFER"
    requires LinesFit(b, strategy, e, lines, units)
    ensures var h, h' := MoveLines(a, strategy, e, lines), MoveLines(b, strategy, e, lines);
            && (h.error.None? <==> h'.error.None?)
            && Alike(h.sys, h'.sys, branch, doc, units)
    decreases |lines|
  {
    hide MoveLine, Alike, FitsNow, WithdrawError, Load;
    if lines != [] {
      MoveAlike(a, b, strategy, e, lines[0], branch, doc, units);
      if MoveLine(a, strategy, e, lines[0]).error.None? {
        MovesAlike(MoveLine(a, strategy, e, lines[0]).sys, MoveLine(b, strategy, e, lines[0]).sys, strategy, e,
                   lines[1..], branch, doc, units);
      }
    }
  }

  lemma TransferAlike(a: System, b: System, strategy: Strategy, e: TransferPosted, stop: nat,
                      branch: string, doc: string, units: Opened)
    requires Alike(a, b, branch, doc, units) && Replayable(HandleTransferEvent(e, stop), branch, doc)
    requires ActFits(b, strategy, HandleTransferEvent(e, stop), units)
    ensures Alike(HandleTransfer(a, strategy, e, stop).sys, HandleTransfer(b, strategy, e, stop).sys, branch,
                  doc, units)
  {
    hide MoveLines, RowsAlike, LinesFit;
    assert !KeyOfDoc(TransferKey(e.transferId), doc);
    if TransferKey(e.transferId) !in b.done {
      MovesAlike(a, b, strategy, e, if stop <= |e.lines| then e.lines[..stop] else e.lines, branch, doc, units);
    }
  }

  lemma {:induction false} RunsAlike(a: System, b: System, strategy: Strategy, acts: seq<Act>,
                                     branch: string, doc: string, units: Opened)
    requires Alike(a, b, branch, doc, units) && forall act :: act in acts ==> Replayable(act, branch, doc)
    requires RunFits(b, strategy, acts, units)
    ensures Alike(DoAll(a, strategy, acts), DoAll(b, strategy, acts), branch, doc, units)
    decreases |acts|
  {
    hide Alike, Replayable, ActFits, RunJob, HandleTransfer, HandleCancellation;
    if acts != [] {
      var act := acts[0];
      assert act in acts && forall x :: x in acts[1..] ==> x in acts;
      assert !act.HandleCancelEvent? by {
        NoCancels(act, branch, doc);
      }
      if act.HandleLine? {
        ReceiptAlike(a, b, strategy, act.job, branch, doc, units);
      } else {
        TransferAlike(a, b, strategy, act.event, act.stop, branch, doc, units);
      }
      RunsAlike(Do(a, strategy, act), Do(b, strategy, act), strategy, acts[1..], branch, doc, units);
    }
  }

  lemma NoCancels(act: Act, branch: string, doc: string)
    requires Replayable(act, branch, doc)
    ensures !act.HandleCancelEvent?
  {
  }

  // ---------------------------------------------------------------- posting

  /** The stocks of the branch that posting has opened, and their units. */
  ghost function OpenedBy(before: Rows, after: Rows): Opened {
    map k | k in after && k !in before :: after[k].baseUnit
  }

  /** Posting changes stocks of its own branch only, keeps their units, and marks keys of its own only. */
  lemma {:induction false} PostingStays(sys: System, strategy: Strategy, jobs: seq<LineJob>, branch: string,
                                        doc: string)
    requires AllReceiptsOf(jobs, doc) && forall job :: job in jobs ==> job.branch == branch
    ensures var posted := RunJobs(sys, strategy, jobs).sys;
            && (forall k: StockKey :: k.branch != branch ==>
                  (k in posted.rows <==> k in sys.rows) && (k in sys.rows ==> posted.rows[k] == sys.rows[k]))
            && (forall k :: k in sys.rows ==> k in posted.rows && posted.rows[k].baseUnit == sys.rows[k].baseUnit)
            && (forall key :: !KeyOfDoc(key, doc) ==> (key in posted.done <==> key in sys.done))
    decreases |jobs|
  {
    hide RunJob, KeyOfDoc;
    if jobs != [] && RunJob(sys, strategy, jobs[0]).Ok? {
      assert jobs[0] in jobs && forall job :: job in jobs[1..] ==> job in jobs;
      var next := RunJob(sys, strategy, jobs[0]).value;
      LineStays(sys, next, strategy, jobs[0], branch, doc);
      PostingStays(next, strategy, jobs[1..], branch, doc);
    }
  }

  lemma LineStays(sys: System, next: System, strategy: Strategy, job: LineJob, branch: string, doc: string)
    requires job.ReceiptJob? && job.receiptId == doc && job.branch == branch
    requires RunJob(sys, strategy, job).Ok? && next == RunJob(sys, strategy, job).value
    ensures forall k: StockKey :: k.branch != branch ==>
              (k in next.rows <==> k in sys.rows) && (k in sys.rows ==> next.rows[k] == sys.rows[k])
    ensures forall k :: k in sys.rows ==> k in next.rows && next.rows[k].baseUnit == sys.rows[k].baseUnit
    ensures forall key :: !KeyOfDoc(key, doc) ==> (key in next.done <==> key in sys.done)
  {
    hide NewAverage, Total;
  }

  lemma PostedAlike(sys: System, strategy: Strategy, e: ReceiptPosted, stop: nat)
    requires Absent(sys.rows, e.receiptId) && stop <= |e.lines|
    ensures var posted := RunJobs(sys, strategy, ReceiptJobs(e)[..stop]).sys;
            Alike(posted, sys, e.branchId, e.receiptId, OpenedBy(sys.rows, posted.rows))
  {
    hide RunJobs, Contents, Others, BatchesAt, Absent;
    var jobs := ReceiptJobs(e)[..stop];
    var posted := RunJobs(sys, strategy, jobs).sys;
    JobsOfReceipt(e, stop);
    PostingStays(sys, strategy, jobs, e.branchId, e.receiptId);
    forall k: StockKey ensures Others(posted.rows, k, e.receiptId) == BatchesAt(sys.rows, k) {
      PostingAdds(sys, strategy, e, jobs, k);
      AbsentIsOthers(sys.rows, k, e.receiptId);
    }
  }

  /**
   As if it had not been posted: post a receipt, whole or in part, run any lines of other receipts in the branch
   and any transfers into it, stopped, thrown out of or repeated, and cancel. If, in the same run made without
   posting the receipt, the stocks the receipt had opened are opened in its units, then each stock of the branch
   holds the same batches as after that run, in the same order and with the same contents.
   */
  lemma AsIfNeverPosted(sys: System, strategy: Strategy, e: ReceiptPosted, stop: nat, acts: seq<Act>, key: StockKey)
    requires Absent(sys.rows, e.receiptId) && stop <= |e.lines| && key.branch == e.branchId
    requires ReceiptCancelKey(e.receiptId) !in sys.done
    requires forall act :: act in acts ==> Replayable(act, e.branchId, e.receiptId)
    ensures var posted := RunJobs(sys, strategy, ReceiptJobs(e)[..stop]).sys;
            var after := CancelWholly(DoAll(posted, strategy, acts), e.receiptId, e.branchId, LineSkus(e));
            RunFits(sys, strategy, acts, OpenedBy(sys.rows, posted.rows)) ==>
              Contents(BatchesAt(after.rows, key)) == Contents(BatchesAt(DoAll(sys, strategy, acts).rows, key))
  {
    var doc, branch := e.receiptId, e.branchId;
    var posted := RunJobs(sys, strategy, ReceiptJobs(e)[..stop]).sys;
    var units := OpenedBy(sys.rows, posted.rows);
    CancelledIsOthers(sys, strategy, e, stop, acts, key);
    PostedAlike(sys, strategy, e, stop);
    hide RunJobs, DoAll, Contents, Others, BatchesAt, Replayable, LineSkus, CancelWholly, RunFits, Absent;
    if RunFits(sys, strategy, acts, units) {
      RunsAlike(posted, sys, strategy, acts, branch, doc, units);
    }
  }

  /** After the cancellation each stock of the branch holds what is not of the receipt. */
  lemma CancelledIsOthers(sys: System, strategy: Strategy, e: ReceiptPosted, stop: nat, acts: seq<Act>, key: StockKey)
    requires Absent(sys.rows, e.receiptId) && stop <= |e.lines| && key.branch == e.branchId
    requires ReceiptCancelKey(e.receiptId) !in sys.done
    requires forall act :: act in acts ==> Replayable(act, e.branchId, e.receiptId)
    ensures var before := DoAll(RunJobs(sys, strategy, ReceiptJobs(e)[..stop]).sys, strategy, acts);
            BatchesAt(CancelWholly(before, e.receiptId, e.branchId, LineSkus(e)).rows, key)
                == Others(before.rows, key, e.receiptId)
  {
    var doc, branch := e.receiptId, e.branchId;
    var jobs := ReceiptJobs(e)[..stop];
    var posted := RunJobs(sys, strategy, jobs).sys;
    var before := DoAll(posted, strategy, acts);
    JobsOfReceipt(e, stop);
    PostingStays(sys, strategy, jobs, branch, doc);
    assert !KeyOfDoc(ReceiptCancelKey(doc), doc);
    hide RunJobs, DoAll, RemoveReceipt, Others, BatchesAt, Replayable, LineSkus, Absent;
    CancelKeyStays(posted, strategy, acts, branch, doc);
    RemovedAt(before.rows, doc, branch, LineSkus(e), key);
    if key.sku !in LineSkus(e) {
      NothingOfDoc(sys, strategy, e, stop, acts, key);
    }
  }

  lemma {:induction false} CancelKeyStays(sys: System, strategy: Strategy, acts: seq<Act>, branch: string, doc: string)
    requires ReceiptCancelKey(doc) !in sys.done && forall act :: act in acts ==> Replayable(act, branch, doc)
    ensures ReceiptCancelKey(doc) !in DoAll(sys, strategy, acts).done
    decreases |acts|
  {
    hide MoveLines, JobResult;
    if acts != [] {
      var act := acts[0];
      assert act in acts && forall x :: x in acts[1..] ==> x in acts;
      if act.HandleTransferEvent? {
        TransfersKeepKeys(sys, strategy, act.event, act.event.lines);
        if act.stop <= |act.event.lines| {
          TransfersKeepKeys(sys, strategy, act.event, act.event.lines[..act.stop]);
        }
      }
      CancelKeyStays(Do(sys, strategy, act), strategy, acts[1..], branch, doc);
    }
  }

  /** A stock the receipt does not name holds nothing of it. */
  lemma NothingOfDoc(sys: System, strategy: Strategy, e: ReceiptPosted, stop: nat, acts: seq<Act>, key: StockKey)
    requires Absent(sys.rows, e.receiptId) && stop <= |e.lines| && key.branch == e.branchId && key.sku !in LineSkus(e)
    requires forall act :: act in acts ==> Replayable(act, e.branchId, e.receiptId)
    ensures var before := DoAll(RunJobs(sys, strategy, ReceiptJobs(e)[..stop]).sys, strategy, acts);
            Others(before.rows, key, e.receiptId) == BatchesAt(before.rows, key)
  {
    var doc, jobs := e.receiptId, ReceiptJobs(e)[..stop];
    var posted := RunJobs(sys, strategy, jobs).sys;
    JobsOfReceipt(e, stop);
    forall act | act in acts ensures Arriving(act, key.branch, doc) {
      assert Replayable(act, e.branchId, doc);
    }
    hide RunJobs, DoAll, Arriving, Replayable, LineSkus, BatchesAt;
    PostingAdds(sys, strategy, e, jobs, key);
    RunArrives(posted, strategy, acts, key, doc);
    var held, arrived := BatchesAt(sys.rows, key), Arrived(posted, strategy, acts, key);
    AbsentIsOthers(sys.rows, key, doc);
    Sequences.FilterAppend(held, arrived, NotFrom(doc));
    ArrivedOthers(arrived, doc);
  }

  // ---------------------------------------------------------------- runs of receipt lines: exactly when

  function Lines(jobs: seq<LineJob>): seq<Act> {
    seq(|jobs|, i requires 0 <= i < |jobs| => HandleLine(jobs[i]))
  }

  predicate OtherReceipts(jobs: seq<LineJob>, branch: string, doc: string) {
    forall job :: job in jobs ==> job.ReceiptJob? && job.receiptId != doc && job.branch == branch
  }

  /** The line is the first not marked yet that addresses its stock. */
  predicate IsFirst(done: set<DocKey>, jobs: seq<LineJob>, i: nat)
    requires i < |jobs|
  {
    && JobKey(jobs[i]) !in done
    && forall j :: 0 <= j < i && JobStock(jobs[j]) == JobStock(jobs[i]) ==> JobKey(jobs[j]) in done
  }

  /**
   For every stock that only the receipt has opened, the first unmarked line addressing it, if any, is in its unit.
   */
  predicate FirstsFit(done: set<DocKey>, jobs: seq<LineJob>, units: Opened) {
    forall i :: 0 <= i < |jobs| && JobStock(jobs[i]) in units && IsFirst(done, jobs, i) ==>
      JobUnit(jobs[i]) == units[JobStock(jobs[i])]
  }

  /** The stocks that are still to be opened. */
  ghost function StillClosed(units: Opened, sys: System): Opened {
    map k | k in units && k !in sys.rows :: units[k]
  }

  /** The first line is skipped: the later ones are first when they were. */
  lemma FirstsAfterSkipped(done: set<DocKey>, jobs: seq<LineJob>, units: Opened)
    requires jobs != [] && JobKey(jobs[0]) in done
    ensures FirstsFit(done, jobs, units) <==> FirstsFit(done, jobs[1..], units)
  {
    var rest := jobs[1..];
    hide JobKey, JobStock, JobUnit;
    assert forall i :: 0 < i < |jobs| ==> jobs[i] == rest[i - 1];
    forall i | 0 < i < |jobs| ensures IsFirst(done, jobs, i) <==> IsFirst(done, rest, i - 1) {
      assert forall j :: 0 <= j < i - 1 ==> rest[j] == jobs[j + 1];
    }
    forall i | 0 <= i < |rest|
      ensures rest[i] == jobs[i + 1] && (IsFirst(done, rest, i) <==> IsFirst(done, jobs, i + 1))
    {
    }
  }

  /** The first line is not marked: it is first for its own stock, and makes no difference to the others. */
  lemma FirstsAfterApplied(done: set<DocKey>, done': set<DocKey>, jobs: seq<LineJob>, units: Opened, branch: string,
                           doc: string)
    requires jobs != [] && OtherReceipts(jobs, branch, doc) && JobKey(jobs[0]) !in done
    requires done' == done || done' == done + {JobKey(jobs[0])}
    ensures FirstsFit(done, jobs, units) <==>
              && (JobStock(jobs[0]) in units ==> JobUnit(jobs[0]) == units[JobStock(jobs[0])])
              && FirstsFit(done', jobs[1..], units - {JobStock(jobs[0])})
  {
    var rest, k := jobs[1..], JobStock(jobs[0]);
    assert forall i :: 0 <= i < |rest| ==> rest[i] == jobs[i + 1] && rest[i] in jobs;
    forall i | 0 <= i < |rest| && JobStock(rest[i]) != k
      ensures IsFirst(done', rest, i) <==> IsFirst(done, jobs, i + 1)
    {
      OtherStock(done, done', jobs, i, branch, doc);
    }
    assert IsFirst(done, jobs, 0);
    hide JobKey, JobStock, JobUnit;
    if FirstsFit(done, jobs, units) {
      forall i | 0 <= i < |rest| && JobStock(rest[i]) in units - {k} && IsFirst(done', rest, i)
        ensures JobUnit(rest[i]) == (units - {k})[JobStock(rest[i])]
      {
        assert IsFirst(done, jobs, i + 1);
      }
    }
    if (k in units ==> JobUnit(jobs[0]) == units[k]) && FirstsFit(done', rest, units - {k}) {
      forall i | 0 <= i < |jobs| && JobStock(jobs[i]) in units && IsFirst(done, jobs, i)
        ensures JobUnit(jobs[i]) == units[JobStock(jobs[i])]
      {
        if i > 0 {
          assert jobs[i] == rest[i - 1] && JobStock(jobs[i]) != k;
        }
      }
    }
  }

  lemma OtherStock(done: set<DocKey>, done': set<DocKey>, jobs: seq<LineJob>, i: nat, branch: string, doc: string)
    requires jobs != [] && i < |jobs[1..]| && OtherReceipts(jobs, branch, doc)
    requires done' == done || done' == done + {JobKey(jobs[0])}
    requires JobStock(jobs[1..][i]) != JobStock(jobs[0])
    ensures IsFirst(done', jobs[1..], i) <==> IsFirst(done, jobs, i + 1)
  {
    var rest := jobs[1..];
    assert forall j :: 0 <= j < |rest| ==> rest[j] == jobs[j + 1] && rest[j] in jobs && jobs[0] in jobs;
    forall j | 0 <= j < |rest| && JobStock(rest[j]) != JobStock(jobs[0])
      ensures JobKey(rest[j]) in done' <==> JobKey(rest[j]) in done
    {
    }
    assert forall j :: 0 < j <= |rest| ==> jobs[j] == rest[j - 1];
  }

  /** Seen from the start of the run without the receipt, the condition is about those first lines. */
  lemma {:induction false} FitsMeansFirsts(sys: System, strategy: Strategy, jobs: seq<LineJob>, units: Opened,
                                           branch: string, doc: string)
    requires OtherReceipts(jobs, branch, doc)
    ensures RunFits(sys, strategy, Lines(jobs), units) <==> FirstsFit(sys.done, jobs, StillClosed(units, sys))
    decreases |jobs|
  {
    if jobs != [] {
      var job, rest, next := jobs[0], jobs[1..], Do(sys, strategy, HandleLine(jobs[0]));
      assert job in jobs && forall x :: x in rest ==> x in jobs;
      assert Lines(jobs)[0] == HandleLine(job) && Lines(jobs)[1..] == Lines(rest);
      FitsMeansFirsts(next, strategy, rest, units, branch, doc);
      if JobKey(job) in sys.done {
        FirstsAfterSkipped(sys.done, jobs, StillClosed(units, sys));
      } else {
        FirstsAfterApplied(sys.done, next.done, jobs, StillClosed(units, sys), branch, doc);
        OpensOwn(sys, strategy, job, units);
        hide FirstsFit, RunFits, JobResult;
      }
    }
  }

  /** Handling a receipt line leaves its stock stored if it is applied, and it is refused only where it is stored. */
  lemma OpensOwn(sys: System, strategy: Strategy, job: LineJob, units: Opened)
    requires job.ReceiptJob? && JobKey(job) !in sys.done
    ensures var next := Do(sys, strategy, HandleLine(job));
            && (next.done == sys.done || next.done == sys.done + {JobKey(job)})
            && StillClosed(units, next) == StillClosed(units, sys) - {JobStock(job)}
  {
    hide NewAverage, Total;
  }

  /** The two runs have come apart at a stock: other batches in the receipt's unit, against a first one in another. */
  ghost predicate Apart(a: System, b: System, key: StockKey, unit: Unit, doc: string) {
    && key in a.rows && a.rows[key].baseUnit == unit
    && (forall x :: x in Others(a.rows, key, doc) ==> x.initial.unit == unit)
    && key in b.rows && b.rows[key].batches != [] && b.rows[key].batches[0].initial.unit != unit
  }

  lemma ApartDiffers(a: System, b: System, key: StockKey, unit: Unit, doc: string)
    requires Apart(a, b, key, unit, doc)
    ensures Contents(Others(a.rows, key, doc)) != Contents(BatchesAt(b.rows, key))
  {
    var xs, ys := Others(a.rows, key, doc), BatchesAt(b.rows, key);
    if |xs| == |ys| {
      assert xs[0] in xs;
      assert Contents(xs)[0].initial.unit == unit != Contents(ys)[0].initial.unit;
    }
  }

  lemma LineApart(a: System, b: System, strategy: Strategy, job: LineJob, key: StockKey, unit: Unit, doc: string)
    requires Apart(a, b, key, unit, doc) && job.ReceiptJob? && job.receiptId != doc
    ensures Apart(Do(a, strategy, HandleLine(job)), Do(b, strategy, HandleLine(job)), key, unit, doc)
  {
    hide NewAverage, Total;
    if JobStock(job) == key && JobKey(job) !in a.done && JobResult(a, strategy, job).Ok? {
      var x := FreshBatch(a.nextId, ReceiptDetails(job.receiptId, job.supplierId, job.line, job.at));
      Sequences.FilterAppend(BatchesAt(a.rows, key), [x], NotFrom(doc));
      Sequences.FilterAll([x], NotFrom(doc));
      assert Others(Do(a, strategy, HandleLine(job)).rows, key, doc) == Others(a.rows, key, doc) + [x];
    }
  }

  lemma {:induction false} LinesApart(a: System, b: System, strategy: Strategy, jobs: seq<LineJob>, key: StockKey,
                                      unit: Unit, branch: string, doc: string)
    requires Apart(a, b, key, unit, doc) && OtherReceipts(jobs, branch, doc)
    ensures Apart(DoAll(a, strategy, Lines(jobs)), DoAll(b, strategy, Lines(jobs)), key, unit, doc)
    decreases |jobs|
  {
    hide Apart, Do;
    if jobs != [] {
      assert jobs[0] in jobs && forall x :: x in jobs[1..] ==> x in jobs;
      assert Lines(jobs)[0] == HandleLine(jobs[0]) && Lines(jobs)[1..] == Lines(jobs[1..]);
      LineApart(a, b, strategy, jobs[0], key, unit, doc);
      LinesApart(Do(a, strategy, HandleLine(jobs[0])), Do(b, strategy, HandleLine(jobs[0])), strategy, jobs[1..],
                 key, unit, branch, doc);
    }
  }

  /** A line that would open the stock in another unit is let in by the one run and refused by the other. */
  lemma ComeApart(a: System, b: System, strategy: Strategy, job: LineJob, branch: string, doc: string, units: Opened)
    requires Alike(a, b, branch, doc, units) && Replayable(HandleLine(job), branch, doc)
    requires !ActFits(b, strategy, HandleLine(job), units)
    ensures var key := JobStock(job);
            key in units && key.branch == branch
            && Apart(Do(a, strategy, HandleLine(job)), Do(b, strategy, HandleLine(job)), key, units[key], doc)
  {
    var key := JobStock(job);
    hide NewAverage, Total;
    assert !KeyOfDoc(JobKey(job), doc);
    assert Contents(Others(a.rows, key, doc)) == Contents(BatchesAt(b.rows, key));
    assert |Others(a.rows, key, doc)| == 0;
  }

  lemma {:induction false} RunsDiffer(a: System, b: System, strategy: Strategy, jobs: seq<LineJob>,
                                      branch: string, doc: string, units: Opened) returns (key: StockKey)
    requires Alike(a, b, branch, doc, units) && OtherReceipts(jobs, branch, doc)
    requires !RunFits(b, strategy, Lines(jobs), units)
    ensures key in units && key.branch == branch
    ensures Contents(Others(DoAll(a, strategy, Lines(jobs)).rows, key, doc))
         != Contents(BatchesAt(DoAll(b, strategy, Lines(jobs)).rows, key))
    decreases |jobs|
  {
    hide Alike, ActFits, Do, Contents, Others, BatchesAt;
    var job, rest := jobs[0], jobs[1..];
    var a', b' := Do(a, strategy, HandleLine(job)), Do(b, strategy, HandleLine(job));
    assert job in jobs && forall x :: x in rest ==> x in jobs;
    assert Lines(jobs)[0] == HandleLine(job) && Lines(jobs)[1..] == Lines(rest);
    if ActFits(b, strategy, HandleLine(job), units) {
      ReceiptAlike(a, b, strategy, job, branch, doc, units);
      key := RunsDiffer(a', b', strategy, rest, branch, doc, units);
    } else {
      key := JobStock(job);
      ComeApart(a, b, strategy, job, branch, doc, units);
      LinesApart(a', b', strategy, rest, key, units[key], branch, doc);
      ApartDiffers(DoAll(a', strategy, Lines(rest)), DoAll(b', strategy, Lines(rest)), key, units[key], doc);
    }
  }

  lemma AllReplayable(jobs: seq<LineJob>, branch: string, doc: string)
    requires OtherReceipts(jobs, branch, doc)
    ensures forall act :: act in Lines(jobs) ==> Replayable(act, branch, doc)
  {
    forall act | act in Lines(jobs) ensures Replayable(act, branch, doc) {
      var i :| 0 <= i < |jobs| && Lines(jobs)[i] == act;
      assert jobs[i] in jobs;
    }
  }

  /**
   For runs of receipt lines, exactly: after posting, any lines of other receipts, and cancelling, every stock of the
   branch holds the contents it would hold without the posting if and only if, for every stock that the receipt
   opened, the first unmarked line that addresses it, if there is one, is in the unit it was opened in.
   */
  lemma NeverPostedExactly(sys: System, strategy: Strategy, e: ReceiptPosted, stop: nat, jobs: seq<LineJob>)
    requires Absent(sys.rows, e.receiptId) && stop <= |e.lines| && ReceiptCancelKey(e.receiptId) !in sys.done
    requires OtherReceipts(jobs, e.branchId, e.receiptId)
    ensures var posted := RunJobs(sys, strategy, ReceiptJobs(e)[..stop]).sys;
            var after := CancelWholly(DoAll(posted, strategy, Lines(jobs)), e.receiptId, e.branchId, LineSkus(e));
            (forall key: StockKey :: key.branch == e.branchId ==>
               Contents(BatchesAt(after.rows, key)) == Contents(BatchesAt(DoAll(sys, strategy, Lines(jobs)).rows, key)))
            <==> FirstsFit(sys.done, jobs, OpenedBy(sys.rows, posted.rows))
  {
    var doc, branch, acts := e.receiptId, e.branchId, Lines(jobs);
    var posted := RunJobs(sys, strategy, ReceiptJobs(e)[..stop]).sys;
    var units := OpenedBy(sys.rows, posted.rows);
    FitsMeansFirsts(sys, strategy, jobs, units, branch, doc);
    assert StillClosed(units, sys) == units;
    hide RunJobs, DoAll, Contents, Others, BatchesAt, Replayable, LineSkus, CancelWholly, RunFits, Absent,
         FirstsFit, Lines, OtherReceipts;
    AllReplayable(jobs, branch, doc);
    if RunFits(sys, strategy, acts, units) {
      forall key: StockKey | key.branch == branch
        ensures Contents(BatchesAt(CancelWholly(DoAll(posted, strategy, acts), doc, branch, LineSkus(e)).rows, key))
             == Contents(BatchesAt(DoAll(sys, strategy, acts).rows, key))
      {
        AsIfNeverPosted(sys, strategy, e, stop, acts, key);
      }
    } else {
      PostedAlike(sys, strategy, e, stop);
      var key := RunsDiffer(posted, sys, strategy, jobs, branch, doc, units);
      CancelledIsOthers(sys, strategy, e, stop, acts, key);
    }
  }
}
