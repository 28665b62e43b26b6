/**
 A refused line of a transfer, whatever else the handlers do: when a delivery gets past it, and how long it
 keeps the lines after it from being moved.
 */
module TransferRefusals {
  import opened BatchSelection
  import opened StockTypes
  import opened StockSpec
  import opened Documents
  import opened Inventory
  import opened Interleavings
  import opened TransferRedelivery
  import CancellationLaws
  import Deliveries
  import Sagas
  import Sequences
  import StockEffects
  import StockRuns
  import SystemLedger
  import TransferLaws

  // ---------------------------------------------------------------- one delivery, in any state

  /** A transfer between two branches whose lines name different SKUs. */
  predicate Plain(e: TransferPosted) {
    e.fromBranchId != e.toBranchId && DistinctLines(e.lines) && ProperLines(e.lines)
  }

  /** No line up to and including i would be refused now. */
  predicate Passable(sys: System, strategy: Strategy, e: TransferPosted, i: int)
    requires i < |e.lines|
  {
    forall j :: 0 <= j <= i ==> !Throws(sys, strategy, e, e.lines[j])
  }

  lemma DeliveryRuns(sys: System, strategy: Strategy, e: TransferPosted, stop: nat)
    requires TransferKey(e.transferId) !in sys.done
    ensures var after := HandleTransfer(sys, strategy, e, stop).sys;
            var moved := MoveLines(sys, strategy, e, e.lines[..if stop <= |e.lines| then stop else |e.lines|]).sys;
            after.rows == moved.rows && after.nextId == moved.nextId
  {
    hide MoveLines;
    assert e.lines[..|e.lines|] == e.lines;
  }

  /**
   In any state a delivery moves a line before its stop exactly when no line up to it would be refused, and marks
   the key exactly when it is not stopped and none at all would be.
   */
  lemma DeliveryMoves(sys: System, strategy: Strategy, e: TransferPosted, stop: nat, i: nat)
    requires SystemOk(sys) && Plain(e) && TransferKey(e.transferId) !in sys.done && i < |e.lines|
    ensures var after := HandleTransfer(sys, strategy, e, stop).sys;
            && SystemOk(after)
            && (if i < stop && Passable(sys, strategy, e, i) then MovedOnce(sys, after, e, e.lines[i])
                else SameStocks(sys, after, e.lines[i].sku))
  {
    hide Throws, SystemOk, MovedOnce, SameStocks, DistinctLines, ProperLines, MoveLines, FirstThrow, HandleTransfer;
    var n := if stop <= |e.lines| then stop else |e.lines|;
    var lines := e.lines[..n];
    var k := FirstThrow(sys, strategy, e, lines);
    var moved, after := MoveLines(sys, strategy, e, lines).sys, HandleTransfer(sys, strategy, e, stop).sys;
    DeliveryRuns(sys, strategy, e, stop);
    PrefixProper(e.lines, n);
    PrefixProper(e.lines, k);
    LinesHandled(sys, strategy, e, lines);
    FirstThrowMeans(sys, strategy, e, lines);
    assert lines[..k] == e.lines[..k];
    MarkChangesNothing(sys, moved, after, strategy, e, k);
    MarkedOk(moved, after);
  }

  lemma MarkedOk(sys: System, marked: System)
    requires SystemOk(sys) && marked.rows == sys.rows && marked.nextId == sys.nextId
    ensures SystemOk(marked)
  {
  }

  lemma DeliveryMarks(sys: System, strategy: Strategy, e: TransferPosted, stop: nat)
    requires SystemOk(sys) && Plain(e) && TransferKey(e.transferId) !in sys.done
    ensures TransferKey(e.transferId) in HandleTransfer(sys, strategy, e, stop).sys.done
       <==> stop > |e.lines| && Passable(sys, strategy, e, |e.lines| - 1)
  {
    hide Throws, SystemOk, MovedOnce, SameStocks, DistinctLines, ProperLines, MoveLines, FirstThrow;
    var n := if stop <= |e.lines| then stop else |e.lines|;
    PrefixProper(e.lines, n);
    LinesHandled(sys, strategy, e, e.lines[..n]);
    assert n == |e.lines| ==> e.lines[..n] == e.lines;
    FirstThrowMeans(sys, strategy, e, e.lines);
  }

  lemma DeliveryTouches(sys: System, strategy: Strategy, e: TransferPosted, stop: nat)
    requires SystemOk(sys) && Plain(e) && TransferKey(e.transferId) !in sys.done
    ensures SystemOk(HandleTransfer(sys, strategy, e, stop).sys)
    ensures Untouched(sys, HandleTransfer(sys, strategy, e, stop).sys, e.lines)
  {
    hide Throws, SystemOk, MovedOnce, SameStocks, DistinctLines, ProperLines, MoveLines, FirstThrow, HandleTransfer;
    var n := if stop <= |e.lines| then stop else |e.lines|;
    var k := FirstThrow(sys, strategy, e, e.lines[..n]);
    var moved, after := MoveLines(sys, strategy, e, e.lines[..n]).sys, HandleTransfer(sys, strategy, e, stop).sys;
    DeliveryRuns(sys, strategy, e, stop);
    assert e.lines[..n][..k] == e.lines[..k];
    PrefixProper(e.lines, n);
    PrefixProper(e.lines, k);
    LinesHandled(sys, strategy, e, e.lines[..n]);
    MarkChangesNothing(sys, moved, after, strategy, e, k);
    MarkedOk(moved, after);
  }

  // ---------------------------------------------------------------- acts that bring stock in, and others

  /** The act may add to what a stock holds. */
  predicate Brings(act: Act, key: StockKey) {
    match act
    case HandleLine(job) => JobStock(job) == key && (job.ReceiptJob? || job.delta.delta.amount > 0.0)
    case HandleTransferEvent(e, _) =>
      key.branch == e.toBranchId && exists line :: line in e.lines && line.sku == key.sku
    case HandleCancelEvent(_, _, _, _) => false
  }

  /** Quantities are never negative, and a transfer joins two branches. */
  predicate ProperAct(act: Act) {
    SystemLedger.ProperAct(act) && (act.HandleTransferEvent? ==> ProperLines(act.event.lines))
  }

  lemma LineLowers(sys: System, strategy: Strategy, e: TransferPosted, line: TransferLine, key: StockKey)
    requires SystemOk(sys) && e.fromBranchId != e.toBranchId && line.quantity.amount >= 0.0 && key != ToKey(e, line)
    ensures Deliveries.RowTotal(MoveLine(sys, strategy, e, line).sys, key) <= Deliveries.RowTotal(sys, key)
  {
    hide Deliveries.RowTotal, MoveLine, SystemOk, Unexpired, StateOk;
    if Throws(sys, strategy, e, line) {
      RefusedLeavesStocks(sys, strategy, e, line);
      SameStocksAct(sys, MoveLine(sys, strategy, e, line).sys, strategy, e, line.(sku := key.sku));
    } else {
      TransferLaws.MoveLineMoves(sys, strategy, e, line);
      Elsewhere(sys, MoveLine(sys, strategy, e, line).sys, FromKey(e, line), ToKey(e, line));
      LoadOk(sys, FromKey(e, line), line.quantity.unit);
      RowIsOk(SourceOf(sys, e, line), FromKey(e, line), sys.nextId);
      StockEffects.UnexpiredBounds(SourceOf(sys, e, line), e.postedAt);
    }
  }

  lemma RowIsOk(s: StockState, key: StockKey, next: nat)
    requires RowOk(s, key, next)
    ensures StateOk(s)
  {
  }

  lemma {:induction false} LinesLower(sys: System, strategy: Strategy, e: TransferPosted, lines: seq<TransferLine>,
                                      key: StockKey)
    requires SystemOk(sys) && e.fromBranchId != e.toBranchId && ProperLines(lines)
    requires forall line :: line in lines ==> key != ToKey(e, line)
    ensures Deliveries.RowTotal(MoveLines(sys, strategy, e, lines).sys, key) <= Deliveries.RowTotal(sys, key)
    decreases |lines|
  {
    hide Deliveries.RowTotal, MoveLine, SystemOk;
    if lines != [] {
      assert lines[0] in lines && forall line :: line in lines[1..] ==> line in lines;
      LineLowers(sys, strategy, e, lines[0], key);
      Sagas.MoveLineOk(sys, strategy, e, lines[0]);
      if MoveLine(sys, strategy, e, lines[0]).error.None? {
        LinesLower(MoveLine(sys, strategy, e, lines[0]).sys, strategy, e, lines[1..], key);
      }
    }
  }

  lemma TransferLowers(sys: System, strategy: Strategy, e: TransferPosted, stop: nat, key: StockKey)
    requires SystemOk(sys) && ProperAct(HandleTransferEvent(e, stop)) && !Brings(HandleTransferEvent(e, stop), key)
    ensures Deliveries.RowTotal(HandleTransfer(sys, strategy, e, stop).sys, key) <= Deliveries.RowTotal(sys, key)
  {
    hide MoveLines, SystemOk, Total;
    var lines := if stop <= |e.lines| then e.lines[..stop] else e.lines;
    assert forall line :: line in lines ==> line in e.lines;
    LinesLower(sys, strategy, e, lines, key);
  }

  lemma CancelLowers(sys: System, receiptId: string, branch: string, skus: seq<string>, stop: nat, key: StockKey)
    requires SystemOk(sys)
    ensures Deliveries.RowTotal(HandleCancellation(sys, receiptId, branch, skus, stop), key)
            <= Deliveries.RowTotal(sys, key)
  {
    var named := if stop <= |skus| then skus[..stop] else skus;
    CancellationLaws.NoNewRows(sys.rows, receiptId, branch, named);
    if key in sys.rows {
      CancellationLaws.RemovedRow(sys.rows, receiptId, branch, named, key);
      var s := sys.rows[key];
      RowIsOk(s, key, sys.nextId);
      RemovalLowers(s, receiptId);
    }
    hide RemoveReceipt, SystemOk, Total, WithoutDocument;
  }

  lemma RemovalLowers(s: StockState, doc: string)
    requires StateOk(s)
    ensures Total(WithoutDocument(s, doc)) <= Total(s)
  {
    StockRuns.RemovalTotal(s, doc);
    Sequences.FilterMembers(s.batches, StockRuns.From(doc));
    Sequences.SumNonNegative(Sequences.Filter(s.batches, StockRuns.From(doc)), Amount);
  }

  lemma JobLowers(sys: System, strategy: Strategy, job: LineJob, key: StockKey)
    requires SystemOk(sys) && !Brings(HandleLine(job), key)
    ensures Deliveries.RowTotal(Do(sys, strategy, HandleLine(job)), key) <= Deliveries.RowTotal(sys, key)
  {
    hide RunJob, SystemOk, Deliveries.RowTotal, Unexpired, StateOk;
    if RunJob(sys, strategy, job).Ok? {
      if JobStock(job) != key {
        Deliveries.JobLeaves(sys, strategy, job, key, PCS);
      } else {
        Deliveries.AdjustmentJobMoves(sys, strategy, job);
        LoadOk(sys, key, JobUnit(job));
        RowIsOk(Load(sys, key, JobUnit(job)), key, sys.nextId);
        StockEffects.UnexpiredBounds(Load(sys, key, JobUnit(job)), job.at);
      }
    }
  }

  /** What does not bring stock in does not raise the total. */
  lemma ActLowers(sys: System, strategy: Strategy, act: Act, key: StockKey)
    requires SystemOk(sys) && ProperAct(act)
    ensures SystemOk(Do(sys, strategy, act))
    ensures !Brings(act, key) ==> Deliveries.RowTotal(Do(sys, strategy, act), key) <= Deliveries.RowTotal(sys, key)
  {
    SystemLedger.ActEntry(sys, strategy, act, key.sku);
    hide Deliveries.RowTotal, SystemOk, HandleTransfer, HandleCancellation, RunJob;
    if !Brings(act, key) {
      match act
      case HandleLine(job) => JobLowers(sys, strategy, job, key);
      case HandleTransferEvent(e, stop) => TransferLowers(sys, strategy, e, stop, key);
      case HandleCancelEvent(receiptId, branch, skus, stop) => CancelLowers(sys, receiptId, branch, skus, stop, key);
    }
  }

  // ---------------------------------------------------------------- a run in which a line stays refused

  /** The source holds less than the line asks for. */
  predicate Short(sys: System, e: TransferPosted, line: TransferLine) {
    line.quantity.amount > Deliveries.RowTotal(sys, FromKey(e, line))
  }

  lemma ShortThrows(sys: System, strategy: Strategy, e: TransferPosted, line: TransferLine)
    requires SystemOk(sys) && line.quantity.amount >= 0.0 && Short(sys, e, line)
    ensures Throws(sys, strategy, e, line)
  {
    ThrowsWhen(sys, strategy, e, line);
    TransferLaws.LoadedTotal(sys, FromKey(e, line), line.quantity.unit);
    hide Throws, Total, SystemOk;
  }

  predicate Delivers(act: Act, e: TransferPosted) {
    act.HandleTransferEvent? && act.event == e
  }

  /** One event to one transfer id. */
  predicate SameIdSameEvent(act: Act, e: TransferPosted) {
    act.HandleTransferEvent? && act.event.transferId == e.transferId ==> act.event == e
  }

  lemma OthersDoNotMark(sys: System, strategy: Strategy, act: Act, e: TransferPosted)
    requires SameIdSameEvent(act, e) && !Delivers(act, e) && TransferKey(e.transferId) !in sys.done
    ensures TransferKey(e.transferId) !in Do(sys, strategy, act).done
  {
    hide MoveLines, JobResult, RemoveReceipt;
    if act.HandleTransferEvent? {
      TransfersKeepKeys(sys, strategy, act.event, act.event.lines);
      if act.stop <= |act.event.lines| {
        TransfersKeepKeys(sys, strategy, act.event, act.event.lines[..act.stop]);
      }
    }
  }

  /** Somewhere in the run the transfer is delivered to its end with no line refused. */
  ghost predicate Completes(sys: System, strategy: Strategy, acts: seq<Act>, e: TransferPosted)
    decreases |acts|
  {
    acts != [] &&
    ((Delivers(acts[0], e) && acts[0].stop > |e.lines| && Passable(sys, strategy, e, |e.lines| - 1))
     || Completes(Do(sys, strategy, acts[0]), strategy, acts[1..], e))
  }

  predicate ProperFor(acts: seq<Act>, e: TransferPosted) {
    forall act :: act in acts ==> ProperAct(act) && SameIdSameEvent(act, e)
  }

  lemma {:induction false} MarkStays(sys: System, strategy: Strategy, acts: seq<Act>, key: DocKey)
    requires key in sys.done
    ensures key in DoAll(sys, strategy, acts).done
    decreases |acts|
  {
    if acts != [] {
      MarkKept(sys, strategy, acts[0], key);
      MarkStays(Do(sys, strategy, acts[0]), strategy, acts[1..], key);
    }
  }

  lemma MarkKept(sys: System, strategy: Strategy, act: Act, key: DocKey)
    requires key in sys.done
    ensures key in Do(sys, strategy, act).done
  {
    hide MoveLines, JobResult, RemoveReceipt;
    if act.HandleTransferEvent? {
      TransfersKeepKeys(sys, strategy, act.event, act.event.lines);
      if act.stop <= |act.event.lines| {
        TransfersKeepKeys(sys, strategy, act.event, act.event.lines[..act.stop]);
      }
    }
  }

  /**
   Over any run of the handlers a transfer gets its key marked exactly when some delivery of it, not stopped,
   comes at a moment when none of its lines would be refused.
   */
  lemma {:induction false} MarkedWhenPassable(sys: System, strategy: Strategy, acts: seq<Act>, e: TransferPosted)
    requires SystemOk(sys) && Plain(e) && TransferKey(e.transferId) !in sys.done && ProperFor(acts, e)
    ensures TransferKey(e.transferId) in DoAll(sys, strategy, acts).done <==> Completes(sys, strategy, acts, e)
    decreases |acts|
  {
    hide SystemOk, Plain, Passable, HandleTransfer, RunJob, HandleCancellation, ProperAct, SameIdSameEvent;
    if acts != [] {
      var act, next := acts[0], Do(sys, strategy, acts[0]);
      assert act in acts && forall x :: x in acts[1..] ==> x in acts;
      ActLowers(sys, strategy, act, StockKey("", ""));
      if Delivers(act, e) {
        DeliveryMarks(sys, strategy, e, act.stop);
      } else {
        OthersDoNotMark(sys, strategy, act, e);
      }
      if TransferKey(e.transferId) in next.done {
        MarkStays(next, strategy, acts[1..], TransferKey(e.transferId));
      } else {
        MarkedWhenPassable(next, strategy, acts[1..], e);
      }
    }
  }

  /** No delivery of the transfer in the run touches the stocks of line i or of a later line. */
  ghost predicate NeverMoved(sys: System, strategy: Strategy, acts: seq<Act>, e: TransferPosted, i: nat)
    decreases |acts|
  {
    acts != [] ==>
      && (Delivers(acts[0], e) ==>
            forall j :: i <= j < |e.lines| ==> SameStocks(sys, Do(sys, strategy, acts[0]), e.lines[j].sku))
      && NeverMoved(Do(sys, strategy, acts[0]), strategy, acts[1..], e, i)
  }

  /** No act of the run brings stock to the source of the line. */
  predicate Unaided(acts: seq<Act>, e: TransferPosted, line: TransferLine) {
    forall act :: act in acts ==> !Brings(act, FromKey(e, line))
  }

  /** Whenever the run delivers the transfer, line i would be refused at that moment. */
  ghost predicate StaysRefused(sys: System, strategy: Strategy, acts: seq<Act>, e: TransferPosted, i: nat)
    requires i < |e.lines|
    decreases |acts|
  {
    acts != [] ==>
      && (Delivers(acts[0], e) ==> Throws(sys, strategy, e, e.lines[i]))
      && StaysRefused(Do(sys, strategy, acts[0]), strategy, acts[1..], e, i)
  }

  lemma RefusedDelivery(sys: System, strategy: Strategy, e: TransferPosted, stop: nat, i: nat)
    requires SystemOk(sys) && Plain(e) && TransferKey(e.transferId) !in sys.done && i < |e.lines|
    requires Throws(sys, strategy, e, e.lines[i])
    ensures var after := HandleTransfer(sys, strategy, e, stop).sys;
            && TransferKey(e.transferId) !in after.done
            && forall j :: i <= j < |e.lines| ==> SameStocks(sys, after, e.lines[j].sku)
  {
    hide SystemOk, Throws, HandleTransfer, MovedOnce, SameStocks, DistinctLines, ProperLines;
    DeliveryMarks(sys, strategy, e, stop);
    forall j | i <= j < |e.lines| ensures SameStocks(sys, HandleTransfer(sys, strategy, e, stop).sys, e.lines[j].sku) {
      DeliveryMoves(sys, strategy, e, stop, j);
    }
  }

  /**
   Over any run of the handlers a line that is refused whenever the transfer is delivered keeps itself and the lines
   after it unmoved by this transfer, and the key unmarked.
   */
  lemma {:induction false} RefusedWaits(sys: System, strategy: Strategy, acts: seq<Act>, e: TransferPosted, i: nat)
    requires SystemOk(sys) && Plain(e) && TransferKey(e.transferId) !in sys.done && ProperFor(acts, e)
    requires i < |e.lines| && StaysRefused(sys, strategy, acts, e, i)
    ensures TransferKey(e.transferId) !in DoAll(sys, strategy, acts).done && NeverMoved(sys, strategy, acts, e, i)
    decreases |acts|
  {
    hide SystemOk, Plain, HandleTransfer, RunJob, HandleCancellation, ProperAct, SameIdSameEvent, SameStocks, Throws;
    if acts != [] {
      var act, next := acts[0], Do(sys, strategy, acts[0]);
      assert act in acts && forall x :: x in acts[1..] ==> x in acts;
      ActLowers(sys, strategy, act, FromKey(e, e.lines[i]));
      if Delivers(act, e) {
        RefusedDelivery(sys, strategy, e, act.stop, i);
      } else {
        OthersDoNotMark(sys, strategy, act, e);
      }
      RefusedWaits(next, strategy, acts[1..], e, i);
    }
  }

  /** A line whose source holds less than it asks for stays refused at least until something brings stock there. */
  lemma {:induction false} RefusedUnaided(sys: System, strategy: Strategy, acts: seq<Act>, e: TransferPosted, i: nat)
    requires SystemOk(sys) && ProperLines(e.lines) && forall act :: act in acts ==> ProperAct(act)
    requires i < |e.lines| && Short(sys, e, e.lines[i]) && Unaided(acts, e, e.lines[i])
    ensures Short(DoAll(sys, strategy, acts), e, e.lines[i]) && StaysRefused(sys, strategy, acts, e, i)
    decreases |acts|
  {
    hide SystemOk, Do, ProperAct, Brings, Throws, Deliveries.RowTotal;
    if acts != [] {
      var act, next := acts[0], Do(sys, strategy, acts[0]);
      assert act in acts && forall x :: x in acts[1..] ==> x in acts;
      assert e.lines[i] in e.lines;
      ActLowers(sys, strategy, act, FromKey(e, e.lines[i]));
      ShortThrows(sys, strategy, e, e.lines[i]);
      RefusedUnaided(next, strategy, acts[1..], e, i);
    }
  }

  /**
   So when a line before the stop asked for more than it left behind, the lines after the stop wait, over any run,
   until something brings stock to that line's source.
   */
  lemma RestWaits(sys: System, strategy: Strategy, e: TransferPosted, stop: nat, i: nat, acts: seq<Act>)
    requires Finishes(sys, strategy, e) && i < stop <= |e.lines| && RefusedAgain(sys, e, e.lines[i])
    requires ProperFor(acts, e) && Unaided(acts, e, e.lines[i])
    ensures var s1 := Stopped(sys, strategy, e, stop);
            TransferKey(e.transferId) !in DoAll(s1, strategy, acts).done && NeverMoved(s1, strategy, acts, e, i)
  {
    var s1 := Stopped(sys, strategy, e, stop);
    StoppedMoves(sys, strategy, e, stop);
    TransferLaws.LoadedTotal(sys, FromKey(e, e.lines[i]), e.lines[i].quantity.unit);
    assert MovedOnce(sys, s1, e, e.lines[i]);
    hide SystemOk, HandleTransfer, Deliveries.RowTotal, Total, Unexpired, DoAll, NeverMoved, StaysRefused, ProperAct,
         Unaided, Stopped;
    RefusedUnaided(s1, strategy, acts, e, i);
    RefusedWaits(s1, strategy, acts, e, i);
  }
}
