/** Deliveries of many documents interleaved with one another: each receipt or adjustment line still counts once. */
module Interleavings {
  import opened BatchSelection
  import opened Inventory
  import Documents

  /** What the handlers may do next, in any order: one line of one document, a transfer, or a cancellation. */
  datatype Act =
    | HandleLine(job: LineJob)
    | HandleTransferEvent(event: Documents.TransferPosted, stop: nat)
    | HandleCancelEvent(receiptId: string, branch: string, skus: seq<string>, stop: nat)

  function Do(sys: System, strategy: Strategy, act: Act): System {
    match act
    case HandleLine(job) =>
      (match RunJob(sys, strategy, job)
       case Ok(sys') => sys'
       case Err(_) => sys)
    case HandleTransferEvent(event, stop) => HandleTransfer(sys, strategy, event, stop).sys
    case HandleCancelEvent(receiptId, branch, skus, stop) => HandleCancellation(sys, receiptId, branch, skus, stop)
  }

  function DoAll(sys: System, strategy: Strategy, acts: seq<Act>): System
    decreases |acts|
  {
    if acts == [] then sys else DoAll(Do(sys, strategy, acts[0]), strategy, acts[1..])
  }

  /** The act saves a stock for the line with this key. */
  predicate Applies(sys: System, strategy: Strategy, act: Act, key: DocKey) {
    act.HandleLine? && JobKey(act.job) == key && key !in sys.done && JobResult(sys, strategy, act.job).Ok?
  }

  function Applications(sys: System, strategy: Strategy, acts: seq<Act>, key: DocKey): nat
    decreases |acts|
  {
    if acts == [] then 0
    else
      (if Applies(sys, strategy, acts[0], key) then 1 else 0)
      + Applications(Do(sys, strategy, acts[0]), strategy, acts[1..], key)
  }

  predicate IsLineKey(key: DocKey) {
    key.ReceiptLineKey? || key.AdjustmentLineKey?
  }

  lemma {:induction false} TransfersKeepKeys(sys: System, strategy: Strategy, e: Documents.TransferPosted,
                                             lines: seq<Documents.TransferLine>)
    ensures MoveLines(sys, strategy, e, lines).sys.done == sys.done
    decreases |lines|
  {
    if lines != [] {
      var h := MoveLine(sys, strategy, e, lines[0]);
      assert h.sys.done == sys.done;
      hide MoveLine;
      if h.error.None? {
        TransfersKeepKeys(h.sys, strategy, e, lines[1..]);
      }
    }
  }

  /** A line's key is marked by an act exactly when the act applies the line. */
  lemma KeyFollowsEffect(sys: System, strategy: Strategy, act: Act, key: DocKey)
    requires IsLineKey(key)
    ensures key in Do(sys, strategy, act).done <==> key in sys.done || Applies(sys, strategy, act, key)
  {
    hide MoveLines, JobResult, RemoveReceipt;
    if act.HandleTransferEvent? {
      var lines := act.event.lines;
      TransfersKeepKeys(sys, strategy, act.event, lines);
      if act.stop <= |lines| {
        TransfersKeepKeys(sys, strategy, act.event, lines[..act.stop]);
      }
    }
  }

  /**
   However lines of any receipts and adjustments, delivered any number of times, interleave with
   transfers and cancellations, each line is applied at most once, and exactly once if and only if its
   key is marked at the end.
   */
  lemma {:induction false} AppliedOnce(sys: System, strategy: Strategy, acts: seq<Act>, key: DocKey)
    requires IsLineKey(key)
    ensures Applications(sys, strategy, acts, key)
         == if key !in sys.done && key in DoAll(sys, strategy, acts).done then 1 else 0
    ensures key in sys.done ==> key in DoAll(sys, strategy, acts).done
    decreases |acts|
  {
    hide Do, Applies;
    if acts != [] {
      KeyFollowsEffect(sys, strategy, acts[0], key);
      AppliedOnce(Do(sys, strategy, acts[0]), strategy, acts[1..], key);
      AppliesOnlyFresh(sys, strategy, acts[0], key);
    }
  }

  lemma AppliesOnlyFresh(sys: System, strategy: Strategy, act: Act, key: DocKey)
    ensures Applies(sys, strategy, act, key) ==> key !in sys.done
  {
  }

  /** Handling a line touches only its own stock, and nothing at all once its key is marked. */
  lemma LineTouchesOneStock(sys: System, strategy: Strategy, job: LineJob)
    ensures var after := Do(sys, strategy, HandleLine(job));
            after.rows - {JobStock(job)} == sys.rows - {JobStock(job)}
            && (JobKey(job) in sys.done ==> after == sys)
  {
    hide JobResult;
  }
}
