/**
 The inventory documents told by what was accepted: in which order, what is refused and why, and, for a receipt, which
 line each edit reaches and which lines it has in the end.
 */
module DocumentHistories {
  import opened Basics
  import opened Documents
  import opened DocumentLives
  import StockTypes

  // ---------------------------------------------------------------- receipts: one edit

  /** The first line with an id. */
  ghost predicate FirstWith(lines: seq<ReceiptLine>, id: string, k: nat) {
    k < |lines| && lines[k].id == id && forall j :: 0 <= j < k ==> lines[j].id != id
  }

  predicate NoneWith(lines: seq<ReceiptLine>, id: string) {
    forall line :: line in lines ==> line.id != id
  }

  lemma {:induction false} IndexMeans(lines: seq<ReceiptLine>, id: string)
    ensures var k := LineIndex(lines, id);
            if k < |lines| then FirstWith(lines, id, k) else NoneWith(lines, id)
  {
    if lines != [] && lines[0].id != id {
      IndexMeans(lines[1..], id);
      assert forall j :: 0 < j < |lines| ==> lines[j] == lines[1..][j - 1];
    }
  }

  /** Line k is replaced and all others stay. */
  ghost predicate Replaced(before: seq<ReceiptLine>, after: seq<ReceiptLine>, k: nat, line: ReceiptLine)
    requires k < |before|
  {
    |after| == |before| && after[k] == line && forall j :: 0 <= j < |before| && j != k ==> after[j] == before[j]
  }

  /** Line k is gone and those after it have moved up. */
  ghost predicate Gone(before: seq<ReceiptLine>, after: seq<ReceiptLine>, k: nat)
    requires k < |before|
  {
    && |after| == |before| - 1
    && (forall j :: 0 <= j < k ==> after[j] == before[j])
    && (forall j :: k <= j < |after| ==> after[j] == before[j + 1])
  }

  lemma Edited(s: ReceiptState, id: string, line: ReceiptLine)
    requires s.status == ReceiptDraft
    ensures var k := LineIndex(s.lines, id);
            var updated, removed := ActOnReceipt(s, UpdateLine(id, line)).lines, ActOnReceipt(s, RemoveLine(id)).lines;
            if k == |s.lines| then updated == removed == s.lines
            else updated == s.lines[k := line] && removed == s.lines[..k] + s.lines[k + 1..]
  {
    hide LineIndex;
  }

  /** An update replaces the first line with the id, a removal takes it out, and either leaves all other lines. */
  lemma EditsOneLine(s: ReceiptState, id: string, line: ReceiptLine)
    requires s.status == ReceiptDraft
    ensures var updated, removed := ActOnReceipt(s, UpdateLine(id, line)).lines, ActOnReceipt(s, RemoveLine(id)).lines;
            if NoneWith(s.lines, id) then updated == removed == s.lines
            else exists k: nat ::
              FirstWith(s.lines, id, k) && Replaced(s.lines, updated, k, line) && Gone(s.lines, removed, k)
  {
    var k := LineIndex(s.lines, id);
    IndexMeans(s.lines, id);
    Edited(s, id, line);
    if k < |s.lines| {
      assert s.lines[k] in s.lines && FirstWith(s.lines, id, k);
      hide LineIndex, ActOnReceipt, FirstWith;
      assert Replaced(s.lines, s.lines[k := line], k, line);
      assert Gone(s.lines, s.lines[..k] + s.lines[k + 1..], k);
    }
  }

  // ---------------------------------------------------------------- receipts: any number of edits

  predicate DistinctLineIds(lines: seq<ReceiptLine>) {
    forall i, j :: 0 <= i < j < |lines| ==> lines[i].id != lines[j].id
  }

  function Find(lines: seq<ReceiptLine>, id: string): Option<ReceiptLine> {
    var k := LineIndex(lines, id);
    if k < |lines| then Some(lines[k]) else None
  }

  /** The ids of added lines are new, and an update keeps the id of its line. */
  predicate CleanEdits(s: ReceiptState, ops: seq<ReceiptOp>)
    decreases |ops|
  {
    ops != [] ==>
      CleanEdit(s.lines, ops[0]) && CleanEdits(ActOnReceipt(s, ops[0]), ops[1..])
  }

  predicate CleanEdit(lines: seq<ReceiptLine>, op: ReceiptOp) {
    match op
    case AddLine(line) => NoneWith(lines, line.id)
    case UpdateLine(id, line) => line.id == id
    case RemoveLine(_) => true
    case AttachInvoiceFile(_) => true
    case _ => false
  }

  /** What the edits say about the line of an id, given what it was before. */
  function Latest(ops: seq<ReceiptOp>, id: string, before: Option<ReceiptLine>): Option<ReceiptLine> {
    if ops == [] then before else Latest(ops[1..], id, AfterEdit(ops[0], id, before))
  }

  function AfterEdit(op: ReceiptOp, id: string, before: Option<ReceiptLine>): Option<ReceiptLine> {
    match op
    case AddLine(line) => if line.id == id then Some(line) else before
    case UpdateLine(other, line) => if other == id && before.Some? then Some(line) else before
    case RemoveLine(other) => if other == id then None else before
    case _ => before
  }

  lemma FoundAt(lines: seq<ReceiptLine>, k: nat)
    requires DistinctLineIds(lines) && k < |lines|
    ensures LineIndex(lines, lines[k].id) == k
  {
    IndexMeans(lines, lines[k].id);
    assert lines[k] in lines;
  }

  lemma FindNone(lines: seq<ReceiptLine>, id: string)
    ensures Find(lines, id).None? <==> NoneWith(lines, id)
    ensures Find(lines, id).Some? ==> Find(lines, id).value in lines && Find(lines, id).value.id == id
  {
    IndexMeans(lines, id);
  }

  /** Two lists of distinct ids that hold the same lines of an id find the same. */
  lemma FindIs(lines: seq<ReceiptLine>, line: ReceiptLine)
    requires DistinctLineIds(lines) && line in lines
    ensures Find(lines, line.id) == Some(line)
  {
    var k :| 0 <= k < |lines| && lines[k] == line;
    FoundAt(lines, k);
  }

  lemma AddKeeps(lines: seq<ReceiptLine>, line: ReceiptLine, id: string)
    requires DistinctLineIds(lines) && NoneWith(lines, line.id)
    ensures DistinctLineIds(lines + [line])
    ensures Find(lines + [line], id) == if line.id == id then Some(line) else Find(lines, id)
  {
    FindNone(lines, id);
    FindNone(lines + [line], id);
    assert forall i :: 0 <= i < |lines| ==> lines[i] in lines;
    if line.id == id {
      FindIs(lines + [line], line);
    } else if Find(lines, id).Some? {
      FindIs(lines + [line], Find(lines, id).value);
    }
  }

  lemma UpdateKeeps(lines: seq<ReceiptLine>, k: nat, line: ReceiptLine, id: string)
    requires DistinctLineIds(lines) && k < |lines| && line.id == lines[k].id
    ensures DistinctLineIds(lines[k := line])
    ensures Find(lines[k := line], id) == if line.id == id then Some(line) else Find(lines, id)
  {
    var after := lines[k := line];
    FindNone(lines, id);
    FindNone(after, id);
    assert after[k] in after;
    if line.id == id {
      FindIs(after, line);
    } else if Find(lines, id).Some? {
      var j :| 0 <= j < |lines| && lines[j] == Find(lines, id).value;
      assert after[j] in after;
      FindIs(after, lines[j]);
    }
  }

  /** Position j of the list without its k-th line, in the list. */
  lemma RemovedAt(lines: seq<ReceiptLine>, k: nat)
    requires k < |lines|
    ensures var after := lines[..k] + lines[k + 1..];
            && |after| == |lines| - 1
            && (forall j :: 0 <= j < |after| ==> after[j] == lines[if j < k then j else j + 1])
            && (forall line :: line in after ==> line in lines)
            && (forall j :: 0 <= j < |lines| && j != k ==> lines[j] in after)
  {
    var after := lines[..k] + lines[k + 1..];
    forall j | 0 <= j < |lines| && j != k ensures lines[j] in after {
      assert after[if j < k then j else j - 1] == lines[j];
    }
  }

  lemma RemoveKeeps(lines: seq<ReceiptLine>, k: nat, id: string)
    requires DistinctLineIds(lines) && k < |lines|
    ensures DistinctLineIds(lines[..k] + lines[k + 1..])
    ensures Find(lines[..k] + lines[k + 1..], id) == if lines[k].id == id then None else Find(lines, id)
  {
    hide Find, LineIndex;
    var after := lines[..k] + lines[k + 1..];
    RemovedAt(lines, k);
    FindNone(lines, id);
    FindNone(after, id);
    if lines[k].id != id && Find(lines, id).Some? {
      FindIs(after, Find(lines, id).value);
    }
  }

  lemma EditKeeps(s: ReceiptState, op: ReceiptOp, id: string)
    requires s.status == ReceiptDraft && DistinctLineIds(s.lines) && CleanEdit(s.lines, op)
    ensures var t := ActOnReceipt(s, op);
            && t.status == ReceiptDraft && DistinctLineIds(t.lines)
            && Find(t.lines, id) == AfterEdit(op, id, Find(s.lines, id))
  {
    hide Find, DistinctLineIds, LineIndex, NoneWith;
    match op
    case AddLine(line) => AddKeeps(s.lines, line, id);
    case UpdateLine(lineId, line) => UpdateFinds(s, lineId, line, id);
    case RemoveLine(lineId) => RemoveFinds(s, lineId, id);
    case _ =>
  }

  lemma UpdateFinds(s: ReceiptState, lineId: string, line: ReceiptLine, id: string)
    requires s.status == ReceiptDraft && DistinctLineIds(s.lines) && line.id == lineId
    ensures var t, before := ActOnReceipt(s, UpdateLine(lineId, line)), Find(s.lines, id);
            && t.status == ReceiptDraft && DistinctLineIds(t.lines)
            && Find(t.lines, id) == if lineId == id && before.Some? then Some(line) else before
  {
    IndexMeans(s.lines, lineId);
    FindNone(s.lines, id);
    var k := LineIndex(s.lines, lineId);
    if k < |s.lines| {
      assert s.lines[k] in s.lines;
      UpdateKeeps(s.lines, k, line, id);
    }
  }

  lemma RemoveFinds(s: ReceiptState, lineId: string, id: string)
    requires s.status == ReceiptDraft && DistinctLineIds(s.lines)
    ensures var t, before := ActOnReceipt(s, RemoveLine(lineId)), Find(s.lines, id);
            && t.status == ReceiptDraft && DistinctLineIds(t.lines)
            && Find(t.lines, id) == if lineId == id then None else before
  {
    IndexMeans(s.lines, lineId);
    FindNone(s.lines, id);
    var k := LineIndex(s.lines, lineId);
    if k < |s.lines| {
      RemoveKeeps(s.lines, k, id);
    }
  }

  /**
   Over any edits of a draft, with new ids for added lines, ids stay distinct and the line of an id is the one last
   added or updated under it, unless that was removed since.
   */
  lemma {:induction false} LatestLineStands(s: ReceiptState, ops: seq<ReceiptOp>, id: string)
    requires s.status == ReceiptDraft && DistinctLineIds(s.lines) && CleanEdits(s, ops)
    ensures var t := RunReceipt(s, ops);
            && t.status == ReceiptDraft && DistinctLineIds(t.lines)
            && Find(t.lines, id) == Latest(ops, id, Find(s.lines, id))
    decreases |ops|
  {
    if ops != [] {
      EditKeeps(s, ops[0], id);
      hide Find, DistinctLineIds, ActOnReceipt;
      LatestLineStands(ActOnReceipt(s, ops[0]), ops[1..], id);
    }
  }

  // ---------------------------------------------------------------- receipts: the order of things

  /** The operations that did not throw. */
  function Accepted(s: ReceiptState, ops: seq<ReceiptOp>): seq<ReceiptOp>
    decreases |ops|
  {
    if ops == [] then []
    else
      Accepted(s, ops[..|ops| - 1])
      + if StepReceipt(RunReceipt(s, ops[..|ops| - 1]), ops[|ops| - 1]).Ok? then [ops[|ops| - 1]] else []
  }

  predicate IsEdit(op: ReceiptOp) {
    !op.PostReceipt? && !op.CancelReceipt?
  }

  /** Edits, then perhaps one posting, then perhaps one cancellation. */
  predicate Orderly(h: seq<ReceiptOp>) {
    && (forall i :: 0 <= i < |h| && h[i].CancelReceipt? ==> i > 0 && h[i - 1].PostReceipt?)
    && (forall i, j :: 0 <= i < j < |h| && !h[j].CancelReceipt? ==> IsEdit(h[i]))
  }

  function Stage(h: seq<ReceiptOp>): ReceiptStatus {
    if h == [] || IsEdit(h[|h| - 1]) then ReceiptDraft
    else if h[|h| - 1].PostReceipt? then ReceiptIsPosted
    else ReceiptIsCancelled
  }

  /** The invoice file attached last. */
  function LastInvoice(h: seq<ReceiptOp>): Option<string> {
    if h == [] then None
    else if h[|h| - 1].AttachInvoiceFile? then Some(h[|h| - 1].url)
    else LastInvoice(h[..|h| - 1])
  }

  /** The invoice is the one attached last; who posted the receipt, and when, is what the accepted posting says. */
  predicate SignedBy(s: ReceiptState, h: seq<ReceiptOp>) {
    && s.attachmentUrl == LastInvoice(h)
    && if s.status == ReceiptDraft then s.postedBy == None && s.postedAt == None
       else s.postedBy.Some? && s.postedAt.Some? && PostReceipt(s.postedBy.value, s.postedAt.value) in h
  }

  lemma {:induction false} RunReceiptSnoc(s: ReceiptState, ops: seq<ReceiptOp>, op: ReceiptOp)
    ensures RunReceipt(s, ops + [op]) == ActOnReceipt(RunReceipt(s, ops), op)
    decreases |ops|
  {
    hide ActOnReceipt;
    if ops == [] {
      assert [] + [op] == [op] && [op][1..] == [];
    } else {
      assert (ops + [op])[1..] == ops[1..] + [op];
      RunReceiptSnoc(ActOnReceipt(s, ops[0]), ops[1..], op);
    }
  }

  /** The stage of an orderly history, and what came before it. */
  lemma OrderlyStage(h: seq<ReceiptOp>)
    requires Orderly(h)
    ensures Stage(h) == ReceiptDraft <==> forall op :: op in h ==> IsEdit(op)
    ensures Stage(h) == ReceiptIsPosted <==> h != [] && h[|h| - 1].PostReceipt?
  {
    if h != [] && IsEdit(h[|h| - 1]) {
      assert forall i :: 0 <= i < |h| ==> IsEdit(h[i]);
    }
  }

  /** What an accepted operation changes besides the lines. */
  lemma OneAccepted(s: ReceiptState, op: ReceiptOp)
    requires StepReceipt(s, op).Ok?
    ensures var t := StepReceipt(s, op).value;
            && (op.CancelReceipt? ==> s.status == ReceiptIsPosted)
            && (!op.CancelReceipt? ==> s.status == ReceiptDraft)
            && t.status == (if op.CancelReceipt? then ReceiptIsCancelled
                            else if op.PostReceipt? then ReceiptIsPosted else ReceiptDraft)
            && t.postedBy == (if op.PostReceipt? then Some(op.user) else s.postedBy)
            && t.postedAt == (if op.PostReceipt? then Some(op.at) else s.postedAt)
            && t.attachmentUrl == (if op.AttachInvoiceFile? then Some(op.url) else s.attachmentUrl)
  {
    hide LineIndex, PostedLines;
  }

  lemma StageSnoc(h: seq<ReceiptOp>, op: ReceiptOp)
    requires Orderly(h)
    requires if op.CancelReceipt? then Stage(h) == ReceiptIsPosted else Stage(h) == ReceiptDraft
    ensures Orderly(h + [op])
  {
    OrderlyStage(h);
    assert forall i :: 0 <= i < |h| ==> (h + [op])[i] == h[i] && h[i] in h;
  }

  lemma InvoiceSnoc(h: seq<ReceiptOp>, op: ReceiptOp)
    ensures LastInvoice(h + [op]) == if op.AttachInvoiceFile? then Some(op.url) else LastInvoice(h)
  {
    assert (h + [op])[..|h + [op]| - 1] == h;
  }

  lemma ReceiptSnoc(s: ReceiptState, h: seq<ReceiptOp>, op: ReceiptOp)
    requires s.status == Stage(h) && Orderly(h) && SignedBy(s, h) && StepReceipt(s, op).Ok?
    ensures var t, h' := StepReceipt(s, op).value, h + [op];
            t.status == Stage(h') && Orderly(h') && SignedBy(t, h')
  {
    hide StepReceipt, Orderly, LastInvoice;
    OneAccepted(s, op);
    StageSnoc(h, op);
    InvoiceSnoc(h, op);
  }

  /**
   Over the whole life of a receipt the accepted operations are edits, then at most one posting and at most one
   cancellation after it; they tell its status, its invoice, and who posted it and when.
   */
  lemma {:induction false} ReceiptInOrder(id: string, supplierId: string, branchId: string, ops: seq<ReceiptOp>)
    ensures var s := NewReceipt(id, supplierId, branchId);
            var t, h := RunReceipt(s, ops), Accepted(s, ops);
            t.status == Stage(h) && Orderly(h) && SignedBy(t, h)
    decreases |ops|
  {
    var s := NewReceipt(id, supplierId, branchId);
    hide RunReceipt, StepReceipt, Orderly, SignedBy, Stage, NewReceipt;
    if ops == [] {
      NewInOrder(id, supplierId, branchId);
    } else {
      var init, op := ops[..|ops| - 1], ops[|ops| - 1];
      ReceiptInOrder(id, supplierId, branchId, init);
      assert ops == init + [op] && Accepted(s, init) + [] == Accepted(s, init);
      RunReceiptSnoc(s, init, op);
      if StepReceipt(RunReceipt(s, init), op).Ok? {
        ReceiptSnoc(RunReceipt(s, init), Accepted(s, init), op);
      }
    }
  }

  lemma NewInOrder(id: string, supplierId: string, branchId: string)
    ensures var s := NewReceipt(id, supplierId, branchId);
            RunReceipt(s, []).status == Stage([]) && Orderly([]) && SignedBy(RunReceipt(s, []), [])
  {
  }

  /** After any life, which operation is refused and why. */
  lemma ReceiptRefuses(id: string, supplierId: string, branchId: string, ops: seq<ReceiptOp>, op: ReceiptOp,
                       e: DocumentError)
    ensures var s := NewReceipt(id, supplierId, branchId);
            var t, stage := RunReceipt(s, ops), Stage(Accepted(s, ops));
            StepReceipt(t, op) == Err(e) <==>
              (|| (op.CancelReceipt? && stage != ReceiptIsPosted && e == NotPosted)
               || (!op.CancelReceipt? && stage == ReceiptIsPosted && e == AlreadyPosted)
               || (!op.CancelReceipt? && stage == ReceiptIsCancelled && e == CannotEditAfterPost)
               || (op.PostReceipt? && stage == ReceiptDraft && t.lines == [] && e == EmptyDocument))
  {
    ReceiptInOrder(id, supplierId, branchId, ops);
    hide RunReceipt, Accepted, Stage, LineIndex;
  }

  // ---------------------------------------------------------------- transfers and stock-takings

  /** The state of a transfer is told by the first thing done to it, and so is every refusal. */
  lemma TransferInOrder(id: string, fromBranch: string, toBranch: string, lines: seq<TransferLine>,
                        ops: seq<TransferOp>, op: TransferOp, e: DocumentError)
    ensures NewTransfer(id, fromBranch, toBranch, lines).Err? ==>
              NewTransfer(id, fromBranch, toBranch, lines).error
                == if fromBranch == toBranch then SameBranch else EmptyDocument
    ensures NewTransfer(id, fromBranch, toBranch, lines).Ok? ==>
              var last := RunTransfer(NewTransfer(id, fromBranch, toBranch, lines).value, ops);
              && last.status == (if ops == [] then TransferDraft
                                 else if ops[0].PostTransfer? then TransferIsPosted else TransferIsCancelled)
              && last.postedBy == (if ops != [] && ops[0].PostTransfer? then Some(ops[0].user) else None)
              && last.postedAt == (if ops != [] && ops[0].PostTransfer? then Some(ops[0].at) else None)
              && (StepTransfer(last, op) == Err(e) <==>
                    ops != [] && e == if op.PostTransfer? && ops[0].PostTransfer? then AlreadyPosted else NotDraft)
  {
    if NewTransfer(id, fromBranch, toBranch, lines).Ok? && ops != [] {
      SettledForGood(ActOnTransfer(NewTransfer(id, fromBranch, toBranch, lines).value, ops[0]), ops[1..]);
    }
  }

  /** The first operation that is not a measurement. */
  function FirstClosing(ops: seq<TakingOp>): (r: Option<TakingOp>)
    ensures r.Some? ==> !r.value.RecordMeasurement?
  {
    if ops == [] then None else if !ops[0].RecordMeasurement? then Some(ops[0]) else FirstClosing(ops[1..])
  }

  function NewTaking(id: string, branchId: string, snapshotLines: seq<(string, StockTypes.Quantity)>): TakingState {
    TakingState(id, branchId, TakingStarted, NewLines(snapshotLines), None, [])
  }

  function StatusBy(closing: Option<TakingOp>): StockTakingStatus {
    if closing.None? then TakingStarted else if closing.value.PostTaking? then TakingPosted else TakingCancelled
  }

  /** What is left of a stock-taking by the operation that closed it, if one did. */
  predicate ClosedBy(s: TakingState, t: TakingState, closing: Option<TakingOp>)
    requires closing.Some? ==> !closing.value.RecordMeasurement?
  {
    && t.id == s.id && t.branchId == s.branchId && t.status == StatusBy(closing)
    && t.completedAt == (if closing.None? then None else Some(closing.value.at))
    && t.raised == (if closing.None? || !closing.value.PostTaking? then []
                    else [StockTakingPosted(s.id, s.branchId, Deltas(t.lines), closing.value.user, closing.value.at)])
  }

  lemma {:induction false} ClosedByFirst(s: TakingState, ops: seq<TakingOp>)
    requires s.status == TakingStarted && s.raised == [] && s.completedAt == None
    ensures ClosedBy(s, RunTaking(s, ops), FirstClosing(ops))
    decreases |ops|
  {
    hide Deltas, SkuIndex;
    if ops != [] {
      var s' := ActOnTaking(s, ops[0]);
      if ops[0].RecordMeasurement? {
        ClosedByFirst(s', ops[1..]);
      } else {
        ClosedForGood(s', ops[1..]);
      }
    }
  }

  /**
   A stock-taking begins with the SKUs and the quantities it was given, nothing counted; the first posting or
   cancellation closes it, and posting one in which nothing was measured raises no delta.
   */
  lemma TakingInOrder(id: string, branchId: string, snapshotLines: seq<(string, StockTypes.Quantity)>,
                      ops: seq<TakingOp>)
    ensures var s := NewTaking(id, branchId, snapshotLines);
            var t := RunTaking(s, ops);
            && |t.lines| == |snapshotLines|
            && (forall i :: 0 <= i < |snapshotLines| ==>
                  t.lines[i].sku == snapshotLines[i].0 && t.lines[i].expected == snapshotLines[i].1)
            && ClosedBy(s, t, FirstClosing(ops))
            && ((forall op :: op in ops ==> !op.RecordMeasurement?) ==> forall e :: e in t.raised ==> e.deltas == [])
  {
    var s := NewTaking(id, branchId, snapshotLines);
    ClosedByFirst(s, ops);
    TakingLife(s, ops);
    if forall op :: op in ops ==> !op.RecordMeasurement? {
      if ops != [] {
        assert ops[0] in ops;
        ClosedForGood(ActOnTaking(s, ops[0]), ops[1..]);
      }
      NothingCounted(s.lines);
    }
    hide Deltas, RunTaking, FirstClosing;
  }

  lemma {:induction false} NothingCounted(lines: seq<CountLine>)
    requires forall line :: line in lines ==> line.actual.None?
    ensures Deltas(lines) == []
  {
    if lines != [] {
      assert lines[|lines| - 1] in lines && forall line :: line in lines[..|lines| - 1] ==> line in lines;
      NothingCounted(lines[..|lines| - 1]);
    }
  }

  /** After any life of a stock-taking, what is refused and why. */
  lemma TakingRefuses(s: TakingState, ops: seq<TakingOp>, op: TakingOp, e: DocumentError)
    requires s.status == TakingStarted && s.raised == [] && s.completedAt == None
    ensures var t := RunTaking(s, ops);
            StepTaking(t, op) == Err(e) <==>
              if FirstClosing(ops).Some? then
                e == if FirstClosing(ops).value.PostTaking? then AlreadyPosted else NotStarted
              else
                && op.RecordMeasurement? && (forall line :: line in t.lines ==> line.sku != op.sku)
                && e == SkuNotFound(op.sku)
  {
    ClosedByFirst(s, ops);
    hide RunTaking, FirstClosing, Deltas;
    if op.RecordMeasurement? {
      var lines := RunTaking(s, ops).lines;
      if SkuIndex(lines, op.sku) < |lines| {
        assert lines[SkuIndex(lines, op.sku)] in lines;
      }
    }
  }
}
