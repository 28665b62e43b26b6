/** The whole lives of the inventory documents: what each raises, how often, and what can no longer change. */
module DocumentLives {
  import opened Basics
  import opened Documents
  import StockTypes

  // ---------------------------------------------------------------- receipts

  /** An operation that throws leaves the document as it was. */
  function ActOnReceipt(s: ReceiptState, op: ReceiptOp): ReceiptState {
    match StepReceipt(s, op)
    case Ok(s') => s'
    case Err(_) => s
  }

  function RunReceipt(s: ReceiptState, ops: seq<ReceiptOp>): ReceiptState
    decreases |ops|
  {
    if ops == [] then s else RunReceipt(ActOnReceipt(s, ops[0]), ops[1..])
  }

  /** A draft has raised nothing; afterwards one posting stands, of the lines the receipt still has. */
  predicate ReceiptTold(s: ReceiptState) {
    if s.status == ReceiptDraft then s.raised == []
    else
      && s.lines != [] && s.postedAt.Some?
      && s.raised == [ReceiptPosted(s.id, s.supplierId, s.branchId, PostedLines(s.lines), s.postedAt.value)]
  }

  /**
   Whatever is done to a receipt, and in whatever order, it raises its posting at most once, is cancelled only
   after that, and from then on its lines are those of the posting, so a cancellation sees what was posted.
   */
  lemma {:induction false} ReceiptLife(s: ReceiptState, ops: seq<ReceiptOp>)
    requires ReceiptTold(s)
    ensures ReceiptTold(RunReceipt(s, ops))
    ensures s.status != ReceiptDraft ==>
              var t := RunReceipt(s, ops);
              t.status != ReceiptDraft && t.lines == s.lines && t.raised == s.raised
    decreases |ops|
  {
    if ops != [] {
      ReceiptLife(ActOnReceipt(s, ops[0]), ops[1..]);
    }
  }

  lemma NewReceiptTold(id: string, supplierId: string, branchId: string, ops: seq<ReceiptOp>)
    ensures ReceiptTold(RunReceipt(NewReceipt(id, supplierId, branchId), ops))
  {
    ReceiptLife(NewReceipt(id, supplierId, branchId), ops);
  }

  // ---------------------------------------------------------------- adjustments

  function ActOnAdjustment(s: AdjustmentState, op: AdjustmentOp): AdjustmentState {
    match StepAdjustment(s, op)
    case Ok(s') => s'
    case Err(_) => s
  }

  function RunAdjustment(s: AdjustmentState, ops: seq<AdjustmentOp>): AdjustmentState
    decreases |ops|
  {
    if ops == [] then s else RunAdjustment(ActOnAdjustment(s, ops[0]), ops[1..])
  }

  /** A decided adjustment never changes again. */
  lemma {:induction false} DecidedForGood(s: AdjustmentState, ops: seq<AdjustmentOp>)
    requires s.status != AdjustmentPending
    ensures RunAdjustment(s, ops) == s
    decreases |ops|
  {
    if ops != [] {
      DecidedForGood(ActOnAdjustment(s, ops[0]), ops[1..]);
    }
  }

  /**
   Over its whole life an adjustment raises exactly one approval, carrying its deltas, when it was approved on
   creation or the first thing done to it is an approval; otherwise, and so after a rejection, none ever.
   */
  lemma AdjustmentLife(id: string, branchId: string, reason: string, lines: seq<AdjustmentLine>,
                       createdBy: string, createdAt: int, threshold: nat, ops: seq<AdjustmentOp>)
    ensures var last := RunAdjustment(NewAdjustment(id, branchId, reason, lines, createdBy, createdAt, threshold), ops);
            && last.lines == lines
            && last.approvals ==
                 (if AbsInt(TotalCents(lines)) < threshold then
                    [AdjustmentApproved(id, branchId, DeltaLines(lines), reason, createdBy, createdAt)]
                  else if ops != [] && ops[0].ApproveAdjustment? then
                    [AdjustmentApproved(id, branchId, DeltaLines(lines), reason, ops[0].user, ops[0].at)]
                  else [])
  {
    var s := NewAdjustment(id, branchId, reason, lines, createdBy, createdAt, threshold);
    if s.status != AdjustmentPending {
      DecidedForGood(s, ops);
    } else if ops != [] {
      DecidedForGood(ActOnAdjustment(s, ops[0]), ops[1..]);
    }
  }

  // ---------------------------------------------------------------- transfers

  function ActOnTransfer(s: TransferState, op: TransferOp): TransferState {
    match StepTransfer(s, op)
    case Ok(s') => s'
    case Err(_) => s
  }

  function RunTransfer(s: TransferState, ops: seq<TransferOp>): TransferState
    decreases |ops|
  {
    if ops == [] then s else RunTransfer(ActOnTransfer(s, ops[0]), ops[1..])
  }

  lemma {:induction false} SettledForGood(s: TransferState, ops: seq<TransferOp>)
    requires s.status != TransferDraft
    ensures RunTransfer(s, ops) == s
    decreases |ops|
  {
    if ops != [] {
      SettledForGood(ActOnTransfer(s, ops[0]), ops[1..]);
    }
  }

  /**
   Over its whole life a transfer raises exactly one posting, of its lines and between two different branches,
   when the first thing done to it is the posting; otherwise, and so after a cancellation, none ever.
   */
  lemma TransferLife(id: string, fromBranch: string, toBranch: string, lines: seq<TransferLine>, ops: seq<TransferOp>)
    ensures NewTransfer(id, fromBranch, toBranch, lines).Ok? <==> fromBranch != toBranch && lines != []
    ensures NewTransfer(id, fromBranch, toBranch, lines).Ok? ==>
              var last := RunTransfer(NewTransfer(id, fromBranch, toBranch, lines).value, ops);
              && last.raised == (if ops != [] && ops[0].PostTransfer? then
                                   [TransferPosted(id, fromBranch, toBranch, lines, ops[0].at)] else [])
              && forall e :: e in last.raised ==> e.fromBranchId != e.toBranchId
  {
    if NewTransfer(id, fromBranch, toBranch, lines).Ok? && ops != [] {
      SettledForGood(ActOnTransfer(NewTransfer(id, fromBranch, toBranch, lines).value, ops[0]), ops[1..]);
    }
  }

  // ---------------------------------------------------------------- stock-takings

  function ActOnTaking(s: TakingState, op: TakingOp): TakingState {
    match StepTaking(s, op)
    case Ok(s') => s'
    case Err(_) => s
  }

  function RunTaking(s: TakingState, ops: seq<TakingOp>): TakingState
    decreases |ops|
  {
    if ops == [] then s else RunTaking(ActOnTaking(s, ops[0]), ops[1..])
  }

  /** A started or cancelled stock-taking has raised nothing, a posted one the deltas of the lines it still has. */
  predicate TakingTold(s: TakingState) {
    match s.status
    case TakingPosted => |s.raised| == 1 && s.raised[0].deltas == Deltas(s.lines) && s.raised[0].stockTakingId == s.id
    case _ => s.raised == []
  }

  /** The SKUs and expectations of the lines, which no operation changes. */
  predicate SameSnapshot(a: seq<CountLine>, b: seq<CountLine>) {
    |a| == |b| && forall i :: 0 <= i < |a| ==> a[i].sku == b[i].sku && a[i].expected == b[i].expected
  }

  /**
   Whatever is done to a stock-taking, it raises at most one posting, none after a cancellation, whose deltas are
   those of its lines for ever after; the counted SKUs and their expectations are those it was started with.
   */
  lemma {:induction false} TakingLife(s: TakingState, ops: seq<TakingOp>)
    requires TakingTold(s)
    ensures var t := RunTaking(s, ops);
            && TakingTold(t) && SameSnapshot(s.lines, t.lines)
            && (s.status != TakingStarted ==> t == s)
    decreases |ops|
  {
    hide Deltas;
    if ops != [] {
      TakingLife(ActOnTaking(s, ops[0]), ops[1..]);
    }
  }

  /** The count of a SKU is the last one recorded for it before the stock-taking was posted or cancelled. */
  lemma {:induction false} LastCountStands(s: TakingState, ops: seq<TakingOp>, k: nat)
    requires s.status == TakingStarted && k < |s.lines| && SkuIndex(s.lines, s.lines[k].sku) == k
    ensures var t := RunTaking(s, ops);
            k < |t.lines| && t.lines[k].actual == LastCount(ops, s.lines[k].sku, s.lines[k].actual)
    decreases |ops|
  {
    if ops != [] {
      var s' := ActOnTaking(s, ops[0]);
      if ops[0].RecordMeasurement? {
        IndexStays(s.lines, s'.lines, s.lines[k].sku, k);
        LastCountStands(s', ops[1..], k);
      } else {
        ClosedForGood(s', ops[1..]);
      }
    }
  }

  function LastCount(ops: seq<TakingOp>, sku: string,
                     before: Option<StockTypes.Quantity>): Option<StockTypes.Quantity> {
    if ops == [] || !ops[0].RecordMeasurement? then before
    else LastCount(ops[1..], sku, if ops[0].sku == sku then Some(ops[0].actual) else before)
  }

  lemma {:induction false} ClosedForGood(s: TakingState, ops: seq<TakingOp>)
    requires s.status != TakingStarted
    ensures RunTaking(s, ops) == s
    decreases |ops|
  {
    if ops != [] {
      ClosedForGood(s, ops[1..]);
    }
  }

  lemma IndexStays(a: seq<CountLine>, b: seq<CountLine>, sku: string, k: nat)
    requires SameSnapshot(a, b) && k < |a| && SkuIndex(a, sku) == k && a[k].sku == sku
    ensures SkuIndex(b, sku) == k
  {
    assert forall i :: 0 <= i < |a| ==> a[i].sku == b[i].sku;
  }
}
