/** The inventory documents: receipts, adjustments, transfers and stock-takings, with the events they raise. */
module Documents {
  import opened Basics
  import opened StockTypes

  // ---------------------------------------------------------------- events the sagas handle

  datatype ReceiptPostedLine = ReceiptPostedLine(sku: string, quantity: Quantity, unitCost: nat, expiresAt: Option<int>)

  datatype ReceiptPosted = ReceiptPosted(
    receiptId: string, supplierId: string, branchId: string, lines: seq<ReceiptPostedLine>, postedAt: int)

  datatype DeltaLine = DeltaLine(sku: string, delta: SignedQuantity)

  datatype AdjustmentApproved = AdjustmentApproved(
    adjustmentId: string, branchId: string, lines: seq<DeltaLine>, reason: string, approvedBy: string, approvedAt: int)

  datatype TransferLine = TransferLine(sku: string, quantity: Quantity)

  datatype TransferPosted = TransferPosted(
    transferId: string, fromBranchId: string, toBranchId: string, lines: seq<TransferLine>, postedAt: int)

  datatype StockTakingPosted = StockTakingPosted(
    stockTakingId: string, branchId: string, deltas: seq<DeltaLine>, postedBy: string, postedAt: int)

  datatype DocumentError =
    | AlreadyPosted
    | CannotEditAfterPost
    | EmptyDocument
    | NotPosted
    | NotDraft
    | SameBranch
    | AlreadyDecided
    | NotStarted
    | SkuNotFound(sku: string)

  // ---------------------------------------------------------------- receipts

  datatype ReceiptStatus = ReceiptDraft | ReceiptIsPosted | ReceiptIsCancelled

  datatype ReceiptLine = ReceiptLine(
    id: string, sku: string, packagingId: Option<string>, packageQuantity: real,
    baseQuantity: Quantity, unitCost: nat, expiresAt: Option<int>)

  /** The last field holds the postings raised so far. */
  datatype ReceiptState = ReceiptState(
    id: string, supplierId: string, branchId: string,
    status: ReceiptStatus, lines: seq<ReceiptLine>, attachmentUrl: Option<string>,
    postedBy: Option<string>, postedAt: Option<int>, raised: seq<ReceiptPosted>)

  datatype ReceiptOp =
    | AddLine(line: ReceiptLine)
    | UpdateLine(lineId: string, line: ReceiptLine)
    | RemoveLine(lineId: string)
    | AttachInvoiceFile(url: string)
    | PostReceipt(user: string, at: int)
    | CancelReceipt

  /** The first line with an id, or the number of lines. */
  function LineIndex(lines: seq<ReceiptLine>, id: string): (k: nat)
    ensures k <= |lines|
  {
    if lines == [] || lines[0].id == id then 0 else 1 + LineIndex(lines[1..], id)
  }

  function DraftError(status: ReceiptStatus): Option<DocumentError> {
    match status
    case ReceiptDraft => None
    case ReceiptIsPosted => Some(AlreadyPosted)
    case ReceiptIsCancelled => Some(CannotEditAfterPost)
  }

  function StepReceipt(s: ReceiptState, op: ReceiptOp): Result<ReceiptState, DocumentError> {
    if op.CancelReceipt? then
      if s.status != ReceiptIsPosted then Err(NotPosted) else Ok(s.(status := ReceiptIsCancelled))
    else
      match DraftError(s.status)
      case Some(e) => Err(e)
      case None =>
        match op
        case AddLine(line) => Ok(s.(lines := s.lines + [line]))
        case UpdateLine(lineId, line) =>
          var k := LineIndex(s.lines, lineId);
          if k < |s.lines| then Ok(s.(lines := s.lines[k := line])) else Ok(s)
        case RemoveLine(lineId) =>
          var k := LineIndex(s.lines, lineId);
          if k < |s.lines| then Ok(s.(lines := s.lines[..k] + s.lines[k + 1..])) else Ok(s)
        case AttachInvoiceFile(url) => Ok(s.(attachmentUrl := Some(url)))
        case PostReceipt(user, at) =>
          if s.lines == [] then Err(EmptyDocument)
          else
            var posting := ReceiptPosted(s.id, s.supplierId, s.branchId, PostedLines(s.lines), at);
            Ok(s.(status := ReceiptIsPosted, postedBy := Some(user), postedAt := Some(at),
                  raised := s.raised + [posting]))
  }

  function PostedLines(lines: seq<ReceiptLine>): seq<ReceiptPostedLine> {
    seq(|lines|, i requires 0 <= i < |lines| =>
      ReceiptPostedLine(lines[i].sku, lines[i].baseQuantity, lines[i].unitCost, lines[i].expiresAt))
  }

  function NewReceipt(id: string, supplierId: string, branchId: string): ReceiptState {
    ReceiptState(id, supplierId, branchId, ReceiptDraft, [], None, None, None, [])
  }

  class Receipt {
    const id: string
    const supplierId: string
    const branchId: string
    var status: ReceiptStatus
    var lines: seq<ReceiptLine>
    var attachmentUrl: Option<string>
    var postedBy: Option<string>
    var postedAt: Option<int>
    var raised: seq<ReceiptPosted>

    constructor (id: string, supplierId: string, branchId: string)
      ensures State() == NewReceipt(id, supplierId, branchId)
    {
      this.id, this.supplierId, this.branchId := id, supplierId, branchId;
      status, lines, attachmentUrl, postedBy, postedAt, raised := ReceiptDraft, [], None, None, None, [];
    }

    function State(): ReceiptState
      reads this
    {
      ReceiptState(id, supplierId, branchId, status, lines, attachmentUrl, postedBy, postedAt, raised)
    }

    predicate Stepped(r: Option<DocumentError>, before: ReceiptState, op: ReceiptOp)
      reads this
    {
      match StepReceipt(before, op)
      case Ok(s) => r == None && State() == s
      case Err(e) => r == Some(e) && State() == before
    }

    /** `findIndex` by id. */
    method FindLine(lineId: string) returns (k: nat)
      ensures k == LineIndex(lines, lineId)
    {
      k := 0;
      while k < |lines|
        invariant k <= |lines|
        invariant LineIndex(lines, lineId) == k + LineIndex(lines[k..], lineId)
      {
        if lines[k].id == lineId {
          return;
        }
        assert lines[k..][1..] == lines[k + 1..];
        k := k + 1;
      }
    }

    method AddLine(line: ReceiptLine) returns (r: Option<DocumentError>)
      modifies this
      ensures Stepped(r, old(State()), ReceiptOp.AddLine(line))
    {
      r := DraftError(status);
      if r.None? {
        lines := lines + [line];
      }
    }

    method UpdateLine(lineId: string, line: ReceiptLine) returns (r: Option<DocumentError>)
      modifies this
      ensures Stepped(r, old(State()), ReceiptOp.UpdateLine(lineId, line))
    {
      r := DraftError(status);
      if r.None? {
        var k := FindLine(lineId);
        if k < |lines| {
          lines := lines[k := line];
        }
      }
    }

    method RemoveLine(lineId: string) returns (r: Option<DocumentError>)
      modifies this
      ensures Stepped(r, old(State()), ReceiptOp.RemoveLine(lineId))
    {
      r := DraftError(status);
      if r.None? {
        var k := FindLine(lineId);
        if k < |lines| {
          lines := lines[..k] + lines[k + 1..];
        }
      }
    }

    method AttachInvoiceFile(url: string) returns (r: Option<DocumentError>)
      modifies this
      ensures Stepped(r, old(State()), ReceiptOp.AttachInvoiceFile(url))
    {
      r := DraftError(status);
      if r.None? {
        attachmentUrl := Some(url);
      }
    }

    method Post(user: string, at: int) returns (r: Option<DocumentError>)
      modifies this
      ensures Stepped(r, old(State()), PostReceipt(user, at))
    {
      r := DraftError(status);
      if r.Some? {
        return;
      }
      if |lines| == 0 {
        return Some(EmptyDocument);
      }
      status := ReceiptIsPosted;
      postedBy := Some(user);
      postedAt := Some(at);
      raised := raised + [ReceiptPosted(id, supplierId, branchId, PostedLines(lines), at)];
    }

    method Cancel() returns (r: Option<DocumentError>)
      modifies this
      ensures Stepped(r, old(State()), CancelReceipt)
    {
      if status != ReceiptIsPosted {
        return Some(NotPosted);
      }
      status := ReceiptIsCancelled;
      r := None;
    }
  }

  // ---------------------------------------------------------------- adjustments

  datatype AdjustmentStatus = AdjustmentPending | AdjustmentIsApproved | AdjustmentIsRejected

  datatype AdjustmentLine = AdjustmentLine(sku: string, delta: SignedQuantity, snapshotUnitCost: nat)

  function DeltaLines(lines: seq<AdjustmentLine>): seq<DeltaLine> {
    seq(|lines|, i requires 0 <= i < |lines| => DeltaLine(lines[i].sku, lines[i].delta))
  }

  function TotalCents(lines: seq<AdjustmentLine>): int {
    if lines == [] then 0
    else
      TotalCents(lines[..|lines| - 1])
      + Round(lines[|lines| - 1].delta.amount * lines[|lines| - 1].snapshotUnitCost as real)
  }

  /** The last field holds the approvals raised so far. */
  datatype AdjustmentState = AdjustmentState(
    id: string, branchId: string, reason: string, lines: seq<AdjustmentLine>, totalAmountCents: int,
    status: AdjustmentStatus, approvedBy: Option<string>, approvedAt: Option<int>, approvals: seq<AdjustmentApproved>)

  datatype AdjustmentOp =
    | ApproveAdjustment(user: string, at: int)
    | RejectAdjustment

  function ApprovedBy(s: AdjustmentState, user: string, at: int): AdjustmentState {
    s.(status := AdjustmentIsApproved, approvedBy := Some(user), approvedAt := Some(at),
       approvals := s.approvals + [AdjustmentApproved(s.id, s.branchId, DeltaLines(s.lines), s.reason, user, at)])
  }

  function StepAdjustment(s: AdjustmentState, op: AdjustmentOp): Result<AdjustmentState, DocumentError> {
    if s.status != AdjustmentPending then Err(AlreadyDecided)
    else
      match op
      case ApproveAdjustment(user, at) => Ok(ApprovedBy(s, user, at))
      case RejectAdjustment => Ok(s.(status := AdjustmentIsRejected))
  }

  /** A new adjustment, approved at once when its absolute total is under the threshold. */
  function NewAdjustment(id: string, branchId: string, reason: string, lines: seq<AdjustmentLine>,
                         createdBy: string, createdAt: int, autoApprovalThreshold: nat): AdjustmentState
  {
    var s := AdjustmentState(id, branchId, reason, lines, TotalCents(lines), AdjustmentPending, None, None, []);
    if AbsInt(TotalCents(lines)) < autoApprovalThreshold then ApprovedBy(s, createdBy, createdAt) else s
  }

  class Adjustment {
    const id: string
    const branchId: string
    const reason: string
    const lines: seq<AdjustmentLine>
    const totalAmountCents: int
    var status: AdjustmentStatus
    var approvedBy: Option<string>
    var approvedAt: Option<int>
    /** The approvals raised so far. */
    var approvals: seq<AdjustmentApproved>

    constructor Fields(id: string, branchId: string, reason: string, lines: seq<AdjustmentLine>, totalAmountCents: int,
                       status: AdjustmentStatus, approvedBy: Option<string>, approvedAt: Option<int>)
      ensures this.id == id && this.branchId == branchId && this.reason == reason && this.lines == lines
      ensures this.totalAmountCents == totalAmountCents && this.status == status
      ensures this.approvedBy == approvedBy && this.approvedAt == approvedAt && approvals == []
    {
      this.id, this.branchId, this.reason, this.lines := id, branchId, reason, lines;
      this.totalAmountCents, this.status := totalAmountCents, status;
      this.approvedBy, this.approvedAt := approvedBy, approvedAt;
      approvals := [];
    }

    function State(): AdjustmentState
      reads this
    {
      AdjustmentState(id, branchId, reason, lines, totalAmountCents, status, approvedBy, approvedAt, approvals)
    }

    predicate Stepped(r: Option<DocumentError>, before: AdjustmentState, op: AdjustmentOp)
      reads this
    {
      match StepAdjustment(before, op)
      case Ok(s) => r == None && State() == s
      case Err(e) => r == Some(e) && State() == before
    }

    static method ComputeTotalCents(lines: seq<AdjustmentLine>) returns (total: int)
      ensures total == TotalCents(lines)
    {
      total := 0;
      var i := 0;
      while i < |lines|
        invariant i <= |lines|
        invariant total == TotalCents(lines[..i])
      {
        total := total + Round(lines[i].delta.amount * lines[i].snapshotUnitCost as real);
        assert lines[..i + 1][..i] == lines[..i];
        i := i + 1;
      }
      assert lines[..i] == lines;
    }

    static method Create(id: string, branchId: string, reason: string, lines: seq<AdjustmentLine>,
                         createdBy: string, createdAt: int, autoApprovalThreshold: nat)
      returns (r: Result<Adjustment, DocumentError>)
      ensures lines == [] ==> r == Err(EmptyDocument)
      ensures lines != [] ==>
                && r.Ok? && fresh(r.value)
                && r.value.State()
                   == NewAdjustment(id, branchId, reason, lines, createdBy, createdAt, autoApprovalThreshold)
    {
      if |lines| == 0 {
        return Err(EmptyDocument);
      }
      var totalCents := ComputeTotalCents(lines);
      var absTotalCents := if totalCents < 0 then -totalCents else totalCents;
      var autoApprove := absTotalCents < autoApprovalThreshold;
      var adj := new Adjustment.Fields(id, branchId, reason, lines, totalCents,
        if autoApprove then AdjustmentIsApproved else AdjustmentPending,
        if autoApprove then Some(createdBy) else None,
        if autoApprove then Some(createdAt) else None);
      if autoApprove {
        adj.approvals := [AdjustmentApproved(id, branchId, DeltaLines(lines), reason, createdBy, createdAt)];
      }
      r := Ok(adj);
    }

    method Approve(user: string, at: int) returns (r: Option<DocumentError>)
      modifies this
      ensures Stepped(r, old(State()), ApproveAdjustment(user, at))
    {
      if status != AdjustmentPending {
        return Some(AlreadyDecided);
      }
      status := AdjustmentIsApproved;
      approvedBy := Some(user);
      approvedAt := Some(at);
      approvals := approvals + [AdjustmentApproved(id, branchId, DeltaLines(lines), reason, user, at)];
      r := None;
    }

    method Reject() returns (r: Option<DocumentError>)
      modifies this
      ensures Stepped(r, old(State()), RejectAdjustment)
    {
      if status != AdjustmentPending {
        return Some(AlreadyDecided);
      }
      status := AdjustmentIsRejected;
      r := None;
    }
  }

  // ---------------------------------------------------------------- transfers

  datatype TransferStatus = TransferDraft | TransferIsPosted | TransferIsCancelled

  /** The last field holds the postings raised so far. */
  datatype TransferState = TransferState(
    id: string, fromBranchId: string, toBranchId: string, lines: seq<TransferLine>,
    status: TransferStatus, postedBy: Option<string>, postedAt: Option<int>, raised: seq<TransferPosted>)

  datatype TransferOp =
    | PostTransfer(user: string, at: int)
    | CancelTransfer

  function NewTransfer(id: string, fromBranchId: string, toBranchId: string, lines: seq<TransferLine>)
    : Result<TransferState, DocumentError>
  {
    if fromBranchId == toBranchId then Err(SameBranch)
    else if lines == [] then Err(EmptyDocument)
    else Ok(TransferState(id, fromBranchId, toBranchId, lines, TransferDraft, None, None, []))
  }

  function StepTransfer(s: TransferState, op: TransferOp): Result<TransferState, DocumentError> {
    match op
    case PostTransfer(user, at) =>
      if s.status == TransferIsPosted then Err(AlreadyPosted)
      else if s.status != TransferDraft then Err(NotDraft)
      else
        Ok(s.(status := TransferIsPosted, postedBy := Some(user), postedAt := Some(at),
              raised := s.raised + [TransferPosted(s.id, s.fromBranchId, s.toBranchId, s.lines, at)]))
    case CancelTransfer =>
      if s.status != TransferDraft then Err(NotDraft) else Ok(s.(status := TransferIsCancelled))
  }

  class Transfer {
    const id: string
    const fromBranchId: string
    const toBranchId: string
    const lines: seq<TransferLine>
    var status: TransferStatus
    var postedBy: Option<string>
    var postedAt: Option<int>
    var raised: seq<TransferPosted>

    constructor Fields(id: string, fromBranchId: string, toBranchId: string, lines: seq<TransferLine>)
      ensures State() == TransferState(id, fromBranchId, toBranchId, lines, TransferDraft, None, None, [])
    {
      this.id, this.fromBranchId, this.toBranchId, this.lines := id, fromBranchId, toBranchId, lines;
      status, postedBy, postedAt, raised := TransferDraft, None, None, [];
    }

    function State(): TransferState
      reads this
    {
      TransferState(id, fromBranchId, toBranchId, lines, status, postedBy, postedAt, raised)
    }

    predicate Stepped(r: Option<DocumentError>, before: TransferState, op: TransferOp)
      reads this
    {
      match StepTransfer(before, op)
      case Ok(s) => r == None && State() == s
      case Err(e) => r == Some(e) && State() == before
    }

    static method Create(id: string, fromBranchId: string, toBranchId: string, lines: seq<TransferLine>)
      returns (r: Result<Transfer, DocumentError>)
      ensures match NewTransfer(id, fromBranchId, toBranchId, lines)
              case Ok(s) => r.Ok? && fresh(r.value) && r.value.State() == s
              case Err(e) => r == Err(e)
    {
      if fromBranchId == toBranchId {
        return Err(SameBranch);
      }
      if |lines| == 0 {
        return Err(EmptyDocument);
      }
      var t := new Transfer.Fields(id, fromBranchId, toBranchId, lines);
      r := Ok(t);
    }

    method Post(user: string, at: int) returns (r: Option<DocumentError>)
      modifies this
      ensures Stepped(r, old(State()), PostTransfer(user, at))
    {
      if status == TransferIsPosted {
        return Some(AlreadyPosted);
      }
      if status != TransferDraft {
        return Some(NotDraft);
      }
      status := TransferIsPosted;
      postedBy := Some(user);
      postedAt := Some(at);
      raised := raised + [TransferPosted(id, fromBranchId, toBranchId, lines, at)];
      r := None;
    }

    method Cancel() returns (r: Option<DocumentError>)
      modifies this
      ensures Stepped(r, old(State()), CancelTransfer)
    {
      if status != TransferDraft {
        return Some(NotDraft);
      }
      status := TransferIsCancelled;
      r := None;
    }
  }

  // ---------------------------------------------------------------- stock-taking

  datatype StockTakingStatus = TakingStarted | TakingPosted | TakingCancelled

  /** A counted line as a value: the quantity expected, and the quantity found once it is measured. */
  datatype CountLine = CountLine(sku: string, expected: Quantity, actual: Option<Quantity>)

  function ComputeDelta(line: CountLine): Option<SignedQuantity> {
    match line.actual
    case None => None
    case Some(actual) => Some(SignedQuantity(actual.amount - line.expected.amount, line.expected.unit))
  }

  /** The non-zero deltas of the measured lines, in order. */
  function Deltas(lines: seq<CountLine>): seq<DeltaLine> {
    if lines == [] then []
    else
      var front := Deltas(lines[..|lines| - 1]);
      var line := lines[|lines| - 1];
      match ComputeDelta(line)
      case None => front
      case Some(delta) => if delta.amount == 0.0 then front else front + [DeltaLine(line.sku, delta)]
  }

  class StockTakingLine {
    const sku: string
    const expectedQuantity: Quantity
    var actualQuantity: Option<Quantity>

    constructor (sku: string, expectedQuantity: Quantity)
      ensures View() == CountLine(sku, expectedQuantity, None)
    {
      this.sku, this.expectedQuantity, actualQuantity := sku, expectedQuantity, None;
    }

    function View(): CountLine
      reads this
    {
      CountLine(sku, expectedQuantity, actualQuantity)
    }

    method RecordActual(actual: Quantity)
      modifies this
      ensures View() == old(View()).(actual := Some(actual))
    {
      actualQuantity := Some(actual);
    }
  }

  function SkuIndex(lines: seq<CountLine>, sku: string): (k: nat)
    ensures k <= |lines| && (k < |lines| ==> lines[k].sku == sku) && forall j :: 0 <= j < k ==> lines[j].sku != sku
  {
    if lines == [] || lines[0].sku == sku then 0 else 1 + SkuIndex(lines[1..], sku)
  }

  /** The last field holds the postings raised so far. */
  datatype TakingState = TakingState(
    id: string, branchId: string, status: StockTakingStatus, lines: seq<CountLine>,
    completedAt: Option<int>, raised: seq<StockTakingPosted>)

  datatype TakingOp =
    | RecordMeasurement(sku: string, actual: Quantity)
    | PostTaking(user: string, at: int)
    | CancelTaking(at: int)

  function NewLines(snapshotLines: seq<(string, Quantity)>): seq<CountLine> {
    seq(|snapshotLines|, i requires 0 <= i < |snapshotLines| => CountLine(snapshotLines[i].0, snapshotLines[i].1, None))
  }

  function StartedError(status: StockTakingStatus): Option<DocumentError> {
    match status
    case TakingStarted => None
    case TakingPosted => Some(AlreadyPosted)
    case TakingCancelled => Some(NotStarted)
  }

  function StepTaking(s: TakingState, op: TakingOp): Result<TakingState, DocumentError> {
    match StartedError(s.status)
    case Some(e) => Err(e)
    case None =>
      match op
      case RecordMeasurement(sku, actual) =>
        var k := SkuIndex(s.lines, sku);
        if k == |s.lines| then Err(SkuNotFound(sku))
        else Ok(s.(lines := s.lines[k := s.lines[k].(actual := Some(actual))]))
      case PostTaking(user, at) =>
        var posting := StockTakingPosted(s.id, s.branchId, Deltas(s.lines), user, at);
        Ok(s.(status := TakingPosted, completedAt := Some(at), raised := s.raised + [posting]))
      case CancelTaking(at) => Ok(s.(status := TakingCancelled, completedAt := Some(at)))
  }

  class StockTaking {
    const id: string
    const branchId: string
    var status: StockTakingStatus
    var lines: seq<StockTakingLine>
    var completedAt: Option<int>
    var raised: seq<StockTakingPosted>

    function Views(): seq<CountLine>
      reads this, lines
    {
      seq(|lines|, i requires 0 <= i < |lines| reads this, lines => lines[i].View())
    }

    function State(): TakingState
      reads this, lines
    {
      TakingState(id, branchId, status, Views(), completedAt, raised)
    }

    ghost predicate Valid()
      reads this
    {
      forall i, j :: 0 <= i < j < |lines| ==> lines[i] != lines[j]
    }

    predicate Stepped(r: Option<DocumentError>, before: TakingState, op: TakingOp)
      reads this, lines
    {
      match StepTaking(before, op)
      case Ok(s) => r == None && State() == s
      case Err(e) => r == Some(e) && State() == before
    }

    constructor Start(id: string, branchId: string, snapshotLines: seq<(string, Quantity)>)
      ensures Valid() && fresh(lines)
      ensures State() == TakingState(id, branchId, TakingStarted, NewLines(snapshotLines), None, [])
    {
      this.id, this.branchId, status, completedAt, lines, raised := id, branchId, TakingStarted, None, [], [];
      new;
      var i := 0;
      while i < |snapshotLines|
        invariant i <= |snapshotLines| && |lines| == i && fresh(lines) && Valid()
        invariant status == TakingStarted && completedAt == None && raised == []
        invariant forall j :: 0 <= j < i ==> lines[j].View() == CountLine(snapshotLines[j].0, snapshotLines[j].1, None)
      {
        var line := new StockTakingLine(snapshotLines[i].0, snapshotLines[i].1);
        lines := lines + [line];
        i := i + 1;
      }
      assert Views() == NewLines(snapshotLines);
    }

    /** Records the count of the first line with the SKU; a later measurement replaces an earlier one. */
    method RecordMeasurement(sku: string, actual: Quantity) returns (r: Option<DocumentError>)
      requires Valid()
      modifies lines
      ensures Valid() && Stepped(r, old(State()), TakingOp.RecordMeasurement(sku, actual))
    {
      r := StartedError(status);
      if r.Some? {
        return;
      }
      ghost var vs := Views();
      var k := SkuIndex(Views(), sku);
      if k == |lines| {
        return Some(SkuNotFound(sku));
      }
      lines[k].RecordActual(actual);
      assert Views() == vs[k := vs[k].(actual := Some(actual))];
    }

    method Post(user: string, at: int) returns (r: Option<DocumentError>)
      modifies this
      ensures Stepped(r, old(State()), PostTaking(user, at)) && lines == old(lines)
    {
      r := StartedError(status);
      if r.Some? {
        return;
      }
      status := TakingPosted;
      completedAt := Some(at);
      ghost var vs := Views();
      var deltas := [];
      var i := 0;
      while i < |lines|
        invariant i <= |lines|
        invariant deltas == Deltas(vs[..i])
      {
        var delta := ComputeDelta(lines[i].View());
        assert vs[..i + 1][..i] == vs[..i] && vs[i] == lines[i].View();
        if delta.Some? && delta.value.amount != 0.0 {
          deltas := deltas + [DeltaLine(lines[i].sku, delta.value)];
        }
        i := i + 1;
      }
      assert vs[..i] == vs;
      raised := raised + [StockTakingPosted(id, branchId, deltas, user, at)];
      assert Views() == vs == old(State()).lines && status == TakingPosted && completedAt == Some(at);
      assert raised == old(State()).raised + [StockTakingPosted(id, branchId, Deltas(vs), user, at)];
    }

    method Cancel(at: int) returns (r: Option<DocumentError>)
      modifies this
      ensures Stepped(r, old(State()), CancelTaking(at)) && lines == old(lines)
    {
      r := StartedError(status);
      if r.Some? {
        return;
      }
      status := TakingCancelled;
      completedAt := Some(at);
    }
  }
}
