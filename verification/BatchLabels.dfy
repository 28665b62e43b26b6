/**
 What a batch carries besides the quantity that remains: where it came from, what it cost, when it expires and when
 it arrived. Stock is gauged by labels: every operation is followed through what it adds and takes under each.
 */
module BatchLabels {
  import opened Basics
  import opened Sequences
  import opened StockTypes
  import opened BatchSelection
  import opened StockSpec
  import StockLaws

  datatype Label = Label(
    supplierId: Option<string>,
    sourceType: SourceType,
    sourceDocId: string,
    initial: Quantity,
    unitCost: nat,
    expiresAt: Option<int>,
    receivedAt: int)

  function LabelOf(b: BatchView): Label {
    Label(b.supplierId, b.sourceType, b.sourceDocId, b.initial, b.unitCost, b.expiresAt, b.receivedAt)
  }

  /** A rate per unit for each label. */
  type Gauge = Label -> real

  function Gauging(g: Gauge): BatchView -> real {
    (b: BatchView) => Amount(b) * g(LabelOf(b))
  }

  function Gauged(s: StockState, g: Gauge): real {
    Sum(s.batches, Gauging(g))
  }

  // ---------------------------------------------------------------- what a withdrawal takes

  /** What allocations take from a batch, gauged. */
  function GivenGauge(allocs: seq<Allocation>, g: Gauge): BatchView -> real {
    (b: BatchView) => AllocatedTo(allocs, b.id) * g(LabelOf(b))
  }

  lemma Distribute(a: real, b: real, c: real)
    ensures (a - b) * c == a * c - b * c
    ensures (a + b) * c == a * c + b * c
  {
  }

  lemma ZeroTimes(x: real)
    ensures 0.0 * x == 0.0
  {
  }

  lemma LoweredGauge(b: BatchView, allocs: seq<Allocation>, g: Gauge)
    ensures Gauging(g)(Lowered(b, AllocatedTo(allocs, b.id))) == Gauging(g)(b) - GivenGauge(allocs, g)(b)
  {
    assert LabelOf(Lowered(b, AllocatedTo(allocs, b.id))) == LabelOf(b);
    Distribute(Amount(b), AllocatedTo(allocs, b.id), g(LabelOf(b)));
  }

  lemma {:induction false} DeductedGauge(bs: seq<BatchView>, allocs: seq<Allocation>, g: Gauge)
    ensures Sum(Deducted(bs, allocs), Gauging(g)) == Sum(bs, Gauging(g)) - Sum(bs, GivenGauge(allocs, g))
  {
    hide Gauging, GivenGauge, Lowered, AllocatedTo;
    if bs != [] {
      var ds := Deducted(bs, allocs);
      assert ds[0] == Lowered(bs[0], AllocatedTo(allocs, bs[0].id)) && ds[1..] == Deducted(bs[1..], allocs);
      DeductedGauge(bs[1..], allocs, g);
      LoweredGauge(bs[0], allocs, g);
    }
  }

  /** No label changes and depleted batches hold nothing, so a withdrawal takes away exactly what is given. */
  lemma DrainedGauge(bs: seq<BatchView>, allocs: seq<Allocation>, g: Gauge)
    ensures Sum(Drained(bs, allocs), Gauging(g)) == Sum(bs, Gauging(g)) - Sum(bs, GivenGauge(allocs, g))
  {
    DeductedGauge(bs, allocs, g);
    forall d | d in Deducted(bs, allocs) && !Undepleted(d) ensures Gauging(g)(d) == 0.0 {
      ZeroTimes(g(LabelOf(d)));
    }
    SumFilter(Deducted(bs, allocs), Undepleted, Gauging(g));
  }

  // ---------------------------------------------------------------- what the other operations add

  lemma AppendGauge(s: StockState, b: BatchView, g: Gauge)
    ensures Sum(s.batches + [b], Gauging(g)) == Gauged(s, g) + Gauging(g)(b)
  {
    SumOne(s.batches, b, Gauging(g));
  }

  /** A receive adds its quantity, under the label that its details spell out. */
  lemma ReceivedGauge(s: StockState, id: nat, d: ReceiveDetails, g: Gauge)
    requires Received(s, id, d).Ok?
    ensures Gauged(Received(s, id, d).value, g)
         == Gauged(s, g)
            + d.quantity.amount * g(Label(d.supplierId, d.sourceType, d.sourceDocId, d.quantity, d.unitCost,
                                          d.expiresAt, d.receivedAt))
  {
    hide NewAverage, Total;
    AppendGauge(s, FreshBatch(id, d), g);
    assert LabelOf(FreshBatch(id, d))
        == Label(d.supplierId, d.sourceType, d.sourceDocId, d.quantity, d.unitCost, d.expiresAt, d.receivedAt);
  }

  /** An adjustment upwards adds a batch of no supplier that never expires, at the average cost. */
  lemma AdjustedGauge(s: StockState, id: nat, delta: SignedQuantity, reason: string, strategy: Strategy, at: int,
                      g: Gauge)
    requires delta.unit == s.baseUnit && delta.amount > 0.0 && s.averageCost >= 0
    ensures Adjusted(s, id, delta, reason, strategy, at).Ok?
    ensures Gauged(Adjusted(s, id, delta, reason, strategy, at).value, g)
         == Gauged(s, g)
            + delta.amount * g(Label(None, FromAdjustment, reason, Quantity(delta.amount, delta.unit),
                                     s.averageCost, None, at))
  {
    var b := AdjustmentBatch(s, id, delta.amount, reason, at);
    AppendGauge(s, b, g);
    assert LabelOf(b)
        == Label(None, FromAdjustment, reason, Quantity(delta.amount, delta.unit), s.averageCost, None, at);
  }

  /** What details bring in, up to the first in a foreign unit. */
  function DetailGauge(unit: Unit, details: seq<TransferDetail>, at: int, g: Gauge): real {
    if details == [] || details[0].quantity.unit != unit then 0.0
    else
      var d := details[0];
      d.quantity.amount * g(Label(None, FromTransfer, "TRANSFER", d.quantity, d.unitCost, d.expiresAt, at))
      + DetailGauge(unit, details[1..], at, g)
  }

  lemma {:induction false} IncomingGauge(unit: Unit, id: nat, details: seq<TransferDetail>, at: int, g: Gauge)
    ensures Sum(Incoming(unit, id, details, at), Gauging(g)) == DetailGauge(unit, details, at, g)
    decreases |details|
  {
    if details != [] && details[0].quantity.unit == unit {
      var d := details[0];
      IncomingGauge(unit, id + 1, details[1..], at, g);
      assert LabelOf(IncomingBatch(id, d, at))
          == Label(None, FromTransfer, "TRANSFER", d.quantity, d.unitCost, d.expiresAt, at);
      assert Incoming(unit, id, details, at)[1..] == Incoming(unit, id + 1, details[1..], at);
    }
  }

  /** Details that are transferred in keep their cost and expiry and arrive at the instant of the transfer. */
  lemma TransferredInGauge(s: StockState, id: nat, details: seq<TransferDetail>, at: int, g: Gauge)
    ensures Gauged(TransferredIn(s, id, details, at), g) == Gauged(s, g) + DetailGauge(s.baseUnit, details, at, g)
  {
    IncomingGauge(s.baseUnit, id, details, at, g);
    SumAppend(s.batches, Incoming(s.baseUnit, id, details, at), Gauging(g));
  }

  /** Only what a document brought. */
  function OfDocument(doc: string, g: Gauge): Gauge {
    (l: Label) => if l.sourceDocId == doc then g(l) else 0.0
  }

  lemma DocumentGauging(b: BatchView, doc: string, g: Gauge)
    ensures Gauging(OfDocument(doc, g))(b) == if b.sourceDocId == doc then Gauging(g)(b) else 0.0
  {
    var l := LabelOf(b);
    assert OfDocument(doc, g)(l) == if b.sourceDocId == doc then g(l) else 0.0;
  }

  lemma {:induction false} RemovedGauge(bs: seq<BatchView>, doc: string, g: Gauge)
    ensures Sum(Filter(bs, NotFrom(doc)), Gauging(g)) == Sum(bs, Gauging(g)) - Sum(bs, Gauging(OfDocument(doc, g)))
  {
    if bs != [] {
      RemovedGauge(bs[1..], doc, g);
      DocumentGauging(bs[0], doc, g);
      assert bs == [bs[0]] + bs[1..];
      FilterCons(bs[0], bs[1..], NotFrom(doc));
      assert [] + Filter(bs[1..], NotFrom(doc)) == Filter(bs[1..], NotFrom(doc));
      SumAppend([bs[0]], Filter(bs[1..], NotFrom(doc)), Gauging(g));
    }
  }

  // ---------------------------------------------------------------- what may be used, and in which order

  predicate StillGood(expiresAt: Option<int>, at: int) {
    expiresAt.None? || at < expiresAt.value
  }

  /** What has not expired, and is of a kind. */
  function GoodOf(at: int, kind: Label -> bool): Gauge {
    (l: Label) => if StillGood(l.expiresAt, at) && kind(l) then 1.0 else 0.0
  }

  function AnyKind(): Label -> bool {
    (l: Label) => true
  }

  function ArrivedBy(deadline: int): Label -> bool {
    (l: Label) => l.receivedAt <= deadline
  }

  function GoodUntil(deadline: int): Label -> bool {
    (l: Label) => l.expiresAt.Some? && l.expiresAt.value <= deadline
  }

  function OfKind(kind: Label -> bool): BatchView -> bool {
    (b: BatchView) => kind(LabelOf(b))
  }

  lemma GoodGauging(b: BatchView, at: int, kind: Label -> bool)
    ensures Gauging(GoodOf(at, kind))(b) == if StillGood(b.expiresAt, at) && kind(LabelOf(b)) then Amount(b) else 0.0
  {
    var l := LabelOf(b);
    assert GoodOf(at, kind)(l) == if StillGood(b.expiresAt, at) && kind(l) then 1.0 else 0.0;
  }

  lemma Kinds(b: BatchView, deadline: int)
    ensures OfKind(AnyKind())(b)
    ensures OfKind(ArrivedBy(deadline))(b) <==> b.receivedAt <= deadline
    ensures OfKind(GoodUntil(deadline))(b) <==> b.expiresAt.Some? && b.expiresAt.value <= deadline
  {
    var l := LabelOf(b);
    assert AnyKind()(l) && (ArrivedBy(deadline)(l) <==> b.receivedAt <= deadline);
    assert GoodUntil(deadline)(l) <==> b.expiresAt.Some? && b.expiresAt.value <= deadline;
  }

  /** The two kinds of deadline are served first, each by its strategy. */
  lemma KindsServed(deadline: int)
    ensures ServedFirst(FIFO, OfKind(ArrivedBy(deadline))) && ServedFirst(FEFO, OfKind(GoodUntil(deadline)))
  {
    forall b: BatchView
      ensures OfKind(ArrivedBy(deadline))(b) <==> b.receivedAt <= deadline
      ensures OfKind(GoodUntil(deadline))(b) <==> b.expiresAt.Some? && b.expiresAt.value <= deadline
    {
      Kinds(b, deadline);
    }
  }

  /** What the selector may use of a kind is the good stock of that kind. */
  lemma GoodIsAvailable(s: StockState, at: int, kind: Label -> bool)
    ensures Sum(Filter(s.batches, AvailableAt(at)), AmountIf(OfKind(kind))) == Gauged(s, GoodOf(at, kind))
  {
    var f := Gauging(GoodOf(at, kind));
    FilterMembers(s.batches, AvailableAt(at));
    forall b ensures f(b) == if StillGood(b.expiresAt, at) && OfKind(kind)(b) then Amount(b) else 0.0 {
      GoodGauging(b, at, kind);
    }
    SumFilter(s.batches, AvailableAt(at), f);
    SumSame(Filter(s.batches, AvailableAt(at)), f, AmountIf(OfKind(kind)));
  }

  /** Stock is good until the instant it expires, and not from then on. */
  lemma UnexpiredIs(s: StockState, at: int)
    ensures Unexpired(s, at) == Gauged(s, GoodOf(at, AnyKind()))
  {
    GoodIsAvailable(s, at, AnyKind());
    forall b ensures OfKind(AnyKind())(b) {
      Kinds(b, 0);
    }
    SumSame(Filter(s.batches, AvailableAt(at)), AmountIf(OfKind(AnyKind())), Amount);
  }

  /** At any instant a receive adds its quantity to the good stock, or nothing if it has expired by then. */
  lemma ReceivedUnexpired(s: StockState, id: nat, d: ReceiveDetails, at: int)
    requires Received(s, id, d).Ok?
    ensures Unexpired(Received(s, id, d).value, at)
         == Unexpired(s, at) + if d.expiresAt.None? || at < d.expiresAt.value then d.quantity.amount else 0.0
  {
    hide Received;
    UnexpiredIs(s, at);
    UnexpiredIs(Received(s, id, d).value, at);
    ReceivedGauge(s, id, d, GoodOf(at, AnyKind()));
    var l := Label(d.supplierId, d.sourceType, d.sourceDocId, d.quantity, d.unitCost, d.expiresAt, d.receivedAt);
    assert GoodOf(at, AnyKind())(l) == if StillGood(d.expiresAt, at) then 1.0 else 0.0;
  }

  /** Of a kind that the strategy serves first, a withdrawal takes the lesser of the amount and all that is good. */
  lemma KindServed(s: StockState, amount: real, strategy: Strategy, at: int, kind: Label -> bool)
    requires StateOk(s) && amount >= 0.0 && ServedFirst(strategy, OfKind(kind))
    ensures var good := GoodOf(at, kind);
            Gauged(Withdrawn(s, amount, strategy, at), good) == Gauged(s, good) - MinReal(amount, Gauged(s, good))
  {
    var allocs, good := Chosen(s, amount, strategy, at), GoodOf(at, kind);
    StockLaws.SoundIsPositive(s);
    SelectionTakes(strategy, s.batches, Quantity(amount, s.baseUnit), at, OfKind(kind));
    GoodIsAvailable(s, at, kind);
    DrainedGauge(s.batches, allocs, good);
    forall b | b in s.batches ensures GivenGauge(allocs, good)(b) == Taken(allocs, OfKind(kind))(b) {
      SelectionFits(strategy, s.batches, Quantity(amount, s.baseUnit), at, b);
      ZeroTimes(good(LabelOf(b)));
    }
    SumSame(s.batches, GivenGauge(allocs, good), Taken(allocs, OfKind(kind)));
  }

  /** First in, first out: what was received by a deadline, the new batch included if it was, goes before the rest. */
  lemma FifoServes(s: StockState, id: nat, d: ReceiveDetails, amount: real, at: int, deadline: int)
    requires StateOk(s) && IdsBelow(s.batches, id) && d.quantity.amount >= 0.0 && amount >= 0.0
    requires Received(s, id, d).Ok?
    ensures var early := GoodOf(at, ArrivedBy(deadline));
            var held := Gauged(s, early)
                        + if d.receivedAt <= deadline && StillGood(d.expiresAt, at) then d.quantity.amount else 0.0;
            Gauged(Withdrawn(Received(s, id, d).value, amount, FIFO, at), early) == held - MinReal(amount, held)
  {
    StockLaws.ReceivedOk(s, id, d);
    ReceivedGauge(s, id, d, GoodOf(at, ArrivedBy(deadline)));
    var l := Label(d.supplierId, d.sourceType, d.sourceDocId, d.quantity, d.unitCost, d.expiresAt, d.receivedAt);
    assert GoodOf(at, ArrivedBy(deadline))(l)
        == if d.receivedAt <= deadline && StillGood(d.expiresAt, at) then 1.0 else 0.0;
    KindsServed(deadline);
    hide Received, Gauged, StateOk, Withdrawn;
    KindServed(Received(s, id, d).value, amount, FIFO, at, ArrivedBy(deadline));
  }

  /** First expired, first out: what expires by a deadline, the new batch included if it does, goes before the rest. */
  lemma FefoServes(s: StockState, id: nat, d: ReceiveDetails, amount: real, at: int, deadline: int)
    requires StateOk(s) && IdsBelow(s.batches, id) && d.quantity.amount >= 0.0 && amount >= 0.0
    requires Received(s, id, d).Ok?
    ensures var soon := GoodOf(at, GoodUntil(deadline));
            var held := Gauged(s, soon)
                        + if d.expiresAt.Some? && at < d.expiresAt.value <= deadline then d.quantity.amount else 0.0;
            Gauged(Withdrawn(Received(s, id, d).value, amount, FEFO, at), soon) == held - MinReal(amount, held)
  {
    StockLaws.ReceivedOk(s, id, d);
    ReceivedGauge(s, id, d, GoodOf(at, GoodUntil(deadline)));
    var l := Label(d.supplierId, d.sourceType, d.sourceDocId, d.quantity, d.unitCost, d.expiresAt, d.receivedAt);
    assert GoodUntil(deadline)(l) <==> d.expiresAt.Some? && d.expiresAt.value <= deadline;
    assert GoodOf(at, GoodUntil(deadline))(l)
        == if d.expiresAt.Some? && at < d.expiresAt.value <= deadline then 1.0 else 0.0;
    KindsServed(deadline);
    hide Received, Gauged, StateOk, Withdrawn;
    KindServed(Received(s, id, d).value, amount, FEFO, at, GoodUntil(deadline));
  }
}
