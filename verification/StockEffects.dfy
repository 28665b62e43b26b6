/** Quantity, value and average cost: what one operation moves, and what whole runs add up to. */
module StockEffects {
  import opened Basics
  import opened Sequences
  import opened StockTypes
  import opened BatchSelection
  import opened StockSpec
  import opened BatchLabels
  import StockLaws

  // ---------------------------------------------------------------- weighing stock

  /** A weight per unit that depends only on what a transfer preserves: unit cost and expiry. */
  type Weight = (nat, Option<int>) -> real

  function Weigh(w: Weight): BatchView -> real {
    (b: BatchView) => Amount(b) * w(b.unitCost, b.expiresAt)
  }

  function Weighed(s: StockState, w: Weight): real {
    Sum(s.batches, Weigh(w))
  }

  function One(): Weight {
    (cost: nat, expiry: Option<int>) => 1.0
  }

  function ByCost(): Weight {
    (cost: nat, expiry: Option<int>) => cost as real
  }

  /** Only the stock of one unit cost and one expiry. */
  function OfClass(unitCost: nat, expiresAt: Option<int>): Weight {
    (cost: nat, expiry: Option<int>) => if cost == unitCost && expiry == expiresAt then 1.0 else 0.0
  }

  lemma WeighedByOne(s: StockState)
    ensures Weighed(s, One()) == Total(s)
  {
    SumSame(s.batches, Weigh(One()), Amount);
  }

  /** What allocations take from a batch, weighed. */
  function GivenWeight(allocs: seq<Allocation>, w: Weight): BatchView -> real {
    (b: BatchView) => AllocatedTo(allocs, b.id) * w(b.unitCost, b.expiresAt)
  }

  function DetailWeight(details: seq<TransferDetail>, w: Weight): real {
    if details == [] then 0.0
    else details[0].quantity.amount * w(details[0].unitCost, details[0].expiresAt) + DetailWeight(details[1..], w)
  }

  /** A weight as a gauge of labels. */
  function ByLabel(w: Weight): Gauge {
    (l: Label) => w(l.unitCost, l.expiresAt)
  }

  lemma WeighsAs(b: BatchView, allocs: seq<Allocation>, w: Weight)
    ensures Weigh(w)(b) == Gauging(ByLabel(w))(b) && GivenWeight(allocs, w)(b) == GivenGauge(allocs, ByLabel(w))(b)
  {
    assert ByLabel(w)(LabelOf(b)) == w(b.unitCost, b.expiresAt);
  }

  /** A withdrawal takes away exactly what is given. */
  lemma DrainedWeight(bs: seq<BatchView>, allocs: seq<Allocation>, w: Weight)
    ensures Sum(Drained(bs, allocs), Weigh(w)) == Sum(bs, Weigh(w)) - Sum(bs, GivenWeight(allocs, w))
  {
    hide Weigh, GivenWeight, Gauging, GivenGauge, Drained;
    forall b
      ensures Weigh(w)(b) == Gauging(ByLabel(w))(b) && GivenWeight(allocs, w)(b) == GivenGauge(allocs, ByLabel(w))(b)
    {
      WeighsAs(b, allocs, w);
    }
    DrainedGauge(bs, allocs, ByLabel(w));
    SumSame(Drained(bs, allocs), Weigh(w), Gauging(ByLabel(w)));
    SumSame(bs, Weigh(w), Gauging(ByLabel(w)));
    SumSame(bs, GivenWeight(allocs, w), GivenGauge(allocs, ByLabel(w)));
  }

  /** Each allocation names a batch of the stock and carries its cost. */
  ghost predicate Matches(bs: seq<BatchView>, allocs: seq<Allocation>) {
    forall a :: a in allocs ==> exists b :: b in bs && b.id == a.batchId && b.unitCost == a.unitCost
  }

  lemma {:induction false} GreedyMatches(bs: seq<BatchView>, sorted: seq<BatchView>, unit: Unit, amount: real)
    requires forall b :: b in sorted ==> b in bs
    ensures Matches(bs, Greedy(sorted, unit, amount))
  {
    if sorted != [] && amount > 0.0 {
      GreedyMatches(bs, sorted[1..], unit, amount - MinReal(amount, Amount(sorted[0])));
      assert sorted[0] in bs;
    }
  }

  /** A quantity of one batch, zero elsewhere. */
  function OnlyAt(id: nat, q: real, w: Weight): BatchView -> real {
    (b: BatchView) => if b.id == id then q * w(b.unitCost, b.expiresAt) else 0.0
  }

  lemma {:induction false} SumOnlyAt(bs: seq<BatchView>, b: BatchView, q: real, w: Weight)
    requires DistinctIds(bs) && b in bs
    ensures Sum(bs, OnlyAt(b.id, q, w)) == q * w(b.unitCost, b.expiresAt)
    ensures ExpiryOf(bs, b.id) == b.expiresAt
  {
    if bs[0].id == b.id {
      SameBatch(bs, bs[0], b);
      assert forall c :: c in bs[1..] ==> c.id != b.id;
      SumZero(bs[1..], OnlyAt(b.id, q, w));
    } else {
      SumOnlyAt(bs[1..], b, q, w);
    }
  }

  /** The first allocation adds its own weight. */
  lemma GivenStep(bs: seq<BatchView>, allocs: seq<Allocation>, b: BatchView, w: Weight)
    requires DistinctIds(bs) && b in bs && allocs != [] && allocs[0].batchId == b.id
    ensures Sum(bs, GivenWeight(allocs, w))
         == Sum(bs, GivenWeight(allocs[1..], w)) + allocs[0].quantity.amount * w(b.unitCost, b.expiresAt)
  {
    hide GivenWeight, OnlyAt, Sum, DistinctIds;
    var q, rest := allocs[0].quantity.amount, allocs[1..];
    SumOnlyAt(bs, b, q, w);
    forall c | c in bs ensures OnlyAt(b.id, q, w)(c) == GivenWeight(allocs, w)(c) - GivenWeight(rest, w)(c) {
      GivenAt(allocs, c, w);
    }
    SumMinus(bs, GivenWeight(allocs, w), GivenWeight(rest, w), OnlyAt(b.id, q, w));
  }

  lemma GivenAt(allocs: seq<Allocation>, c: BatchView, w: Weight)
    requires allocs != []
    ensures GivenWeight(allocs, w)(c)
         == GivenWeight(allocs[1..], w)(c) + OnlyAt(allocs[0].batchId, allocs[0].quantity.amount, w)(c)
  {
    var weight := w(c.unitCost, c.expiresAt);
    if allocs[0].batchId == c.id {
      Distribute(allocs[0].quantity.amount, AllocatedTo(allocs[1..], c.id), weight);
    }
  }

  /** Summed over the stock or over the allocations, what is given weighs the same. */
  lemma {:induction false} GivenIsDetails(bs: seq<BatchView>, allocs: seq<Allocation>, w: Weight)
    requires DistinctIds(bs) && Matches(bs, allocs)
    ensures Sum(bs, GivenWeight(allocs, w)) == DetailWeight(Details(bs, allocs), w)
  {
    hide Sum, ExpiryOf, DistinctIds;
    if allocs == [] {
      forall c | c in bs ensures GivenWeight(allocs, w)(c) == 0.0 {
        ZeroTimes(w(c.unitCost, c.expiresAt));
      }
      SumZero(bs, GivenWeight(allocs, w));
    } else {
      var a, rest := allocs[0], allocs[1..];
      assert Matches(bs, rest) by {
        assert forall x :: x in rest ==> x in allocs;
      }
      GivenIsDetails(bs, rest, w);
      assert a in allocs;
      var b :| b in bs && b.id == a.batchId && b.unitCost == a.unitCost;
      GivenStep(bs, allocs, b, w);
      SumOnlyAt(bs, b, a.quantity.amount, w);
      assert Details(bs, allocs)[1..] == Details(bs, rest);
    }
  }

  lemma ChosenMatches(s: StockState, amount: real, strategy: Strategy, at: int)
    requires StateOk(s)
    ensures Matches(s.batches, Chosen(s, amount, strategy, at))
  {
    StockLaws.SoundIsPositive(s);
    CandidatesSound(strategy, s.batches, at);
    GreedyMatches(s.batches, Candidates(strategy, s.batches, at), s.baseUnit, amount);
  }

  /** What leaves a stock by a withdrawal weighs what the transfer details carry, for every weight. */
  lemma WithdrawnWeight(s: StockState, amount: real, strategy: Strategy, at: int, w: Weight)
    requires StateOk(s)
    ensures Weighed(Withdrawn(s, amount, strategy, at), w)
         == Weighed(s, w) - DetailWeight(Outgoing(s, amount, strategy, at), w)
  {
    hide Chosen;
    var allocs := Chosen(s, amount, strategy, at);
    DrainedWeight(s.batches, allocs, w);
    ChosenMatches(s, amount, strategy, at);
    GivenIsDetails(s.batches, allocs, w);
  }

  lemma {:induction false} IncomingWeight(unit: Unit, id: nat, details: seq<TransferDetail>, at: int, w: Weight)
    requires AllInUnit(details, unit)
    ensures Sum(Incoming(unit, id, details, at), Weigh(w)) == DetailWeight(details, w)
    decreases |details|
  {
    if details != [] {
      IncomingWeight(unit, id + 1, details[1..], at, w);
      assert Incoming(unit, id, details, at)[1..] == Incoming(unit, id + 1, details[1..], at);
    }
  }

  lemma TransferredInWeight(s: StockState, id: nat, details: seq<TransferDetail>, at: int, w: Weight)
    requires AllInUnit(details, s.baseUnit)
    ensures Weighed(TransferredIn(s, id, details, at), w) == Weighed(s, w) + DetailWeight(details, w)
  {
    IncomingWeight(s.baseUnit, id, details, at, w);
    SumAppend(s.batches, Incoming(s.baseUnit, id, details, at), Weigh(w));
  }

  // ---------------------------------------------------------------- totals

  /**
   A withdrawal lowers the total by exactly the amount asked or, when that is less, by all the
   unexpired stock: the guard counts expired batches but the selector does not use them.
   */
  lemma WithdrawnTotal(s: StockState, amount: real, strategy: Strategy, at: int)
    requires StateOk(s) && amount >= 0.0
    ensures Total(Withdrawn(s, amount, strategy, at)) == Total(s) - MinReal(amount, Unexpired(s, at))
  {
    hide Chosen;
    var allocs := Chosen(s, amount, strategy, at);
    var s' := Withdrawn(s, amount, strategy, at);
    WeighedByOne(s);
    WeighedByOne(s');
    DrainedWeight(s.batches, allocs, One());
    SumSame(s.batches, GivenWeight(allocs, One()), GivenBy(allocs));
    StockLaws.SoundIsPositive(s);
    ChosenGiven(s, amount, strategy, at);
  }

  lemma ChosenGiven(s: StockState, amount: real, strategy: Strategy, at: int)
    requires StateOk(s) && amount >= 0.0
    ensures Sum(s.batches, GivenBy(Chosen(s, amount, strategy, at))) == MinReal(amount, Unexpired(s, at))
  {
    StockLaws.SoundIsPositive(s);
    SelectionTotal(strategy, s.batches, Quantity(amount, s.baseUnit), at);
  }

  lemma UnexpiredBounds(s: StockState, at: int)
    requires StateOk(s)
    ensures 0.0 <= Unexpired(s, at) <= Total(s)
  {
    FilterMembers(s.batches, AvailableAt(at));
    SumNonNegative(Filter(s.batches, AvailableAt(at)), Amount);
    var f := AmountIf(AvailableAt(at));
    SumFilter(s.batches, AvailableAt(at), f);
    SumSame(Filter(s.batches, AvailableAt(at)), f, Amount);
    SumAtMost(s.batches, f, Amount);
  }

  // ---------------------------------------------------------------- what a withdrawal leaves

  /** Only the stock that has expired by an instant. */
  function ExpiredOnly(at: int): Weight {
    (cost: nat, expiry: Option<int>) => if expiry.Some? && at >= expiry.value then 1.0 else 0.0
  }

  lemma ExpiredPart(s: StockState, at: int)
    ensures Total(s) == Unexpired(s, at) + Weighed(s, ExpiredOnly(at))
  {
    var f := AmountIf(AvailableAt(at));
    SumFilter(s.batches, AvailableAt(at), f);
    FilterMembers(s.batches, AvailableAt(at));
    SumSame(Filter(s.batches, AvailableAt(at)), f, Amount);
    SumMinus(s.batches, Amount, f, Weigh(ExpiredOnly(at)));
  }

  /** The selector never touches expired stock, so a withdrawal falls wholly on the unexpired. */
  lemma UnexpiredAfter(s: StockState, amount: real, strategy: Strategy, at: int)
    requires StateOk(s) && amount >= 0.0
    ensures Unexpired(Withdrawn(s, amount, strategy, at), at) == Unexpired(s, at) - MinReal(amount, Unexpired(s, at))
  {
    var allocs, w := Chosen(s, amount, strategy, at), ExpiredOnly(at);
    WithdrawnTotal(s, amount, strategy, at);
    ExpiredPart(s, at);
    ExpiredPart(Withdrawn(s, amount, strategy, at), at);
    DrainedWeight(s.batches, allocs, w);
    StockLaws.SoundIsPositive(s);
    forall b | b in s.batches ensures GivenWeight(allocs, w)(b) == 0.0 {
      SelectionFits(strategy, s.batches, Quantity(amount, s.baseUnit), at, b);
    }
    SumZero(s.batches, GivenWeight(allocs, w));
  }

  /** Nothing leaves exactly when nothing is asked for or nothing unexpired is there. */
  lemma NothingSent(s: StockState, amount: real, strategy: Strategy, at: int)
    requires StateOk(s) && amount >= 0.0
    ensures Outgoing(s, amount, strategy, at) == [] <==> amount == 0.0 || Unexpired(s, at) == 0.0
  {
    var av := Filter(s.batches, AvailableAt(at));
    StockLaws.SoundIsPositive(s);
    CandidatesSound(strategy, s.batches, at);
    FilterMembers(s.batches, AvailableAt(at));
    SumNonNegative(av, Amount);
    assert |Candidates(strategy, s.batches, at)| == |multiset(av)| == |av|;
    if av != [] {
      assert av[0] in av;
    }
  }

  /** An accepted request is served in full exactly when the unexpired stock covers it. */
  lemma ServedInFull(s: StockState, amount: Quantity, strategy: Strategy, at: int)
    requires StateOk(s) && amount.amount >= 0.0 && Consumed(s, amount, strategy, at).Ok?
    ensures Total(Consumed(s, amount, strategy, at).value) == Total(s) - amount.amount
       <==> amount.amount <= Unexpired(s, at)
  {
    WithdrawnTotal(s, amount.amount, strategy, at);
  }

  // ---------------------------------------------------------------- cost of a consumption

  function ExactCost(allocs: seq<Allocation>): real {
    if allocs == [] then 0.0
    else allocs[0].quantity.amount * allocs[0].unitCost as real + ExactCost(allocs[1..])
  }

  lemma {:induction false} DetailsCost(bs: seq<BatchView>, allocs: seq<Allocation>)
    ensures DetailWeight(Details(bs, allocs), ByCost()) == ExactCost(allocs)
  {
    if allocs != [] {
      DetailsCost(bs, allocs[1..]);
    }
  }

  predicate Whole(x: real) {
    x == x.Floor as real
  }

  lemma {:induction false} RoundingError(allocs: seq<Allocation>)
    ensures AbsReal(ReportedCost(allocs) as real - ExactCost(allocs)) <= |allocs| as real * 0.5
  {
    if allocs != [] {
      RoundingError(allocs[1..]);
    }
  }

  lemma {:induction false} NoRoundingError(allocs: seq<Allocation>)
    requires forall a :: a in allocs ==> Whole(a.quantity.amount)
    ensures ReportedCost(allocs) as real == ExactCost(allocs)
  {
    if allocs != [] {
      NoRoundingError(allocs[1..]);
      assert allocs[0] in allocs;
      var x := allocs[0].quantity.amount * allocs[0].unitCost as real;
      WholeTerm(allocs[0].quantity.amount, allocs[0].unitCost, x);
    }
  }

  lemma WholeTerm(q: real, c: nat, x: real)
    requires Whole(q) && x == q * c as real
    ensures Round(x) as real == x
  {
    var n := q.Floor;
    WholeProduct(n, c);
    assert x == n as real * c as real;
  }

  lemma WholeProduct(q: int, c: int)
    ensures Round(q as real * c as real) == q * c && q as real * c as real == (q * c) as real
  {
  }

  lemma {:induction false} GreedyWhole(sorted: seq<BatchView>, unit: Unit, amount: real)
    requires Whole(amount) && forall b :: b in sorted ==> Whole(Amount(b))
    ensures forall a :: a in Greedy(sorted, unit, amount) ==> Whole(a.quantity.amount)
  {
    if sorted != [] && amount > 0.0 {
      var take := MinReal(amount, Amount(sorted[0]));
      assert Whole(amount - take) by {
        assert amount - take == (amount.Floor - take.Floor) as real;
      }
      GreedyWhole(sorted[1..], unit, amount - take);
    }
  }

  /**
   The value of the stock falls by exactly the cost of what is allocated; the reported cost is
   within half a cent per allocation of it, and equal to it for whole quantities.
   */
  lemma ConsumptionCost(s: StockState, amount: real, strategy: Strategy, at: int)
    requires StateOk(s)
    ensures var allocs := Chosen(s, amount, strategy, at);
            var fall := Weighed(s, ByCost()) - Weighed(Withdrawn(s, amount, strategy, at), ByCost());
            && fall == ExactCost(allocs)
            && AbsReal(ReportedCost(allocs) as real - fall) <= |allocs| as real * 0.5
            && (Whole(amount) && (forall b :: b in s.batches ==> Whole(Amount(b))) ==>
                  ReportedCost(allocs) as real == fall)
  {
    hide Chosen, Withdrawn, Weighed, ExactCost, ReportedCost, Whole, StateOk, Details;
    var allocs := Chosen(s, amount, strategy, at);
    WithdrawnWeight(s, amount, strategy, at, ByCost());
    DetailsCost(s.batches, allocs);
    RoundingError(allocs);
    if Whole(amount) && forall b :: b in s.batches ==> Whole(Amount(b)) {
      ChosenWhole(s, amount, strategy, at);
      NoRoundingError(allocs);
    }
  }

  lemma ChosenWhole(s: StockState, amount: real, strategy: Strategy, at: int)
    requires StateOk(s) && Whole(amount) && forall b :: b in s.batches ==> Whole(Amount(b))
    ensures forall a :: a in Chosen(s, amount, strategy, at) ==> Whole(a.quantity.amount)
  {
    hide Whole, Greedy, Candidates;
    StockLaws.SoundIsPositive(s);
    CandidatesSound(strategy, s.batches, at);
    GreedyWhole(Candidates(strategy, s.batches, at), s.baseUnit, amount);
  }
}
