/** What every operation on a stock keeps, and what it does to quantities and value. */
module StockLaws {
  import opened StockTypes
  import opened BatchSelection
  import opened StockSpec
  import Basics
  import Sequences

  // ---------------------------------------------------------------- allocation sums over prefixes

  lemma {:induction false} AllocatedAppend(xs: seq<Allocation>, ys: seq<Allocation>, id: nat)
    ensures AllocatedTo(xs + ys, id) == AllocatedTo(xs, id) + AllocatedTo(ys, id)
  {
    if xs == [] {
      assert xs + ys == ys;
    } else {
      assert (xs + ys)[1..] == xs[1..] + ys;
      AllocatedAppend(xs[1..], ys, id);
    }
  }

  predicate NonNegative(allocs: seq<Allocation>) {
    forall a :: a in allocs ==> a.quantity.amount >= 0.0
  }

  lemma {:induction false} AllocatedNonNegative(allocs: seq<Allocation>, id: nat)
    requires NonNegative(allocs)
    ensures AllocatedTo(allocs, id) >= 0.0
  {
    if allocs != [] {
      AllocatedNonNegative(allocs[1..], id);
    }
  }

  /** What is taken up to and including step i, and that it stays within the whole. */
  lemma AllocatedPrefix(allocs: seq<Allocation>, i: nat, id: nat)
    requires i < |allocs| && NonNegative(allocs)
    ensures AllocatedTo(allocs[..i + 1], id)
         == AllocatedTo(allocs[..i], id) + (if allocs[i].batchId == id then allocs[i].quantity.amount else 0.0)
    ensures AllocatedTo(allocs[..i + 1], id) <= AllocatedTo(allocs, id)
  {
    assert allocs[..i + 1] == allocs[..i] + [allocs[i]];
    AllocatedAppend(allocs[..i], [allocs[i]], id);
    assert allocs == allocs[..i + 1] + allocs[i + 1..];
    AllocatedAppend(allocs[..i + 1], allocs[i + 1..], id);
    AllocatedNonNegative(allocs[i + 1..], id);
    assert [allocs[i]][1..] == [];
  }

  lemma {:induction false} GreedyNonNegative(sorted: seq<BatchView>, unit: Unit, amount: real)
    requires Positive(sorted)
    ensures NonNegative(Greedy(sorted, unit, amount))
    ensures forall a :: a in Greedy(sorted, unit, amount) ==> a.quantity.unit == unit
  {
    if sorted != [] && amount > 0.0 {
      GreedyNonNegative(sorted[1..], unit, amount - Basics.MinReal(amount, Amount(sorted[0])));
    }
  }

  /** Lowering the one batch with an id. */
  function LoweredAt(bs: seq<BatchView>, id: nat, q: real): seq<BatchView> {
    seq(|bs|, i requires 0 <= i < |bs| => if bs[i].id == id then Lowered(bs[i], q) else bs[i])
  }

  /** Before any decrement nothing is deducted; one more decrement deducts one more allocation. */
  lemma DeductedStep(bs: seq<BatchView>, allocs: seq<Allocation>, i: nat)
    requires i < |allocs| && NonNegative(allocs)
    ensures Deducted(bs, allocs[..0]) == bs
    ensures LoweredAt(Deducted(bs, allocs[..i]), allocs[i].batchId, allocs[i].quantity.amount)
         == Deducted(bs, allocs[..i + 1])
  {
    forall j | 0 <= j < |bs|
      ensures LoweredAt(Deducted(bs, allocs[..i]), allocs[i].batchId, allocs[i].quantity.amount)[j]
           == Deducted(bs, allocs[..i + 1])[j]
    {
      AllocatedPrefix(allocs, i, bs[j].id);
    }
  }

  /** Every decrement finds enough, in the right unit. */
  lemma DecrementFits(bs: seq<BatchView>, allocs: seq<Allocation>, i: nat)
    requires i < |allocs| && NonNegative(allocs) && DistinctIds(bs)
    requires forall b :: b in bs ==>
             AllocatedTo(allocs, b.id) <= Amount(b) && b.remaining.unit == allocs[i].quantity.unit
    ensures var ds := Deducted(bs, allocs[..i]);
            && DistinctIds(ds)
            && forall d :: d in ds && d.id == allocs[i].batchId ==>
                 allocs[i].quantity.amount <= Amount(d) && allocs[i].quantity.unit == d.remaining.unit
  {
    var ds := Deducted(bs, allocs[..i]);
    forall d | d in ds && d.id == allocs[i].batchId
      ensures allocs[i].quantity.amount <= Amount(d) && allocs[i].quantity.unit == d.remaining.unit
    {
      var j :| 0 <= j < |ds| && ds[j] == d;
      assert bs[j] in bs;
      AllocatedPrefix(allocs, i, bs[j].id);
    }
  }

  // ---------------------------------------------------------------- the invariant

  lemma SoundIsPositive(s: StockState)
    requires StateOk(s)
    ensures DistinctIds(s.batches) && Positive(s.batches)
  {
  }

  /** The chosen allocations are in the base unit, not negative, and fit every batch. */
  lemma ChosenSound(s: StockState, amount: real, strategy: Strategy, at: int)
    requires StateOk(s)
    ensures var allocs := Chosen(s, amount, strategy, at);
            && NonNegative(allocs)
            && (forall a :: a in allocs ==> a.quantity.unit == s.baseUnit)
            && (forall b :: b in s.batches ==> 0.0 <= AllocatedTo(allocs, b.id) <= Amount(b))
  {
    SoundIsPositive(s);
    CandidatesSound(strategy, s.batches, at);
    GreedyNonNegative(Candidates(strategy, s.batches, at), s.baseUnit, amount);
    forall b | b in s.batches
      ensures 0.0 <= AllocatedTo(Chosen(s, amount, strategy, at), b.id) <= Amount(b)
    {
      SelectionFits(strategy, s.batches, Quantity(amount, s.baseUnit), at, b);
    }
  }

  /** A withdrawal keeps the invariant, and introduces no id. */
  lemma WithdrawnOk(s: StockState, amount: real, strategy: Strategy, at: int)
    requires StateOk(s)
    ensures StateOk(Withdrawn(s, amount, strategy, at))
    ensures forall next: nat :: IdsBelow(s.batches, next) ==> IdsBelow(Withdrawn(s, amount, strategy, at).batches, next)
  {
    hide Chosen;
    var allocs := Chosen(s, amount, strategy, at);
    var ds := Deducted(s.batches, allocs);
    ChosenSound(s, amount, strategy, at);
    forall d | d in ds ensures Sound(d, s.baseUnit) && exists b :: b in s.batches && b.id == d.id {
      var i :| 0 <= i < |ds| && ds[i] == d;
      assert s.batches[i] in s.batches && d == Lowered(s.batches[i], AllocatedTo(allocs, s.batches[i].id));
    }
    assert DistinctIds(ds);
    FilterDistinct(ds, Undepleted);
    Sequences.FilterMembers(ds, Undepleted);
  }

  /** Appending a batch with a new id in the base unit keeps the invariant. */
  lemma AppendOk(s: StockState, b: BatchView, next: nat)
    requires StateOk(s) && IdsBelow(s.batches, next) && b.id == next && Sound(b, s.baseUnit)
    ensures StateOk(s.(batches := s.batches + [b])) && IdsBelow(s.batches + [b], next + 1)
  {
  }

  lemma RoundKeepsSign(x: real)
    requires x >= 0.0
    ensures Basics.Round(x) >= 0
  {
  }

  lemma QuotientSign(a: real, b: real)
    requires a >= 0.0 && b > 0.0
    ensures a / b >= 0.0
  {
  }

  lemma NewAverageOk(existing: real, average: int, quantity: real, cost: int)
    requires average >= 0 && cost >= 0 && quantity >= 0.0
    ensures NewAverage(existing, average, quantity, cost) >= 0
  {
    if existing > 0.0 {
      assert existing * average as real >= 0.0 && quantity * cost as real >= 0.0;
      QuotientSign(existing * average as real + quantity * cost as real, existing + quantity);
      RoundKeepsSign(WeightedMean(existing, average, quantity, cost));
    }
  }

  lemma ReceivedOk(s: StockState, id: nat, d: ReceiveDetails)
    requires StateOk(s) && IdsBelow(s.batches, id) && d.quantity.amount >= 0.0
    ensures Received(s, id, d).Ok? ==>
              StateOk(Received(s, id, d).value) && IdsBelow(Received(s, id, d).value.batches, id + 1)
  {
    if d.quantity.unit == s.baseUnit {
      NewAverageOk(Total(s), s.averageCost, d.quantity.amount, d.unitCost);
      AppendOk(s, FreshBatch(id, d), id);
    }
  }

  lemma ConsumedOk(s: StockState, amount: Quantity, strategy: Strategy, at: int)
    requires StateOk(s)
    ensures Consumed(s, amount, strategy, at).Ok? ==>
              StateOk(Consumed(s, amount, strategy, at).value)
              && forall next: nat :: IdsBelow(s.batches, next) ==>
                 IdsBelow(Consumed(s, amount, strategy, at).value.batches, next)
  {
    if Consumed(s, amount, strategy, at).Ok? {
      WithdrawnOk(s, amount.amount, strategy, at);
    }
  }

  /** Adjusting keeps the invariant, using an id only when it adds a batch. */
  lemma AdjustedKeeps(s: StockState, id: nat, delta: SignedQuantity, reason: string, strategy: Strategy, at: int)
    requires StateOk(s) && IdsBelow(s.batches, id)
    ensures var r := Adjusted(s, id, delta, reason, strategy, at);
            r.Ok? ==> StateOk(r.value) && IdsBelow(r.value.batches, id + (if delta.amount > 0.0 then 1 else 0))
  {
    hide Consumed;
    if delta.unit == s.baseUnit {
      if delta.amount > 0.0 {
        AppendOk(s, AdjustmentBatch(s, id, delta.amount, reason, at), id);
      } else if delta.amount < 0.0 {
        ConsumedOk(s, Quantity(-delta.amount, s.baseUnit), strategy, at);
      }
    }
  }

  /** The ids of an arrival follow one another from the next free id. */
  lemma {:induction false} TransferredInOk(s: StockState, id: nat, details: seq<TransferDetail>, at: int)
    requires StateOk(s) && IdsBelow(s.batches, id)
    requires forall d :: d in details ==> d.quantity.amount >= 0.0
    ensures StateOk(TransferredIn(s, id, details, at))
    ensures IdsBelow(TransferredIn(s, id, details, at).batches, id + |details|)
    decreases |details|
  {
    if details == [] || details[0].quantity.unit != s.baseUnit {
      assert TransferredIn(s, id, details, at).batches == s.batches;
    } else {
      var b := IncomingBatch(id, details[0], at);
      var s' := s.(batches := s.batches + [b]);
      AppendOk(s, b, id);
      TransferredInOk(s', id + 1, details[1..], at);
      assert TransferredIn(s, id, details, at).batches == TransferredIn(s', id + 1, details[1..], at).batches;
    }
  }

  lemma WithoutDocumentOk(s: StockState, doc: string)
    requires StateOk(s)
    ensures StateOk(WithoutDocument(s, doc))
    ensures forall next: nat :: IdsBelow(s.batches, next) ==> IdsBelow(WithoutDocument(s, doc).batches, next)
  {
    FilterDistinct(s.batches, NotFrom(doc));
    Sequences.FilterMembers(s.batches, NotFrom(doc));
  }

  lemma {:induction false} ReportedCostAppend(xs: seq<Allocation>, y: Allocation)
    ensures ReportedCost(xs + [y]) == ReportedCost(xs) + Basics.Round(y.quantity.amount * y.unitCost as real)
  {
    if xs == [] {
      assert xs + [y] == [y] && [y][1..] == [];
    } else {
      assert (xs + [y])[1..] == xs[1..] + [y];
      ReportedCostAppend(xs[1..], y);
    }
  }

  lemma ProductSign(a: real, b: nat)
    requires a >= 0.0
    ensures a * b as real >= 0.0
  {
  }

  lemma {:induction false} ReportedCostNonNegative(allocs: seq<Allocation>)
    requires NonNegative(allocs)
    ensures ReportedCost(allocs) >= 0
  {
    if allocs != [] {
      ProductSign(allocs[0].quantity.amount, allocs[0].unitCost);
      RoundKeepsSign(allocs[0].quantity.amount * allocs[0].unitCost as real);
      ReportedCostNonNegative(allocs[1..]);
    }
  }

  lemma {:induction false} DetailsAppend(bs: seq<BatchView>, xs: seq<Allocation>, y: Allocation)
    ensures Details(bs, xs + [y]) == Details(bs, xs) + [TransferDetail(y.quantity, y.unitCost, ExpiryOf(bs, y.batchId))]
  {
    if xs == [] {
      assert xs + [y] == [y] && [y][1..] == [];
    } else {
      assert (xs + [y])[1..] == xs[1..] + [y];
      DetailsAppend(bs, xs[1..], y);
    }
  }

  lemma {:induction false} ExpiryFound(bs: seq<BatchView>, k: nat, id: nat)
    requires k <= |bs| && (k < |bs| ==> bs[k].id == id) && forall j :: 0 <= j < k ==> bs[j].id != id
    ensures ExpiryOf(bs, id) == if k < |bs| then bs[k].expiresAt else Basics.None
  {
    if bs != [] && k > 0 {
      ExpiryFound(bs[1..], k - 1, id);
    }
  }

  lemma {:induction false} DetailsSound(bs: seq<BatchView>, allocs: seq<Allocation>, unit: Unit)
    requires NonNegative(allocs) && forall a :: a in allocs ==> a.quantity.unit == unit
    ensures AllInUnit(Details(bs, allocs), unit)
    ensures forall d :: d in Details(bs, allocs) ==> d.quantity.amount >= 0.0
  {
    if allocs != [] {
      DetailsSound(bs, allocs[1..], unit);
    }
  }

  lemma {:induction false} ExpiryIgnoresAmounts(bs: seq<BatchView>, allocs: seq<Allocation>, id: nat)
    ensures ExpiryOf(Deducted(bs, allocs), id) == ExpiryOf(bs, id)
  {
    if bs != [] {
      assert Deducted(bs, allocs)[1..] == Deducted(bs[1..], allocs);
      ExpiryIgnoresAmounts(bs[1..], allocs, id);
    }
  }

  /** Lowering quantities changes no expiry, so the details are the same before and after the decrements. */
  lemma {:induction false} DetailsIgnoreAmounts(bs: seq<BatchView>, taken: seq<Allocation>, allocs: seq<Allocation>)
    ensures Details(Deducted(bs, taken), allocs) == Details(bs, allocs)
  {
    if allocs != [] {
      ExpiryIgnoresAmounts(bs, taken, allocs[0].batchId);
      DetailsIgnoreAmounts(bs, taken, allocs[1..]);
    }
  }

  lemma IncomingNone(unit: Unit, id: nat, at: int)
    ensures Incoming(unit, id, [], at) == []
  {
  }

  lemma {:induction false} IncomingAppend(unit: Unit, id: nat, xs: seq<TransferDetail>, ys: seq<TransferDetail>,
                                          at: int)
    requires AllInUnit(xs, unit)
    ensures Incoming(unit, id, xs + ys, at) == Incoming(unit, id, xs, at) + Incoming(unit, id + |xs|, ys, at)
    decreases |xs|
  {
    if xs == [] {
      assert xs + ys == ys;
    } else {
      assert (xs + ys)[1..] == xs[1..] + ys;
      IncomingAppend(unit, id + 1, xs[1..], ys, at);
    }
  }

  /** The next detail arrives if it is in the unit, and otherwise nothing more arrives. */
  lemma IncomingStep(unit: Unit, id: nat, details: seq<TransferDetail>, i: nat, at: int)
    requires i < |details| && AllInUnit(details[..i], unit)
    ensures details[i].quantity.unit == unit ==>
              Incoming(unit, id, details[..i + 1], at)
                == Incoming(unit, id, details[..i], at) + [IncomingBatch(id + i, details[i], at)]
              && AllInUnit(details[..i + 1], unit)
    ensures details[i].quantity.unit != unit ==> Incoming(unit, id, details, at) == Incoming(unit, id, details[..i], at)
  {
    assert details[..i + 1] == details[..i] + [details[i]] && details == details[..i] + details[i..];
    IncomingAppend(unit, id, details[..i], [details[i]], at);
    IncomingAppend(unit, id, details[..i], details[i..], at);
  }
}
