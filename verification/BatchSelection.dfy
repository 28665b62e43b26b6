/**
 Choosing batches for consumption: first expired, first out, or first in, first out.
 A greedy pass over the unexpired batches in order, proved to leave as little as any allocation can.
 */
module BatchSelection {
  import opened Basics
  import opened Sequences
  import opened StockTypes

  datatype Strategy = FEFO | FIFO

  // ---------------------------------------------------------------- the order

  /** Expiry compared with "never" last; the comparator's difference of infinities is avoided by the source's test. */
  predicate ExpiryBefore(a: Option<int>, b: Option<int>) {
    a.Some? && (b.Some? ==> a.value < b.value)
  }

  /** The comparator's result is at most zero: a may stand before b. */
  predicate Before(strategy: Strategy, a: BatchView, b: BatchView) {
    match strategy
    case FEFO => if a.expiresAt != b.expiresAt then ExpiryBefore(a.expiresAt, b.expiresAt)
                 else a.receivedAt <= b.receivedAt
    case FIFO => a.receivedAt <= b.receivedAt
  }

  predicate Ordered(strategy: Strategy, bs: seq<BatchView>) {
    forall i, j :: 0 <= i < j < |bs| ==> Before(strategy, bs[i], bs[j])
  }

  /** Insertion of an element that came before all of bs: it stays before its equals. */
  function Insert(strategy: Strategy, b: BatchView, bs: seq<BatchView>): (r: seq<BatchView>)
    ensures multiset(r) == multiset([b]) + multiset(bs)
  {
    if bs == [] then [b]
    else if Before(strategy, b, bs[0]) then [b] + bs
    else
      assert bs == [bs[0]] + bs[1..];
      [bs[0]] + Insert(strategy, b, bs[1..])
  }

  /** The order `Array.prototype.sort` gives: sorted and stable (section 23.1.3.30 of ECMA-262). */
  function StableSort(strategy: Strategy, bs: seq<BatchView>): (r: seq<BatchView>)
    ensures multiset(r) == multiset(bs)
  {
    if bs == [] then []
    else
      assert bs == [bs[0]] + bs[1..];
      Insert(strategy, bs[0], StableSort(strategy, bs[1..]))
  }

  lemma {:induction false} InsertOrdered(strategy: Strategy, b: BatchView, bs: seq<BatchView>)
    requires Ordered(strategy, bs)
    ensures Ordered(strategy, Insert(strategy, b, bs))
  {
    if bs != [] && !Before(strategy, b, bs[0]) {
      InsertOrdered(strategy, b, bs[1..]);
      var rest := Insert(strategy, b, bs[1..]);
      forall x | x in rest ensures Before(strategy, bs[0], x) {
        assert x in multiset(rest);
        assert x == b || x in bs[1..];
      }
    }
  }

  lemma {:induction false} SortOrdered(strategy: Strategy, bs: seq<BatchView>)
    ensures Ordered(strategy, StableSort(strategy, bs))
  {
    if bs != [] {
      SortOrdered(strategy, bs[1..]);
      InsertOrdered(strategy, bs[0], StableSort(strategy, bs[1..]));
    }
  }

  /** Batches that the comparator does not tell apart from b. */
  function Ties(strategy: Strategy, b: BatchView): BatchView -> bool {
    x => Before(strategy, x, b) && Before(strategy, b, x)
  }

  lemma {:induction false} InsertStable(strategy: Strategy, b: BatchView, bs: seq<BatchView>, k: BatchView)
    ensures Filter(Insert(strategy, b, bs), Ties(strategy, k)) == Filter([b] + bs, Ties(strategy, k))
  {
    if bs != [] && !Before(strategy, b, bs[0]) {
      var p, rest := Ties(strategy, k), bs[1..];
      assert !(p(b) && p(bs[0]));
      assert bs == [bs[0]] + rest;
      InsertStable(strategy, b, rest, k);
      FilterCons(bs[0], Insert(strategy, b, rest), p);
      FilterCons(b, rest, p);
      FilterCons(b, bs, p);
      FilterCons(bs[0], rest, p);
    }
  }

  /** Stability: batches that tie keep the order they had in the stock. */
  lemma {:induction false} SortStable(strategy: Strategy, bs: seq<BatchView>, k: BatchView)
    ensures Filter(StableSort(strategy, bs), Ties(strategy, k)) == Filter(bs, Ties(strategy, k))
  {
    if bs != [] {
      SortStable(strategy, bs[1..], k);
      InsertStable(strategy, bs[0], StableSort(strategy, bs[1..]), k);
      FilterCons(bs[0], StableSort(strategy, bs[1..]), Ties(strategy, k));
      FilterCons(bs[0], bs[1..], Ties(strategy, k));
      assert bs == [bs[0]] + bs[1..];
    }
  }

  // ---------------------------------------------------------------- the greedy pass

  function AvailableAt(at: int): BatchView -> bool {
    b => Available(b, at)
  }

  /** Take from each batch in turn until the amount is covered. */
  function Greedy(sorted: seq<BatchView>, unit: Unit, amount: real): seq<Allocation> {
    if sorted == [] || amount <= 0.0 then []
    else
      var take := MinReal(amount, Amount(sorted[0]));
      [Allocation(sorted[0].id, Quantity(take, unit), sorted[0].unitCost)]
      + Greedy(sorted[1..], unit, amount - take)
  }

  function Candidates(strategy: Strategy, bs: seq<BatchView>, at: int): seq<BatchView> {
    StableSort(strategy, Filter(bs, AvailableAt(at)))
  }

  function Allocations(strategy: Strategy, bs: seq<BatchView>, amount: Quantity, at: int): seq<Allocation> {
    Greedy(Candidates(strategy, bs, at), amount.unit, amount.amount)
  }

  class BatchSelectionService {
    const strategy: Strategy

    constructor (strategy: Strategy)
      ensures this.strategy == strategy
    {
      this.strategy := strategy;
    }

    method SelectForConsumption(batches: seq<BatchView>, amount: Quantity, at: int)
      returns (allocations: seq<Allocation>)
      ensures allocations == Allocations(strategy, batches, amount, at)
    {
      hide Greedy, Candidates;
      var sorted := Candidates(strategy, batches, at);
      allocations := [];
      var remaining := amount.amount;
      var i := 0;
      while i < |sorted|
        invariant i <= |sorted|
        invariant allocations + Greedy(sorted[i..], amount.unit, remaining)
               == Greedy(sorted, amount.unit, amount.amount)
      {
        GreedyUnfold(sorted, i, amount.unit, remaining);
        if remaining <= 0.0 {
          assert allocations + [] == allocations;
          return;
        }
        var take := MinReal(remaining, sorted[i].remaining.amount);
        allocations := allocations + [Allocation(sorted[i].id, Quantity(take, amount.unit), sorted[i].unitCost)];
        remaining := remaining - take;
        i := i + 1;
      }
      GreedyNothing(amount.unit, remaining);
      assert sorted[i..] == [] && allocations + [] == allocations;
    }
  }

  lemma GreedyNothing(unit: Unit, amount: real)
    ensures Greedy([], unit, amount) == []
  {
  }

  lemma GreedyUnfold(sorted: seq<BatchView>, i: nat, unit: Unit, amount: real)
    requires i < |sorted|
    ensures amount <= 0.0 ==> Greedy(sorted[i..], unit, amount) == []
    ensures amount > 0.0 ==>
              var take := MinReal(amount, Amount(sorted[i]));
              Greedy(sorted[i..], unit, amount)
                == [Allocation(sorted[i].id, Quantity(take, unit), sorted[i].unitCost)]
                   + Greedy(sorted[i + 1..], unit, amount - take)
  {
    assert sorted[i..][1..] == sorted[i + 1..];
  }

  // ---------------------------------------------------------------- how much each batch gives

  function AllocatedTo(allocs: seq<Allocation>, id: nat): real {
    if allocs == [] then 0.0
    else (if allocs[0].batchId == id then allocs[0].quantity.amount else 0.0) + AllocatedTo(allocs[1..], id)
  }

  /** What the allocations take from a batch, counted only inside a class of batches. */
  function Taken(allocs: seq<Allocation>, d: BatchView -> bool): BatchView -> real {
    b => if d(b) then AllocatedTo(allocs, b.id) else 0.0
  }

  function AmountIf(d: BatchView -> bool): BatchView -> real {
    b => if d(b) then Amount(b) else 0.0
  }

  function Everything(): BatchView -> bool {
    b => true
  }

  /** A class of batches that the order always serves before the rest. */
  ghost predicate ServedFirst(strategy: Strategy, d: BatchView -> bool) {
    forall a, b :: Before(strategy, a, b) && d(b) ==> d(a)
  }

  predicate Positive(bs: seq<BatchView>) {
    forall b :: b in bs ==> Amount(b) >= 0.0
  }

  lemma {:induction false} NoneForOthers(sorted: seq<BatchView>, unit: Unit, amount: real, id: nat)
    requires forall b :: b in sorted ==> b.id != id
    ensures AllocatedTo(Greedy(sorted, unit, amount), id) == 0.0
  {
    if sorted != [] && amount > 0.0 {
      NoneForOthers(sorted[1..], unit, amount - MinReal(amount, Amount(sorted[0])), id);
    }
  }

  /** One step of the pass: the first batch gives what it can, and the rest is the pass over the others. */
  lemma GreedyStep(sorted: seq<BatchView>, unit: Unit, amount: real)
    requires sorted != [] && amount > 0.0 && DistinctIds(sorted)
    ensures var take := MinReal(amount, Amount(sorted[0]));
            var all := Greedy(sorted, unit, amount);
            var rest := Greedy(sorted[1..], unit, amount - take);
            && AllocatedTo(all, sorted[0].id) == take
            && (forall b :: b in sorted[1..] ==> AllocatedTo(all, b.id) == AllocatedTo(rest, b.id))
  {
    var take := MinReal(amount, Amount(sorted[0]));
    NoneForOthers(sorted[1..], unit, amount - take, sorted[0].id);
    assert forall b :: b in sorted[1..] ==> b.id != sorted[0].id;
    var all := Greedy(sorted, unit, amount);
    assert all[1..] == Greedy(sorted[1..], unit, amount - take);
  }

  /** No batch gives more than it holds, so `decrement` never finds too little. */
  lemma {:induction false} GreedyFits(sorted: seq<BatchView>, unit: Unit, amount: real, b: BatchView)
    requires DistinctIds(sorted) && Positive(sorted) && b in sorted
    ensures 0.0 <= AllocatedTo(Greedy(sorted, unit, amount), b.id) <= Amount(b)
  {
    if amount > 0.0 {
      GreedyStep(sorted, unit, amount);
      if b in sorted[1..] {
        GreedyFits(sorted[1..], unit, amount - MinReal(amount, Amount(sorted[0])), b);
      }
    }
  }

  /** From every class served first the pass takes all it can: the amount asked, or all the class holds. */
  lemma {:induction false} GreedyTakes(
    strategy: Strategy, sorted: seq<BatchView>, unit: Unit, amount: real, d: BatchView -> bool)
    requires Ordered(strategy, sorted) && DistinctIds(sorted) && Positive(sorted)
    requires ServedFirst(strategy, d) && amount >= 0.0
    ensures Sum(sorted, Taken(Greedy(sorted, unit, amount), d)) == MinReal(amount, Sum(sorted, AmountIf(d)))
  {
    var all := Greedy(sorted, unit, amount);
    if sorted == [] || amount <= 0.0 {
      SumNonNegative(sorted, AmountIf(d));
      SumZero(sorted, Taken(all, d));
    } else {
      var take := MinReal(amount, Amount(sorted[0]));
      var rest := Greedy(sorted[1..], unit, amount - take);
      GreedyStep(sorted, unit, amount);
      hide Greedy, Before;
      GreedyTakes(strategy, sorted[1..], unit, amount - take, d);
      SumSame(sorted[1..], Taken(all, d), Taken(rest, d));
      SumNonNegative(sorted[1..], AmountIf(d));
      if !d(sorted[0]) {
        SumZero(sorted[1..], AmountIf(d));
      }
    }
  }

  // ---------------------------------------------------------------- from the sorted copy back to the stock

  lemma {:induction false} InsertDistinct(strategy: Strategy, b: BatchView, bs: seq<BatchView>)
    requires DistinctIds(bs) && forall x :: x in bs ==> x.id != b.id
    ensures DistinctIds(Insert(strategy, b, bs))
  {
    if bs != [] && !Before(strategy, b, bs[0]) {
      InsertDistinct(strategy, b, bs[1..]);
      var rest := Insert(strategy, b, bs[1..]);
      forall x | x in rest ensures bs[0].id != x.id {
        assert x in multiset(rest);
        assert x == b || x in bs[1..];
      }
    }
  }

  lemma {:induction false} SortDistinct(strategy: Strategy, bs: seq<BatchView>)
    requires DistinctIds(bs)
    ensures DistinctIds(StableSort(strategy, bs))
  {
    if bs != [] {
      SortDistinct(strategy, bs[1..]);
      var rest := StableSort(strategy, bs[1..]);
      forall x | x in rest ensures bs[0].id != x.id {
        assert x in multiset(rest);
        assert x in bs[1..];
      }
      InsertDistinct(strategy, bs[0], rest);
    }
  }

  lemma {:induction false} FilterDistinct(bs: seq<BatchView>, p: BatchView -> bool)
    requires DistinctIds(bs)
    ensures DistinctIds(Filter(bs, p))
  {
    if bs != [] {
      FilterDistinct(bs[1..], p);
      FilterMembers(bs[1..], p);
      assert forall x :: x in Filter(bs[1..], p) ==> x.id != bs[0].id;
    }
  }

  lemma CandidatesSound(strategy: Strategy, bs: seq<BatchView>, at: int)
    requires DistinctIds(bs) && Positive(bs)
    ensures var cs := Candidates(strategy, bs, at);
            && Ordered(strategy, cs) && DistinctIds(cs) && Positive(cs)
            && multiset(cs) == multiset(Filter(bs, AvailableAt(at)))
            && (forall b :: b in cs <==> b in bs && Available(b, at))
  {
    var av := Filter(bs, AvailableAt(at));
    var cs := Candidates(strategy, bs, at);
    FilterMembers(bs, AvailableAt(at));
    FilterDistinct(bs, AvailableAt(at));
    SortDistinct(strategy, av);
    SortOrdered(strategy, av);
    forall b ensures b in cs <==> b in av {
      assert b in multiset(cs) <==> b in multiset(av);
    }
  }

  lemma SameBatch(bs: seq<BatchView>, a: BatchView, b: BatchView)
    requires DistinctIds(bs) && a in bs && b in bs && a.id == b.id
    ensures a == b
  {
  }

  /** Each batch gives between nothing and all it holds, and an unavailable batch gives nothing. */
  lemma SelectionFits(strategy: Strategy, bs: seq<BatchView>, amount: Quantity, at: int, b: BatchView)
    requires DistinctIds(bs) && Positive(bs) && b in bs
    ensures var given := AllocatedTo(Allocations(strategy, bs, amount, at), b.id);
            0.0 <= given <= Amount(b) && (!Available(b, at) ==> given == 0.0)
  {
    CandidatesSound(strategy, bs, at);
    var cs := Candidates(strategy, bs, at);
    if Available(b, at) {
      GreedyFits(cs, amount.unit, amount.amount, b);
    } else {
      forall c | c in cs ensures c.id != b.id {
        if c.id == b.id {
          SameBatch(bs, c, b);
        }
      }
      NoneForOthers(cs, amount.unit, amount.amount, b.id);
    }
  }

  /**
   From every class served first the selection takes exactly the lesser of the amount asked and
   what is available in the class.
   */
  lemma SelectionTakes(strategy: Strategy, bs: seq<BatchView>, amount: Quantity, at: int, d: BatchView -> bool)
    requires DistinctIds(bs) && Positive(bs) && amount.amount >= 0.0 && ServedFirst(strategy, d)
    ensures Sum(bs, Taken(Allocations(strategy, bs, amount, at), d))
         == MinReal(amount.amount, Sum(Filter(bs, AvailableAt(at)), AmountIf(d)))
  {
    CandidatesSound(strategy, bs, at);
    var allocs := Allocations(strategy, bs, amount, at);
    var cs, av := Candidates(strategy, bs, at), Filter(bs, AvailableAt(at));
    GreedyTakes(strategy, cs, amount.unit, amount.amount, d);
    SumPermutation(cs, av, AmountIf(d));
    SumPermutation(cs, av, Taken(allocs, d));
    forall b | b in bs && !Available(b, at) ensures Taken(allocs, d)(b) == 0.0 {
      SelectionFits(strategy, bs, amount, at, b);
    }
    SumFilter(bs, AvailableAt(at), Taken(allocs, d));
  }

  /** The pass goes through the batches one by one, and takes the whole of each but the last. */
  lemma {:induction false} GreedyGoesAlong(sorted: seq<BatchView>, unit: Unit, amount: real, i: nat)
    requires i < |Greedy(sorted, unit, amount)| && forall b :: b in sorted ==> Amount(b) > 0.0
    ensures var a := Greedy(sorted, unit, amount)[i];
            && i < |sorted| && a.batchId == sorted[i].id && a.unitCost == sorted[i].unitCost
            && a.quantity.unit == unit && a.quantity.amount > 0.0
            && (i + 1 < |Greedy(sorted, unit, amount)| ==> a.quantity.amount == Amount(sorted[i]))
  {
    if i > 0 {
      GreedyGoesAlong(sorted[1..], unit, amount - MinReal(amount, Amount(sorted[0])), i - 1);
    }
  }

  /** Allocations come in the order of the strategy, and only the last may leave something of its batch. */
  lemma SelectionGoesAlong(strategy: Strategy, bs: seq<BatchView>, amount: Quantity, at: int, a: BatchView,
                           b: BatchView, i: nat, j: nat)
    requires DistinctIds(bs) && Positive(bs) && a in bs && b in bs
    requires i < j < |Allocations(strategy, bs, amount, at)|
    requires Allocations(strategy, bs, amount, at)[i].batchId == a.id
    requires Allocations(strategy, bs, amount, at)[j].batchId == b.id
    ensures Before(strategy, a, b)
    ensures Allocations(strategy, bs, amount, at)[i] == Allocation(a.id, Quantity(Amount(a), amount.unit), a.unitCost)
    ensures 0.0 < Allocations(strategy, bs, amount, at)[j].quantity.amount <= Amount(b)
  {
    var cs := Candidates(strategy, bs, at);
    CandidatesSound(strategy, bs, at);
    hide Candidates, Before;
    GreedyGoesAlong(cs, amount.unit, amount.amount, i);
    GreedyGoesAlong(cs, amount.unit, amount.amount, j);
    assert cs[i] in cs && cs[j] in cs;
    SameBatch(bs, cs[i], a);
    SameBatch(bs, cs[j], b);
    GreedyNoMore(cs, amount.unit, amount.amount, j);
  }

  lemma {:induction false} GreedyNoMore(sorted: seq<BatchView>, unit: Unit, amount: real, i: nat)
    requires i < |Greedy(sorted, unit, amount)|
    ensures i < |sorted| && Greedy(sorted, unit, amount)[i].quantity.amount <= Amount(sorted[i])
  {
    if i > 0 {
      GreedyNoMore(sorted[1..], unit, amount - MinReal(amount, Amount(sorted[0])), i - 1);
    }
  }

  // ---------------------------------------------------------------- optimality

  /** Any way of taking stock that respects what each batch holds and leaves unavailable batches alone. */
  ghost predicate Feasible(bs: seq<BatchView>, at: int, take: BatchView -> real) {
    forall b :: b in bs ==> 0.0 <= take(b) <= Amount(b) && (!Available(b, at) ==> take(b) == 0.0)
  }

  function Restrict(take: BatchView -> real, d: BatchView -> bool): BatchView -> real {
    b => if d(b) then take(b) else 0.0
  }

  /** What stays available in a class after a take. */
  function Left(take: BatchView -> real, d: BatchView -> bool): BatchView -> real {
    b => if d(b) then Amount(b) - take(b) else 0.0
  }

  function GivenBy(allocs: seq<Allocation>): BatchView -> real {
    (b: BatchView) => AllocatedTo(allocs, b.id)
  }

  lemma FeasibleBound(bs: seq<BatchView>, at: int, take: BatchView -> real, d: BatchView -> bool)
    requires Feasible(bs, at, take)
    ensures Sum(bs, Restrict(take, d)) <= Sum(bs, take)
    ensures Sum(bs, Restrict(take, d)) <= Sum(Filter(bs, AvailableAt(at)), AmountIf(d))
    ensures Sum(Filter(bs, AvailableAt(at)), Left(take, d))
         == Sum(Filter(bs, AvailableAt(at)), AmountIf(d)) - Sum(bs, Restrict(take, d))
  {
    var av := Filter(bs, AvailableAt(at));
    FilterMembers(bs, AvailableAt(at));
    SumAtMost(bs, Restrict(take, d), take);
    SumFilter(bs, AvailableAt(at), Restrict(take, d));
    SumAtMost(av, Restrict(take, d), AmountIf(d));
    SumMinus(av, AmountIf(d), Restrict(take, d), Left(take, d));
  }

  /**
   The selection is optimal: in every class served first, no feasible take of the same total
   leaves less available stock behind than the selection does.
   */
  lemma SelectionOptimal(
    strategy: Strategy, bs: seq<BatchView>, amount: Quantity, at: int,
    d: BatchView -> bool, take: BatchView -> real)
    requires DistinctIds(bs) && Positive(bs) && amount.amount >= 0.0 && ServedFirst(strategy, d)
    requires Feasible(bs, at, take)
    requires Sum(bs, take) == Sum(bs, GivenBy(Allocations(strategy, bs, amount, at)))
    ensures Feasible(bs, at, GivenBy(Allocations(strategy, bs, amount, at)))
    ensures Sum(Filter(bs, AvailableAt(at)), Left(GivenBy(Allocations(strategy, bs, amount, at)), d))
         <= Sum(Filter(bs, AvailableAt(at)), Left(take, d))
  {
    var allocs := Allocations(strategy, bs, amount, at);
    forall b | b in bs
      ensures 0.0 <= GivenBy(allocs)(b) <= Amount(b) && (!Available(b, at) ==> GivenBy(allocs)(b) == 0.0)
    {
      SelectionFits(strategy, bs, amount, at, b);
    }
    SelectionTakes(strategy, bs, amount, at, d);
    SelectionTotal(strategy, bs, amount, at);
    SumSame(bs, Taken(allocs, d), Restrict(GivenBy(allocs), d));
    FeasibleBound(bs, at, take, d);
    FeasibleBound(bs, at, GivenBy(allocs), d);
  }

  /** The selection covers the amount asked, or all that is available when that is less. */
  lemma SelectionTotal(strategy: Strategy, bs: seq<BatchView>, amount: Quantity, at: int)
    requires DistinctIds(bs) && Positive(bs) && amount.amount >= 0.0
    ensures Sum(bs, GivenBy(Allocations(strategy, bs, amount, at)))
         == MinReal(amount.amount, Sum(Filter(bs, AvailableAt(at)), Amount))
  {
    var allocs := Allocations(strategy, bs, amount, at);
    SelectionTakes(strategy, bs, amount, at, Everything());
    SumSame(bs, Taken(allocs, Everything()), GivenBy(allocs));
    SumSame(Filter(bs, AvailableAt(at)), AmountIf(Everything()), Amount);
  }

  function ExpiresBy(deadline: int): BatchView -> bool {
    (b: BatchView) => b.expiresAt.Some? && b.expiresAt.value <= deadline
  }

  function ReceivedBy(deadline: int): BatchView -> bool {
    (b: BatchView) => b.receivedAt <= deadline
  }

  /** Among batches of one expiry, those received by a date come first. */
  function ExpiresThenReceivedBy(expiry: Option<int>, deadline: int): BatchView -> bool {
    (b: BatchView) => ExpiryBefore(b.expiresAt, expiry) || (b.expiresAt == expiry && b.receivedAt <= deadline)
  }

  /** The deadlines the two strategies are for are classes served first. */
  lemma Deadlines(expiry: Option<int>, deadline: int)
    ensures ServedFirst(FEFO, ExpiresBy(deadline))
    ensures ServedFirst(FEFO, ExpiresThenReceivedBy(expiry, deadline))
    ensures ServedFirst(FIFO, ReceivedBy(deadline))
  {
  }
}
