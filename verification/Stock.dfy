/** The stock aggregate as the mutable object it is, each method proved against its meaning. */
module Stock {
  import opened Basics
  import opened Sequences
  import opened StockTypes
  import opened StockSpec
  import opened StockLaws
  import BatchSelection
  import Money

  /** `IIdGenerator`: every id it gives out is new. */
  class IdGenerator {
    var next: nat

    constructor (start: nat)
      ensures next == start
    {
      next := start;
    }

    method Generate() returns (id: nat)
      modifies this
      ensures id == old(next) && next == old(next) + 1
    {
      id := next;
      next := next + 1;
    }
  }

  class Batch {
    const id: nat
    const supplierId: Option<string>
    const sourceType: SourceType
    const sourceDocId: string
    const initial: Quantity
    const unitCost: nat
    const expiresAt: Option<int>
    const receivedAt: int
    var remaining: Quantity

    constructor (v: BatchView)
      ensures View() == v
    {
      id, supplierId, sourceType, sourceDocId := v.id, v.supplierId, v.sourceType, v.sourceDocId;
      initial, unitCost, expiresAt, receivedAt := v.initial, v.unitCost, v.expiresAt, v.receivedAt;
      remaining := v.remaining;
    }

    function View(): BatchView
      reads this
    {
      BatchView(id, supplierId, sourceType, sourceDocId, initial, remaining, unitCost, expiresAt, receivedAt)
    }

    method Decrement(amount: Quantity) returns (r: Result<(), StockError>)
      modifies this
      ensures amount.amount > old(remaining.amount) ==>
                r == Err(BatchInsufficient(id, old(remaining.amount), amount.amount)) && View() == old(View())
      ensures amount.amount <= old(remaining.amount) && amount.unit != old(remaining.unit) ==>
                r == Err(QuantityUnitMismatch) && View() == old(View())
      ensures amount.amount <= old(remaining.amount) && amount.unit == old(remaining.unit) ==>
                r == Ok(()) && View() == Lowered(old(View()), amount.amount)
    {
      if amount.amount > remaining.amount {
        return Err(BatchInsufficient(id, remaining.amount, amount.amount));
      }
      if amount.unit != remaining.unit {
        return Err(QuantityUnitMismatch);
      }
      remaining := Quantity(remaining.amount - amount.amount, remaining.unit);
      r := Ok(());
    }
  }

  class Stock {
    const skuId: string
    const branchId: string
    const baseUnit: Unit
    var batches: seq<Batch>
    var reorderLevel: Quantity
    var averageCost: int
    var events: seq<StockEvent>

    function Views(): seq<BatchView>
      reads this, batches
    {
      seq(|batches|, i requires 0 <= i < |batches| reads this, batches => batches[i].View())
    }

    function State(): StockState
      reads this, batches
    {
      StockState(skuId, branchId, baseUnit, Views(), reorderLevel, averageCost)
    }

    ghost predicate Valid()
      reads this, batches
    {
      StateOk(State())
    }

    lemma ValidAs(s: StockState)
      requires State() == s && StateOk(s)
      ensures Valid()
    {
    }

    /** The aggregate over a stored value, with no pending events. */
    constructor (s: StockState)
      ensures State() == s && events == []
      ensures fresh(batches)
    {
      skuId, branchId, baseUnit := s.skuId, s.branchId, s.baseUnit;
      reorderLevel, averageCost, events := s.reorderLevel, s.averageCost, [];
      batches := [];
      new;
      var i := 0;
      while i < |s.batches|
        invariant i <= |s.batches|
        invariant |batches| == i && fresh(batches)
        invariant forall j :: 0 <= j < i ==> batches[j].View() == s.batches[j]
        invariant reorderLevel == s.reorderLevel && averageCost == s.averageCost && events == []
      {
        var b := new Batch(s.batches[i]);
        batches := batches + [b];
        i := i + 1;
      }
      assert Views() == s.batches;
    }

    method TotalQuantity() returns (q: Quantity)
      ensures q == Quantity(Total(State()), baseUnit)
    {
      var total := 0.0;
      var i := 0;
      ghost var vs := Views();
      while i < |batches|
        invariant i <= |batches|
        invariant total == Sum(vs[..i], Amount)
      {
        total := total + batches[i].remaining.amount;
        assert vs[..i + 1] == vs[..i] + [vs[i]];
        SumOne(vs[..i], vs[i], Amount);
        i := i + 1;
      }
      assert vs[..i] == vs;
      q := Quantity(total, baseUnit);
    }

    /** Every batch object now in the stock was there before or is new. */
    twostate predicate OwnBatches()
      reads this
    {
      forall b :: b in batches ==> b in old(batches) || fresh(b)
    }

    /** `Batch.create` and `push`. */
    method Push(v: BatchView)
      modifies this`batches
      ensures Views() == old(Views()) + [v] && OwnBatches()
    {
      ghost var vs := Views();
      var batch := new Batch(v);
      batches := batches + [batch];
      assert Views() == vs + [v];
    }

    // -------------------------------------------------------------- receiving

    method RecalculateAverageCost(newQtyAmount: real, newUnitCost: nat)
      requires Valid() && newQtyAmount >= 0.0
      modifies this`averageCost
      ensures averageCost == NewAverage(Total(old(State())), old(averageCost), newQtyAmount, newUnitCost)
      ensures averageCost >= 0
    {
      hide Total, WeightedMean;
      var existing := TotalQuantity();
      NewAverageOk(existing.amount, averageCost, newQtyAmount, newUnitCost);
      if existing.amount <= 0.0 {
        averageCost := newUnitCost;
        return;
      }
      var avgCents := Round(WeightedMean(existing.amount, averageCost, newQtyAmount, newUnitCost));
      var money := Money.MoneyFromCents(avgCents);
      Money.PrintersRoundTrip(avgCents);
      averageCost := money.value;
    }

    method Receive(d: ReceiveDetails, idGen: IdGenerator) returns (r: Result<(), StockError>)
      requires Valid() && d.quantity.amount >= 0.0 && IdsBelow(Views(), idGen.next)
      modifies this, idGen
      ensures Valid() && IdsBelow(Views(), idGen.next) && OwnBatches()
      ensures match Received(old(State()), old(idGen.next), d)
              case Err(e) => r == Err(e) && State() == old(State()) && idGen.next == old(idGen.next)
                             && events == old(events)
              case Ok(s) => r == Ok(()) && State() == s && idGen.next == old(idGen.next) + 1
                            && events == old(events) + [StockReceived(d.quantity, d.unitCost)]
    {
      hide NewAverage, Total;
      if d.quantity.unit != baseUnit {
        return Err(UnitMismatch(d.quantity.unit, baseUnit));
      }
      ReceivedOk(State(), idGen.next, d);
      ghost var s := Received(State(), idGen.next, d).value;
      ghost var vs := Views();
      var id := idGen.Generate();
      RecalculateAverageCost(d.quantity.amount, d.unitCost);
      assert Views() == vs;
      Push(FreshBatch(id, d));
      events := events + [StockReceived(d.quantity, d.unitCost)];
      ValidAs(s);
      r := Ok(());
    }

    // -------------------------------------------------------------- withdrawing

    /** `find` by id: the first batch with the id, or the number of batches. */
    method FindBatch(id: nat) returns (k: nat)
      ensures k <= |batches|
      ensures k < |batches| ==> batches[k].id == id
      ensures forall j :: 0 <= j < k ==> batches[j].id != id
    {
      k := 0;
      while k < |batches|
        invariant k <= |batches|
        invariant forall j :: 0 <= j < k ==> batches[j].id != id
      {
        if batches[k].id == id {
          return;
        }
        k := k + 1;
      }
    }

    /** One turn of the loop over allocations: `find` the batch and decrement it. */
    method DecrementFor(alloc: Allocation) returns (r: Result<(), StockError>)
      requires DistinctIds(Views())
      requires forall v :: v in Views() && v.id == alloc.batchId ==>
                 alloc.quantity.amount <= Amount(v) && alloc.quantity.unit == v.remaining.unit
      modifies batches
      ensures r == Ok(())
      ensures Views() == LoweredAt(old(Views()), alloc.batchId, alloc.quantity.amount)
    {
      ghost var vs := Views();
      assert forall j :: 0 <= j < |batches| ==> vs[j] == batches[j].View();
      assert forall i, j :: 0 <= i < j < |batches| ==> vs[i].id != vs[j].id;
      var k := FindBatch(alloc.batchId);
      if k < |batches| {
        assert vs[k] in vs;
        r := batches[k].Decrement(alloc.quantity);
      } else {
        r := Ok(());
      }
    }

    /** Decrement the batch of each allocation in turn; none of the calls throws. */
    method ApplyAllocations(allocs: seq<Allocation>) returns (r: Result<(), StockError>)
      requires Valid() && NonNegative(allocs)
      requires forall a :: a in allocs ==> a.quantity.unit == baseUnit
      requires forall b :: b in Views() ==> BatchSelection.AllocatedTo(allocs, b.id) <= Amount(b)
      modifies batches
      ensures r == Ok(()) && Views() == Deducted(old(Views()), allocs)
    {
      ghost var vs := Views();
      assert DistinctIds(vs) && AllSound(vs, baseUnit);
      assert Deducted(vs, []) == vs;
      hide Views, Valid, Deducted;
      r := Ok(());
      var i := 0;
      while i < |allocs|
        invariant i <= |allocs| && r == Ok(())
        invariant Views() == Deducted(vs, allocs[..i])
      {
        assert allocs[i] in allocs;
        DecrementFits(vs, allocs, i);
        r := DecrementFor(allocs[i]);
        DeductedStep(vs, allocs, i);
        i := i + 1;
      }
      assert allocs[..i] == allocs;
    }

    static function ViewsOf(bs: seq<Batch>): seq<BatchView>
      reads bs
    {
      if bs == [] then [] else [bs[0].View()] + ViewsOf(bs[1..])
    }

    lemma ViewsAre(vs: seq<BatchView>)
      requires ViewsOf(batches) == vs
      ensures Views() == vs
    {
      ViewsIndexed(batches);
    }

    static lemma {:induction false} ViewsIndexed(bs: seq<Batch>)
      ensures |ViewsOf(bs)| == |bs| && forall j :: 0 <= j < |bs| ==> ViewsOf(bs)[j] == bs[j].View()
    {
      if bs != [] {
        ViewsIndexed(bs[1..]);
      }
    }

    /** Splicing position i out of a partly filtered list. */
    static lemma Spliced(objs: seq<Batch>, kept: seq<Batch>, i: nat)
      requires i < |objs|
      ensures var bs := objs[..i + 1] + kept;
              && bs[i] == objs[i]
              && bs[..i] + bs[i + 1..] == objs[..i] + kept
              && bs == objs[..i] + ([objs[i]] + kept)
    {
    }

    static lemma TailNone(vs: seq<BatchView>, p: BatchView -> bool)
      ensures Filter(vs[|vs|..], p) == []
    {
    }

    /** The filter over the tail from i, given the filter over the tail after it. */
    static lemma TailFilter(vs: seq<BatchView>, i: nat, p: BatchView -> bool)
      requires i < |vs|
      ensures Filter(vs[i..], p) == (if p(vs[i]) then [vs[i]] else []) + Filter(vs[i + 1..], p)
    {
      assert vs[i..] == [vs[i]] + vs[i + 1..];
      FilterCons(vs[i], vs[i + 1..], p);
    }

    /** Splice out the depleted batches, from the last to the first. */
    method RemoveDepleted()
      modifies this`batches
      ensures Views() == Filter(old(Views()), Undepleted)
      ensures forall b :: b in batches ==> b in old(batches)
    {
      ghost var vs, objs, kept := Views(), batches, [];
      TailNone(vs, Undepleted);
      hide Filter;
      var i := |batches| - 1;
      while i >= 0
        invariant -1 <= i < |objs| && batches == objs[..i + 1] + kept
        invariant ViewsOf(kept) == Filter(vs[i + 1..], Undepleted)
        invariant forall b :: b in kept ==> b in objs
      {
        Spliced(objs, kept, i);
        TailFilter(vs, i, Undepleted);
        if batches[i].remaining.amount == 0.0 {
          batches := batches[..i] + batches[i + 1..];
        } else {
          kept := [objs[i]] + kept;
        }
        i := i - 1;
      }
      assert vs[0..] == vs && batches == kept;
      ViewsAre(Filter(vs, Undepleted));
    }

    /** `sumAllocationCost`: each allocation rounded to a cent, added, and read back as Money. */
    method SumAllocationCost(allocations: seq<Allocation>) returns (cost: int)
      requires NonNegative(allocations)
      ensures cost == ReportedCost(allocations)
    {
      assert ReportedCost(allocations[..0]) == 0;
      hide ReportedCost, Money.MoneyFromCents, Round;
      var totalCents := 0;
      var i := 0;
      while i < |allocations|
        invariant i <= |allocations|
        invariant totalCents == ReportedCost(allocations[..i])
      {
        totalCents := totalCents + Round(allocations[i].quantity.amount * allocations[i].unitCost as real);
        assert allocations[..i + 1] == allocations[..i] + [allocations[i]];
        ReportedCostAppend(allocations[..i], allocations[i]);
        i := i + 1;
      }
      assert allocations[..i] == allocations;
      ReportedCostNonNegative(allocations);
      Money.PrintersRoundTrip(totalCents);
      cost := Money.MoneyFromCents(totalCents).value;
    }

    /** The part consume, a negative adjust and transferOut share up to the decrements. */
    method SelectAndApply(amount: Quantity, selector: BatchSelection.BatchSelectionService, at: int)
      returns (allocations: seq<Allocation>)
      requires Valid() && amount.unit == baseUnit
      modifies batches
      ensures allocations == Chosen(old(State()), amount.amount, selector.strategy, at)
      ensures Views() == Deducted(old(Views()), allocations) && NonNegative(allocations)
      ensures forall a :: a in allocations ==> a.quantity.unit == baseUnit
    {
      ChosenSound(State(), amount.amount, selector.strategy, at);
      allocations := selector.SelectForConsumption(Views(), amount, at);
      hide Chosen;
      var applied := ApplyAllocations(allocations);
    }

    /** The events of a consumption: the consumption itself, then at most one threshold event. */
    method RaiseConsumed(amount: Quantity, totalCost: int, totalBefore: Quantity)
      modifies this`events
      ensures events == old(events) + [StockConsumed(amount, totalCost)]
                        + ThresholdEvents(totalBefore.amount, Total(State()), reorderLevel.amount)
    {
      hide Total;
      ghost var s := State();
      var consumed := StockConsumed(amount, totalCost);
      events := events + [consumed];
      var totalAfter := TotalQuantity();
      assert State() == s;
      if totalAfter.amount == 0.0 {
        events := events + [OutOfStockReached];
        assert State() == s;
      } else if totalAfter.amount <= reorderLevel.amount && totalBefore.amount > reorderLevel.amount {
        events := events + [LowStockReached(totalAfter.amount)];
        assert State() == s;
      } else {
        assert old(events) + [consumed] + [] == old(events) + [consumed];
      }
    }

    method Consume(amount: Quantity, selector: BatchSelection.BatchSelectionService, at: int)
      returns (r: Result<WriteOff, StockError>)
      requires Valid()
      modifies this, batches
      ensures Valid() && OwnBatches()
      ensures match WithdrawError(old(State()), amount)
              case Some(e) => r == Err(e) && State() == old(State()) && events == old(events)
              case None =>
                var allocs := Chosen(old(State()), amount.amount, selector.strategy, at);
                && r == Ok(WriteOff(allocs, ReportedCost(allocs)))
                && State() == Withdrawn(old(State()), amount.amount, selector.strategy, at)
                && events == old(events) + [StockConsumed(amount, ReportedCost(allocs))]
                             + ThresholdEvents(Total(old(State())), Total(State()), reorderLevel.amount)
    {
      hide Total, StateOk, Chosen, ReportedCost, Deducted, Filter, ThresholdEvents;
      if amount.unit != baseUnit {
        return Err(UnitMismatch(amount.unit, baseUnit));
      }
      var totalBefore := TotalQuantity();
      if amount.amount > totalBefore.amount {
        return Err(InsufficientStock(totalBefore.amount, amount.amount));
      }
      WithdrawnOk(State(), amount.amount, selector.strategy, at);
      var allocations := SelectAndApply(amount, selector, at);
      RemoveDepleted();
      var totalCost := SumAllocationCost(allocations);
      RaiseConsumed(amount, totalCost, totalBefore);
      ValidAs(Withdrawn(old(State()), amount.amount, selector.strategy, at));
      r := Ok(WriteOff(allocations, totalCost));
    }

    /** The negative branch of adjust: the guard, the decrements and the clean-up. */
    method AdjustDown(absAmount: Quantity, selector: BatchSelection.BatchSelectionService, at: int)
      returns (r: Result<(), StockError>)
      requires Valid() && absAmount.unit == baseUnit
      modifies this`batches, batches
      ensures OwnBatches()
      ensures match Consumed(old(State()), absAmount, selector.strategy, at)
              case Err(e) => r == Err(e) && State() == old(State())
              case Ok(s) => r == Ok(()) && State() == s
    {
      hide Total, Chosen, StateOk, Filter, Deducted;
      var totalBefore := TotalQuantity();
      if absAmount.amount > totalBefore.amount {
        return Err(InsufficientStock(totalBefore.amount, absAmount.amount));
      }
      var allocations := SelectAndApply(absAmount, selector, at);
      RemoveDepleted();
      r := Ok(());
    }

    method Adjust(delta: SignedQuantity, reason: string, selector: BatchSelection.BatchSelectionService, at: int,
                  idGen: IdGenerator)
      returns (r: Result<(), StockError>)
      requires Valid() && IdsBelow(Views(), idGen.next)
      modifies this, batches, idGen
      ensures Valid() && IdsBelow(Views(), idGen.next) && OwnBatches()
      ensures match Adjusted(old(State()), old(idGen.next), delta, reason, selector.strategy, at)
              case Err(e) => r == Err(e) && State() == old(State()) && events == old(events)
                             && idGen.next == old(idGen.next)
              case Ok(s) => r == Ok(()) && State() == s && events == old(events) + [StockAdjusted(delta.amount)]
                            && idGen.next
                               == old(idGen.next) + (if delta.unit == baseUnit && delta.amount > 0.0 then 1 else 0)
    {
      assert averageCost >= 0;
      hide StateOk, Consumed, IdsBelow;
      if delta.unit != baseUnit {
        return Err(UnitMismatch(delta.unit, baseUnit));
      }
      AdjustedKeeps(State(), idGen.next, delta, reason, selector.strategy, at);
      ghost var vs, expected := Views(), Adjusted(State(), idGen.next, delta, reason, selector.strategy, at);
      if delta.amount > 0.0 {
        var id := idGen.Generate();
        var q := Quantity(delta.amount, baseUnit);
        Push(BatchView(id, None, FromAdjustment, reason, q, q, averageCost, None, at));
      } else if delta.amount < 0.0 {
        var done := AdjustDown(Quantity(-delta.amount, baseUnit), selector, at);
        if done.Err? {
          ValidAs(old(State()));
          return done;
        }
      }
      events := events + [StockAdjusted(delta.amount)];
      assert delta.amount == 0.0 ==> Views() == vs;
      ValidAs(expected.value);
      r := Ok(());
    }

    /** The transfer details: each allocation with the expiry of the batch it came from. */
    method DescribeAllocations(allocations: seq<Allocation>) returns (details: seq<TransferDetail>)
      ensures details == Details(Views(), allocations)
    {
      details := [];
      var i := 0;
      while i < |allocations|
        invariant i <= |allocations|
        invariant details == Details(Views(), allocations[..i])
      {
        var alloc := allocations[i];
        var k := FindBatch(alloc.batchId);
        ExpiryFound(Views(), k, alloc.batchId);
        var expiresAt := if k < |batches| then batches[k].expiresAt else None;
        details := details + [TransferDetail(alloc.quantity, alloc.unitCost, expiresAt)];
        assert allocations[..i + 1] == allocations[..i] + [alloc];
        DetailsAppend(Views(), allocations[..i], alloc);
        i := i + 1;
      }
      assert allocations[..i] == allocations;
    }

    method TransferOut(amount: Quantity, targetBranch: string, selector: BatchSelection.BatchSelectionService, at: int)
      returns (r: Result<Transfer, StockError>)
      requires Valid()
      modifies this, batches
      ensures Valid() && OwnBatches()
      ensures match WithdrawError(old(State()), amount)
              case Some(e) => r == Err(e) && State() == old(State()) && events == old(events)
              case None =>
                && r == Ok(Transfer(Outgoing(old(State()), amount.amount, selector.strategy, at), amount))
                && State() == Withdrawn(old(State()), amount.amount, selector.strategy, at)
                && events == old(events) + [StockTransferredOut(amount, targetBranch)]
                && AllInUnit(r.value.details, baseUnit)
                && forall d :: d in r.value.details ==> d.quantity.amount >= 0.0
    {
      hide Total, StateOk, Chosen;
      if amount.unit != baseUnit {
        return Err(UnitMismatch(amount.unit, baseUnit));
      }
      var totalBefore := TotalQuantity();
      if amount.amount > totalBefore.amount {
        return Err(InsufficientStock(totalBefore.amount, amount.amount));
      }
      ghost var vs := Views();
      WithdrawnOk(State(), amount.amount, selector.strategy, at);
      var allocations := SelectAndApply(amount, selector, at);
      var batchDetails := DescribeAllocations(allocations);
      DetailsIgnoreAmounts(vs, allocations, allocations);
      DetailsSound(vs, allocations, baseUnit);
      RemoveDepleted();
      events := events + [StockTransferredOut(amount, targetBranch)];
      ValidAs(Withdrawn(old(State()), amount.amount, selector.strategy, at));
      r := Ok(Transfer(batchDetails, amount));
    }

    /** One turn of the loop over transfer details; the id is drawn before the unit is checked. */
    method ReceiveDetail(detail: TransferDetail, at: int, idGen: IdGenerator) returns (ok: bool)
      requires IdsBelow(Views(), idGen.next)
      modifies this`batches, idGen
      ensures ok <==> detail.quantity.unit == baseUnit
      ensures idGen.next == old(idGen.next) + 1 && OwnBatches() && IdsBelow(Views(), idGen.next)
      ensures Views() == old(Views()) + if ok then [IncomingBatch(old(idGen.next), detail, at)] else []
    {
      var id := idGen.Generate();
      ok := detail.quantity.unit == baseUnit;
      if ok {
        Push(IncomingBatch(id, detail, at));
      }
    }

    /** The loop of `transferIn`; it stops at the first detail in a foreign unit. */
    method ReceiveDetails(details: seq<TransferDetail>, at: int, idGen: IdGenerator) returns (taken: nat)
      requires IdsBelow(Views(), idGen.next)
      modifies this`batches, idGen
      ensures OwnBatches() && IdsBelow(Views(), idGen.next)
      ensures Views() == old(Views()) + Incoming(baseUnit, old(idGen.next), details, at)
      ensures taken == |Incoming(baseUnit, old(idGen.next), details, at)| <= |details|
      ensures AllInUnit(details[..taken], baseUnit)
      ensures taken < |details| ==> details[taken].quantity.unit != baseUnit
      ensures idGen.next == old(idGen.next) + if taken < |details| then taken + 1 else taken
    {
      ghost var start, vs := idGen.next, Views();
      hide Views, IdsBelow, Incoming, IncomingBatch, AllInUnit, OwnBatches;
      IncomingNone(baseUnit, start, at);
      taken := 0;
      while taken < |details|
        invariant taken <= |details| && idGen.next == start + taken
        invariant OwnBatches() && IdsBelow(Views(), idGen.next)
        invariant Views() == vs + Incoming(baseUnit, start, details[..taken], at)
        invariant AllInUnit(details[..taken], baseUnit) && |Incoming(baseUnit, start, details[..taken], at)| == taken
      {
        IncomingStep(baseUnit, start, details, taken, at);
        var ok := ReceiveDetail(details[taken], at, idGen);
        if !ok {
          return;
        }
        taken := taken + 1;
      }
      assert details[..taken] == details;
    }

    method TransferIn(transfer: Transfer, at: int, idGen: IdGenerator) returns (r: Result<(), StockError>)
      requires Valid() && IdsBelow(Views(), idGen.next)
      requires forall d :: d in transfer.details ==> d.quantity.amount >= 0.0
      modifies this, idGen
      ensures Valid() && OwnBatches() && IdsBelow(Views(), idGen.next)
      ensures State() == TransferredIn(old(State()), old(idGen.next), transfer.details, at)
      ensures r.Ok? <==> AllInUnit(transfer.details, baseUnit)
      ensures r.Err? ==>
                var k := |Incoming(baseUnit, old(idGen.next), transfer.details, at)|;
                && k < |transfer.details| && idGen.next == old(idGen.next) + k + 1
                && r == Err(UnitMismatch(transfer.details[k].quantity.unit, baseUnit))
      ensures r.Ok? ==> idGen.next == old(idGen.next) + |transfer.details|
                        && events == old(events) + [StockTransferredIn(transfer.totalAmount)]
    {
      var details := transfer.details;
      ghost var start := idGen.next;
      TransferredInOk(State(), start, details, at);
      hide StateOk, Views, IdsBelow, Incoming, IncomingBatch;
      var taken := ReceiveDetails(details, at, idGen);
      if taken < |details| {
        assert details[taken] in details;
        r := Err(UnitMismatch(details[taken].quantity.unit, baseUnit));
      } else {
        assert details[..taken] == details;
        events := events + [StockTransferredIn(transfer.totalAmount)];
        r := Ok(());
      }
      ValidAs(TransferredIn(old(State()), start, details, at));
    }

    method ChangeReorderLevel(newLevel: Quantity) returns (r: Result<(), StockError>)
      requires Valid()
      modifies this
      ensures Valid() && batches == old(batches)
      ensures newLevel.unit != baseUnit ==>
                r == Err(UnitMismatch(newLevel.unit, baseUnit)) && State() == old(State()) && events == old(events)
      ensures newLevel.unit == baseUnit ==>
                r == Ok(()) && State() == old(State()).(reorderLevel := newLevel)
                && events == old(events) + [ReorderLevelChanged(newLevel)]
    {
      if newLevel.unit != baseUnit {
        return Err(UnitMismatch(newLevel.unit, baseUnit));
      }
      reorderLevel := newLevel;
      events := events + [ReorderLevelChanged(newLevel)];
      ValidAs(old(State()).(reorderLevel := newLevel));
      r := Ok(());
    }

    /** Splice out the batches of a source document, from the last to the first. */
    method SpliceDocument(sourceDocId: string)
      modifies this`batches
      ensures Views() == Filter(old(Views()), NotFrom(sourceDocId))
      ensures forall b :: b in batches ==> b in old(batches)
    {
      ghost var vs, objs, kept := Views(), batches, [];
      TailNone(vs, NotFrom(sourceDocId));
      hide Filter;
      var i := |batches| - 1;
      while i >= 0
        invariant -1 <= i < |objs| && batches == objs[..i + 1] + kept
        invariant ViewsOf(kept) == Filter(vs[i + 1..], NotFrom(sourceDocId))
        invariant forall b :: b in kept ==> b in objs
      {
        Spliced(objs, kept, i);
        TailFilter(vs, i, NotFrom(sourceDocId));
        if batches[i].sourceDocId == sourceDocId {
          batches := batches[..i] + batches[i + 1..];
        } else {
          kept := [objs[i]] + kept;
        }
        i := i - 1;
      }
      assert vs[0..] == vs && batches == kept;
      ViewsAre(Filter(vs, NotFrom(sourceDocId)));
    }

    method RemoveBatchesBySourceDoc(sourceDocId: string)
      requires Valid()
      modifies this`batches
      ensures Valid() && State() == WithoutDocument(old(State()), sourceDocId)
      ensures forall b :: b in batches ==> b in old(batches)
    {
      hide StateOk, Filter;
      WithoutDocumentOk(State(), sourceDocId);
      SpliceDocument(sourceDocId);
      ValidAs(WithoutDocument(old(State()), sourceDocId));
    }
  }
}
