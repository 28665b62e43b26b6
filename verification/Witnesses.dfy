/**
 One concrete input for each place where the code does less than a caller may expect. The general laws say
 exactly when it happens; these say that it does.
 */
module Witnesses {
  import opened Basics
  import opened StockTypes
  import opened StockSpec
  import opened Documents
  import opened Inventory
  import opened Sequences
  import AdjustmentLaws
  import BatchSelection
  import Billing
  import Calendar
  import CancellationLaws
  import Deliveries
  import Interleavings
  import Outbox
  import OutboxLaws
  import StockEffects
  import StockSnapshots
  import StockTakingLaws
  import TransferLaws
  import TransferRedelivery
  import TransferRefusals
  import VisitHistory

  const NOTHING_STORED: System := System(map[], {}, 0)

  function Pieces(n: real): Quantity {
    Quantity(n, PCS)
  }

  /** A batch of so many pieces, bought at one ruble. */
  function SomeBatch(id: nat, n: real, expiresAt: Option<int>): BatchView {
    BatchView(id, None, FromReceipt, "r0", Pieces(n), Pieces(n), 100, expiresAt, 0)
  }

  function StockOf(sku: string, branch: string, batches: seq<BatchView>): StockState {
    StockState(sku, branch, PCS, batches, Pieces(0.0), 100)
  }

  lemma OneBatch(s: StockState, b: BatchView, at: int)
    requires s.batches == [b]
    ensures Total(s) == Amount(b) && Unexpired(s, at) == if Available(b, at) then Amount(b) else 0.0
  {
    var p := BatchSelection.AvailableAt(at);
    assert s.batches[1..] == [] && [b] + [] == [b];
    FilterCons(b, [], p);
    assert Sum([b], Amount) == Amount(b) + Sum([b][1..], Amount);
    assert Filter(s.batches, p) == if Available(b, at) then [b] else [];
  }

  // ---------------------------------------------------------------- consumption

  /** Three good pieces and five that have expired: four are accepted and three are taken. */
  lemma AcceptedAndServedShort()
    ensures var s := StockOf("oil", "A", [SomeBatch(0, 3.0, None), SomeBatch(1, 5.0, Some(5))]);
            var r := Consumed(s, Pieces(4.0), BatchSelection.FEFO, 10);
            StateOk(s) && r.Ok? && Total(s) == 8.0 && Total(r.value) == 5.0
  {
    var good, bad := SomeBatch(0, 3.0, None), SomeBatch(1, 5.0, Some(5));
    var s := StockOf("oil", "A", [good, bad]);
    assert [good, bad][1..] == [bad] && [bad][1..] == [];
    FilterCons(good, [bad], BatchSelection.AvailableAt(10));
    FilterCons(bad, [], BatchSelection.AvailableAt(10));
    assert [good] + [bad] == [good, bad] && [bad] + [] == [bad];
    assert Filter(s.batches, BatchSelection.AvailableAt(10)) == [good];
    assert Sum([good], Amount) == 3.0;
    StockEffects.WithdrawnTotal(s, 4.0, BatchSelection.FEFO, 10);
    hide Total;
  }

  // ---------------------------------------------------------------- repeated SKUs

  /** A receipt of two pieces and three more of the same SKU credits two. */
  lemma RepeatedReceiptLineIsLost()
    ensures var line := (n: real) => ReceiptPostedLine("oil", Pieces(n), 100, None);
            var e := ReceiptPosted("r1", "supplier", "A", [line(2.0), line(3.0)], 0);
            var h := RunJobs(NOTHING_STORED, BatchSelection.FEFO, ReceiptJobs(e));
            h.error == None && Deliveries.RowTotal(h.sys, StockKey("oil", "A")) == 2.0
  {
    var l2, l3 := ReceiptPostedLine("oil", Pieces(2.0), 100, None), ReceiptPostedLine("oil", Pieces(3.0), 100, None);
    var e := ReceiptPosted("r1", "supplier", "A", [l2, l3], 0);
    var jobs := ReceiptJobs(e);
    var j2, j3 := jobs[0], jobs[1];
    assert jobs == [j2, j3] && jobs[1..] == [j3] && [j3][1..] == [];
    var mid := RunJob(NOTHING_STORED, BatchSelection.FEFO, j2).value;
    assert RunJob(mid, BatchSelection.FEFO, j3) == Ok(mid);
    assert RunJobs(mid, BatchSelection.FEFO, [j3]) == Handled(mid, None);
    assert e.(lines := e.lines) == e;
    Deliveries.ReceiptCredits(NOTHING_STORED, BatchSelection.FEFO, e, e.lines, "oil");
  }

  /** An adjustment up by two and then by three of the same SKU goes up by two. */
  lemma RepeatedDeltaIsLost()
    ensures var delta := (n: real) => DeltaLine("oil", SignedQuantity(n, PCS));
            var e := AdjustmentApproved("a1", "A", [delta(2.0), delta(3.0)], "recount", "user", 0);
            var h := RunJobs(NOTHING_STORED, BatchSelection.FEFO, AdjustmentJobs(e));
            h.error == None && Deliveries.RowTotal(h.sys, StockKey("oil", "A")) == 2.0
  {
    var d2, d3 := DeltaLine("oil", SignedQuantity(2.0, PCS)), DeltaLine("oil", SignedQuantity(3.0, PCS));
    var e := AdjustmentApproved("a1", "A", [d2, d3], "recount", "user", 0);
    var jobs := AdjustmentJobs(e);
    var j2, j3 := jobs[0], jobs[1];
    assert jobs == [j2, j3] && jobs[1..] == [j3] && [j3][1..] == [];
    var mid := RunJob(NOTHING_STORED, BatchSelection.FEFO, j2).value;
    assert RunJob(mid, BatchSelection.FEFO, j3) == Ok(mid);
    assert RunJobs(mid, BatchSelection.FEFO, [j3]) == Handled(mid, None);
    assert e.(lines := e.lines) == e;
    Deliveries.AdjustmentMoves(NOTHING_STORED, BatchSelection.FEFO, e, e.lines, "oil");
  }

  // ---------------------------------------------------------------- cancelled receipts

  /** A receipt cancelled before it was handled comes into stock when it is handled after all. */
  lemma CancelledReceiptComesBack()
    ensures var e := ReceiptPosted("r1", "supplier", "A", [ReceiptPostedLine("oil", Pieces(2.0), 100, None)], 0);
            var cancelled := CancelWholly(NOTHING_STORED, "r1", "A", ["oil"]);
            CancellationLaws.HoldsBatchOf(RunJobs(cancelled, BatchSelection.FEFO, ReceiptJobs(e)).sys.rows, "r1")
  {
    var e := ReceiptPosted("r1", "supplier", "A", [ReceiptPostedLine("oil", Pieces(2.0), 100, None)], 0);
    var cancelled := CancelWholly(NOTHING_STORED, "r1", "A", ["oil"]);
    assert ReceiptJobs(e)[..1] == ReceiptJobs(e);
    assert RemoveReceipt(map[], "r1", "A", ["oil"]) == RemoveReceipt(map[], "r1", "A", ["oil"][1..]) == map[];
    assert !CancellationLaws.Refuses(cancelled, ReceiptJobs(e)[0]);
    CancellationLaws.CancellationIsFinal(NOTHING_STORED, BatchSelection.FEFO, e, ["oil"], 1);
  }

  /**
   Receipt "r1" opens the oil of branch A in pieces; a line of "r2" for it comes in kilograms. Posted and cancelled,
   "r1" leaves no oil there, for the line was refused; without the posting that line is in stock.
   */
  lemma OtherUnitIsLost()
    ensures var e := ReceiptPosted("r1", "supplier", "A", [ReceiptPostedLine("oil", Pieces(2.0), 100, None)], 0);
            var other := ReceiptJob("r2", "supplier", "A", ReceiptPostedLine("oil", Quantity(5.0, KG), 100, None), 1);
            var handled := [Interleavings.HandleLine(other)];
            var posted := RunJobs(NOTHING_STORED, BatchSelection.FEFO, ReceiptJobs(e)[..1]).sys;
            var before := Interleavings.DoAll(posted, BatchSelection.FEFO, handled);
            var after := CancelWholly(before, "r1", "A", CancellationLaws.LineSkus(e));
            var without := Interleavings.DoAll(NOTHING_STORED, BatchSelection.FEFO, handled);
            && CancellationLaws.BatchesAt(after.rows, StockKey("oil", "A")) == []
            && |CancellationLaws.BatchesAt(without.rows, StockKey("oil", "A"))| == 1
  {
    var key := StockKey("oil", "A");
    var line := ReceiptPostedLine("oil", Pieces(2.0), 100, None);
    var e := ReceiptPosted("r1", "supplier", "A", [line], 0);
    var other := ReceiptJob("r2", "supplier", "A", ReceiptPostedLine("oil", Quantity(5.0, KG), 100, None), 1);
    var act := Interleavings.HandleLine(other);
    var job := ReceiptJobs(e)[0];
    assert ReceiptJobs(e)[..1] == [job] && [job][1..] == [] && [act][1..] == [];
    hide NewAverage, Total;
    var posted := RunJob(NOTHING_STORED, BatchSelection.FEFO, job).value;
    assert RunJobs(posted, BatchSelection.FEFO, []) == Handled(posted, None);
    var b := FreshBatch(0, ReceiptDetails("r1", "supplier", line, 0));
    assert posted.rows[key].batches == [b] && Interleavings.Do(posted, BatchSelection.FEFO, act) == posted;
    assert Interleavings.DoAll(posted, BatchSelection.FEFO, [act]) == posted;
    assert CancellationLaws.LineSkus(e) == ["oil"] && ["oil"][1..] == [];
    FilterCons(b, [], NotFrom("r1"));
    assert [b] + [] == [b];
    var removed := posted.rows[key := WithoutDocument(posted.rows[key], "r1")];
    assert RemoveReceipt(posted.rows, "r1", "A", ["oil"]) == RemoveReceipt(removed, "r1", "A", []) == removed;
  }

  // ---------------------------------------------------------------- adjustments

  /** Half a piece at one cent more and half a piece less is worth nothing, and waits at a threshold of one cent. */
  lemma ReversalIsPending()
    ensures var half := AdjustmentLine("oil", SignedQuantity(0.5, PCS), 1);
            var lines := [half] + AdjustmentLaws.Reversal([half]);
            && AdjustmentLaws.Worth(lines) == 0.0
            && NewAdjustment("a1", "A", "recount", lines, "user", 0, 1).status == AdjustmentPending
  {
    var half := AdjustmentLine("oil", SignedQuantity(0.5, PCS), 1);
    var back := AdjustmentLaws.Reversed(half);
    assert AdjustmentLaws.Reversal([half]) == [back] && [half] + [back] == [half, back];
    assert [half, back][1..] == [back] && [back][1..] == [] && [half][..0] == [];
    assert AdjustmentLaws.LineWorth(half) == 0.5 && AdjustmentLaws.LineWorth(back) == -0.5;
    assert AdjustmentLaws.Worth([back]) == -0.5;
    assert AdjustmentLaws.Halves([half]) == 1;
    AdjustmentLaws.ReversalApproved("a1", "A", "recount", [half], "user", 0, 1);
  }

  // ---------------------------------------------------------------- stock-taking

  /** Nothing expected in grams, five kilograms counted: the stock is set to five grams. */
  lemma KilogramsBecomeGrams()
    ensures var line := CountLine("flour", Quantity(0.0, G), Some(Quantity(5.0, KG)));
            var e := AdjustmentApproved("a1", "A", Deltas([line]), "count", "user", 0);
            var s :=
                StockTakingLaws.StockFor(RunJobs(NOTHING_STORED, BatchSelection.FEFO, AdjustmentJobs(e)).sys,
                                         "A", line);
            Quantity(Total(s), s.baseUnit) == Quantity(5.0, G)
  {
    var line := CountLine("flour", Quantity(0.0, G), Some(Quantity(5.0, KG)));
    var e := AdjustmentApproved("a1", "A", Deltas([line]), "count", "user", 0);
    StockTakingLaws.StockTakingReachesCount(NOTHING_STORED, BatchSelection.FEFO, e, [line]);
    var before := StockTakingLaws.StockFor(NOTHING_STORED, "A", line);
    assert Total(before) == 0.0 && StockTakingLaws.ExpiredAt(before, 0) == 0.0;
    assert line in [line];
    hide RunJobs, Total;
  }

  // ---------------------------------------------------------------- transfers

  /** Branch A holds so many pieces of oil and three filters. */
  function TwoSkus(oil: real): System {
    System(map[StockKey("oil", "A") := StockOf("oil", "A", [SomeBatch(0, oil, None)]),
               StockKey("filter", "A") := StockOf("filter", "A", [SomeBatch(1, 3.0, None)])], {}, 2)
  }

  function OilAndFilters(): TransferPosted {
    TransferPosted("t1", "A", "B", [TransferLine("oil", Pieces(2.0)), TransferLine("filter", Pieces(3.0))], 0)
  }

  /** A line for n of the m unexpired pieces in a stock of one batch. */
  lemma CanMove(sys: System, e: TransferPosted, line: TransferLine, s: StockState, b: BatchView, n: real, m: real)
    requires SystemOk(sys) && TransferRedelivery.FromKey(e, line) in sys.rows
             && TransferRedelivery.ToKey(e, line) !in sys.rows
    requires sys.rows[TransferRedelivery.FromKey(e, line)] == s && s.batches == [b] && s.baseUnit == PCS
    requires m == Amount(b) >= n > 0.0 && line.quantity == Pieces(n) && b.expiresAt == None
    ensures !TransferRedelivery.Throws(sys, BatchSelection.FEFO, e, line)
    ensures TransferRedelivery.RefusedAgain(sys, e, line) <==> n > m - n
    ensures TransferRedelivery.Sends(sys, e, line) == n
    ensures !TransferRedelivery.Harmless(sys, e, line)
  {
    OneBatch(s, b, e.postedAt);
    TransferRedelivery.ThrowsWhen(sys, BatchSelection.FEFO, e, line);
    hide TransferRedelivery.Throws, Total, Unexpired, SystemOk;
  }

  lemma TwoLinesFinish(sys: System, e: TransferPosted)
    requires SystemOk(sys) && e.fromBranchId != e.toBranchId && TransferKey(e.transferId) !in sys.done
    requires |e.lines| == 2 && TransferRedelivery.DistinctLines(e.lines) && TransferRedelivery.ProperLines(e.lines)
    requires forall i :: 0 <= i < 2 ==> !TransferRedelivery.Throws(sys, BatchSelection.FEFO, e, e.lines[i])
    ensures TransferRedelivery.Finishes(sys, BatchSelection.FEFO, e)
  {
    hide SystemOk, MoveLines, TransferRedelivery.Throws, TransferRedelivery.FirstThrow, TransferRedelivery.MovedOnce,
         TransferRedelivery.Untouched, TransferRedelivery.DistinctLines, TransferRedelivery.ProperLines;
    TransferRedelivery.LinesHandled(sys, BatchSelection.FEFO, e, e.lines);
    TransferRedelivery.FirstThrowIs(sys, BatchSelection.FEFO, e, e.lines, 2);
  }

  lemma BothCanMove(oil: real)
    requires oil >= 2.0
    ensures var sys, e := TwoSkus(oil), OilAndFilters();
            && TransferRedelivery.Finishes(sys, BatchSelection.FEFO, e)
            && (TransferRedelivery.RefusedAgain(sys, e, e.lines[0]) <==> oil < 4.0)
            && !TransferRedelivery.Harmless(sys, e, e.lines[0]) && TransferRedelivery.Sends(sys, e, e.lines[1]) == 3.0
  {
    hide TransferRedelivery.Throws, TransferRedelivery.RefusedAgain, TransferRedelivery.Sends,
         TransferRedelivery.Finishes, TransferRedelivery.Harmless;
    var sys, e := TwoSkus(oil), OilAndFilters();
    CanMove(sys, e, e.lines[0], StockOf("oil", "A", [SomeBatch(0, oil, None)]), SomeBatch(0, oil, None), 2.0, oil);
    CanMove(sys, e, e.lines[1], StockOf("filter", "A", [SomeBatch(1, 3.0, None)]), SomeBatch(1, 3.0, None), 3.0, 3.0);
    TwoLinesFinish(sys, e);
  }

  /** With ten pieces of oil, a stop after the oil and a second delivery do not leave the totals of one delivery. */
  lemma StoppedTransferMovesTwice()
    ensures var sys, e := TwoSkus(10.0), OilAndFilters();
            var s1 := TransferRedelivery.Stopped(sys, BatchSelection.FEFO, e, 1);
            var again, once := TransferRedelivery.Complete(s1, BatchSelection.FEFO, e),
                               TransferRedelivery.Complete(sys, BatchSelection.FEFO, e);
            again.error == None && !TransferRedelivery.SameTotals(again.sys, once.sys)
  {
    var sys, e := TwoSkus(10.0), OilAndFilters();
    BothCanMove(10.0);
    assert |e.lines| == 2;
    hide TransferRedelivery.Finishes, TransferRedelivery.Stopped, TransferRedelivery.Complete,
         TransferRedelivery.RefusedAgain, TransferRedelivery.SameTotals, TransferRedelivery.Harmless,
         TransferRedelivery.Sends, TwoSkus, OilAndFilters;
    TransferRedelivery.RedeliveryIsOne(sys, BatchSelection.FEFO, e, 1);
    TransferRedelivery.SecondMoves(sys, BatchSelection.FEFO, e, 1);
    TransferRedelivery.ReachesWhat(sys, BatchSelection.FEFO, e, 1);
  }

  /**
   A transfer of all the oil and all the filters that stops after the oil: over any run in which no oil comes to
   branch A, every delivery of it is refused at the oil, so it never moves the filters.
   */
  lemma StoppedTransferWaits(acts: seq<Interleavings.Act>)
    requires TransferRefusals.ProperFor(acts, OilAndFilters())
    requires TransferRefusals.Unaided(acts, OilAndFilters(), OilAndFilters().lines[0])
    ensures var s1 := TransferRedelivery.Stopped(TwoSkus(2.0), BatchSelection.FEFO, OilAndFilters(), 1);
            && TransferKey("t1") !in Interleavings.DoAll(s1, BatchSelection.FEFO, acts).done
            && TransferRefusals.NeverMoved(s1, BatchSelection.FEFO, acts, OilAndFilters(), 0)
  {
    var sys, e := TwoSkus(2.0), OilAndFilters();
    assert e.transferId == "t1" && |e.lines| == 2;
    BothCanMove(2.0);
    hide TransferRedelivery.Finishes, TransferRedelivery.Stopped, TransferRedelivery.RefusedAgain,
         TransferRefusals.ProperFor, TransferRefusals.Unaided, TransferRefusals.NeverMoved, Interleavings.DoAll,
         TwoSkus, OilAndFilters;
    TransferRefusals.RestWaits(sys, BatchSelection.FEFO, e, 1, 0, acts);
  }

  /** A receipt of two more pieces of oil for branch A. */
  function MoreOil(): LineJob {
    ReceiptJob("r9", "supplier", "A", ReceiptPostedLine("oil", Pieces(2.0), 100, None), 1)
  }

  /** The stopped transfer, and then the receipt. */
  function Refilled(): System {
    Interleavings.Do(TransferRedelivery.Stopped(TwoSkus(2.0), BatchSelection.FEFO, OilAndFilters(), 1),
                     BatchSelection.FEFO, Interleavings.HandleLine(MoreOil()))
  }

  /** A batch that never expires adds to what may be used. */
  lemma UnexpiredAppend(s: StockState, b: BatchView, at: int)
    requires b.expiresAt == None && Amount(b) > 0.0
    ensures Unexpired(s.(batches := s.batches + [b]), at) == Unexpired(s, at) + Amount(b)
    ensures Total(s.(batches := s.batches + [b])) == Total(s) + Amount(b)
  {
    var p := BatchSelection.AvailableAt(at);
    FilterAppend(s.batches, [b], p);
    FilterCons(b, [], p);
    assert [b] + [] == [b];
    SumOne(Filter(s.batches, p), b, Amount);
    SumOne(s.batches, b, Amount);
  }

  /** Handling the receipt of more oil, wherever branch A has run out of it. */
  lemma OilComesIn(sys: System)
    requires SystemOk(sys) && sys.done == {}
    requires Load(sys, StockKey("oil", "A"), PCS).baseUnit == PCS && Total(Load(sys, StockKey("oil", "A"), PCS)) == 0.0
    requires Unexpired(Load(sys, StockKey("oil", "A"), PCS), 0) == 0.0
    ensures var after := Interleavings.Do(sys, BatchSelection.FEFO, Interleavings.HandleLine(MoreOil()));
            var s := Load(after, StockKey("oil", "A"), PCS);
            && SystemOk(after) && TransferKey("t1") !in after.done
            && s.baseUnit == PCS && Total(s) == 2.0 && Unexpired(s, 0) == 2.0
            && (forall k :: k != StockKey("oil", "A") ==>
                  Load(after, k, PCS) == Load(sys, k, PCS)
                      && Deliveries.RowTotal(after, k) == Deliveries.RowTotal(sys, k))
  {
    var key, job := StockKey("oil", "A"), MoreOil();
    var s := Load(sys, key, PCS);
    var d := ReceiptDetails("r9", "supplier", job.line, 1);
    var averaged := s.(averageCost := NewAverage(Total(s), s.averageCost, 2.0, 100));
    RunJobOk(sys, BatchSelection.FEFO, job);
    UnexpiredAppend(averaged, FreshBatch(sys.nextId, d), 0);
    assert JobKey(job) !in sys.done && JobStock(job) == key;
    assert Unexpired(averaged, 0) == Unexpired(s, 0) && Total(averaged) == Total(s);
    hide NewAverage, Total, Unexpired, SystemOk, FreshBatch;
    forall k | k != key
      ensures var after := Interleavings.Do(sys, BatchSelection.FEFO, Interleavings.HandleLine(MoreOil()));
              Load(after, k, PCS) == Load(sys, k, PCS) && Deliveries.RowTotal(after, k) == Deliveries.RowTotal(sys, k)
    {
      Deliveries.JobLeaves(sys, BatchSelection.FEFO, job, k, PCS);
    }
  }

  /** After the stop branch A has no oil left; the filters are as they were. */
  lemma OilHasGone()
    ensures var s1 := TransferRedelivery.Stopped(TwoSkus(2.0), BatchSelection.FEFO, OilAndFilters(), 1);
            var s := Load(s1, StockKey("oil", "A"), PCS);
            && SystemOk(s1) && s1.done == {} && s.baseUnit == PCS && Total(s) == 0.0 && Unexpired(s, 0) == 0.0
            && Load(s1, StockKey("oil", "B"), PCS).baseUnit == PCS
            && Deliveries.RowTotal(s1, StockKey("oil", "B")) == 2.0
            && TransferRedelivery.SameStocks(TwoSkus(2.0), s1, "filter")
  {
    var sys, e := TwoSkus(2.0), OilAndFilters();
    BothCanMove(2.0);
    OneBatch(sys.rows[StockKey("oil", "A")], SomeBatch(0, 2.0, None), 0);
    assert |e.lines| == 2 && e.lines[0].sku == "oil" && e.lines[1].sku == "filter";
    assert Deliveries.RowTotal(sys, StockKey("oil", "B")) == 0.0;
    assert TransferRedelivery.Sends(sys, e, e.lines[0]) == 2.0;
    var s1 := TransferRedelivery.Stopped(sys, BatchSelection.FEFO, e, 1);
    hide TransferRedelivery.Finishes, TransferRedelivery.Stopped, TransferRedelivery.SameStocks, SystemOk, Total,
         Unexpired, Deliveries.RowTotal, TransferRedelivery.Sends;
    TransferRedelivery.StoppedMoves(sys, BatchSelection.FEFO, e, 1);
    assert TransferRedelivery.MovedOnce(sys, s1, e, e.lines[0]);
    assert TransferRedelivery.FromKey(e, e.lines[0]) == StockKey("oil", "A");
  }

  /** The filters of branch A, which nothing has touched, and the oil, which has come back, can all move. */
  lemma RefilledIsPassable()
    ensures var s2, e := Refilled(), OilAndFilters();
            && SystemOk(s2) && TransferKey("t1") !in s2.done && |e.lines| == 2
            && !TransferRedelivery.Throws(s2, BatchSelection.FEFO, e, e.lines[0])
            && !TransferRedelivery.Throws(s2, BatchSelection.FEFO, e, e.lines[1])
            && TransferRedelivery.Sends(s2, e, e.lines[0]) == 2.0 && TransferRedelivery.Sends(s2, e, e.lines[1]) == 3.0
            && Deliveries.RowTotal(s2, StockKey("oil", "B")) == 2.0
            && Deliveries.RowTotal(s2, StockKey("filter", "A")) == 3.0
  {
    var s1 := TransferRedelivery.Stopped(TwoSkus(2.0), BatchSelection.FEFO, OilAndFilters(), 1);
    var s2, e := Refilled(), OilAndFilters();
    OilHasGone();
    OilComesIn(s1);
    FiltersAreThere(s1);
    hide TransferRedelivery.Stopped, TransferRedelivery.SameStocks, SystemOk, Total, Unexpired, Load, Interleavings.Do,
         TransferRedelivery.Throws;
    TransferRedelivery.ThrowsWhen(s2, BatchSelection.FEFO, e, e.lines[0]);
    TransferRedelivery.ThrowsWhen(s2, BatchSelection.FEFO, e, e.lines[1]);
  }

  lemma FiltersAreThere(sys: System)
    requires TransferRedelivery.SameStocks(TwoSkus(2.0), sys, "filter")
    ensures var s := Load(sys, StockKey("filter", "A"), PCS);
            && s.baseUnit == PCS && Total(s) == 3.0 && Unexpired(s, 0) == 3.0
            && Load(sys, StockKey("filter", "B"), PCS).baseUnit == PCS
            && Deliveries.RowTotal(sys, StockKey("filter", "A")) == 3.0
  {
    var key := StockKey("filter", "A");
    OneBatch(TwoSkus(2.0).rows[key], SomeBatch(1, 3.0, None), 0);
    assert key in TwoSkus(2.0).rows && sys.rows[key] == TwoSkus(2.0).rows[key];
    assert StockKey("filter", "B") !in TwoSkus(2.0).rows;
    hide Total, Unexpired;
  }

  /** A transfer of two lines that can both move moves them. */
  lemma TwoLinesMove(sys: System, e: TransferPosted)
    requires SystemOk(sys) && TransferRefusals.Plain(e) && |e.lines| == 2 && TransferKey(e.transferId) !in sys.done
    requires forall i :: 0 <= i < 2 ==> !TransferRedelivery.Throws(sys, BatchSelection.FEFO, e, e.lines[i])
    ensures var after := HandleTransfer(sys, BatchSelection.FEFO, e, 3).sys;
            var oil, filters := e.lines[0], e.lines[1];
            && TransferKey(e.transferId) in after.done
            && Deliveries.RowTotal(after, TransferRedelivery.ToKey(e, oil))
               == Deliveries.RowTotal(sys, TransferRedelivery.ToKey(e, oil)) + TransferRedelivery.Sends(sys, e, oil)
            && Deliveries.RowTotal(after, TransferRedelivery.FromKey(e, filters))
               == Deliveries.RowTotal(sys, TransferRedelivery.FromKey(e, filters))
                  - TransferRedelivery.Sends(sys, e, filters)
  {
    hide TransferRedelivery.Throws, SystemOk, Deliveries.RowTotal, TransferRedelivery.Sends, HandleTransfer,
         Total, Unexpired, TransferRefusals.Plain, Load;
    TransferRefusals.DeliveryMoves(sys, BatchSelection.FEFO, e, 3, 0);
    TransferRefusals.DeliveryMoves(sys, BatchSelection.FEFO, e, 3, 1);
    TransferRefusals.DeliveryMarks(sys, BatchSelection.FEFO, e, 3);
  }

  /** Once the receipt is in, the next delivery goes through: the filters move, and the oil a second time. */
  lemma RefilledTransferGoesOn()
    ensures var after := HandleTransfer(Refilled(), BatchSelection.FEFO, OilAndFilters(), 3).sys;
            && TransferKey("t1") in after.done
            && Deliveries.RowTotal(after, StockKey("filter", "A")) == 0.0
            && Deliveries.RowTotal(after, StockKey("oil", "B")) == 4.0
  {
    hide TransferRedelivery.Throws, SystemOk, Deliveries.RowTotal, Refilled, OilAndFilters, TransferRedelivery.Sends,
         HandleTransfer, TransferRefusals.Plain, TransferRedelivery.ToKey, TransferRedelivery.FromKey;
    RefilledIsPassable();
    OilAndFiltersIs();
    TwoLinesMove(Refilled(), OilAndFilters());
  }

  lemma OilAndFiltersIs()
    ensures var e := OilAndFilters();
            && TransferRefusals.Plain(e) && e.transferId == "t1" && |e.lines| == 2
            && TransferRedelivery.ToKey(e, e.lines[0]) == StockKey("oil", "B")
            && TransferRedelivery.FromKey(e, e.lines[1]) == StockKey("filter", "A")
  {
  }

  /** A process that ends between the two saves of the oil line leaves no oil in either branch. */
  lemma OilIsLostBetweenSaves()
    ensures var half :=
            TransferLaws.HalfSaved(TwoSkus(2.0), BatchSelection.FEFO, OilAndFilters(), OilAndFilters().lines[0]);
            && Deliveries.RowTotal(half, StockKey("oil", "A")) == 0.0 && StockKey("oil", "B") !in half.rows
            && TransferLaws.SystemWeight(half, "oil", StockEffects.One())
               == TransferLaws.SystemWeight(TwoSkus(2.0), "oil", StockEffects.One()) - 2.0
  {
    var sys, e := TwoSkus(2.0), OilAndFilters();
    var s := sys.rows[StockKey("oil", "A")];
    assert SystemOk(sys) && StateOk(s) && e.lines[0].sku == "oil";
    OneBatch(s, SomeBatch(0, 2.0, None), 0);
    CanMove(sys, e, e.lines[0], StockOf("oil", "A", [SomeBatch(0, 2.0, None)]), SomeBatch(0, 2.0, None), 2.0, 2.0);
    StockEffects.WithdrawnTotal(s, 2.0, BatchSelection.FEFO, 0);
    hide Total, Unexpired, SystemOk, StateOk, Withdrawn, Outgoing, MoveLine, TransferLaws.SystemWeight;
    TransferLaws.HalfSavedLoses(sys, BatchSelection.FEFO, e, e.lines[0], StockEffects.One());
  }

  // ---------------------------------------------------------------- billing

  lemma EarlyMonthsOf2023()
    ensures Calendar.MonthLength(12 * 2023) == 31 && Calendar.MonthLength(12 * 2023 + 1) == 28
    ensures Calendar.MonthLength(12 * 2023 + 2) == 31
  {
    Calendar.MonthStartOf(2023, 0);
    Calendar.MonthStartOf(2023, 1);
    Calendar.MonthStartOf(2023, 2);
    Calendar.MonthStartOf(2023, 3);
    assert !Calendar.IsLeap(2023);
    hide Calendar.MonthStart, Calendar.DayFromYear, Calendar.IsLeap;
  }

  /** 31 January stepped twice in a common year is 28 March, and stepped by two months 31 March. */
  lemma EndOfJanuaryDrifts()
    ensures var t := Calendar.MakeDate(Calendar.MonthStart(12 * 2023) + 30, 0);
            && Calendar.DayOfMonth(t) == 31
            && Calendar.DayOfMonth(Calendar.Boundary(t, 2)) == 28
            && Calendar.DayOfMonth(Calendar.AddMonths(t, 2)) == 31
  {
    var i := 12 * 2023;
    EarlyMonthsOf2023();
    hide Calendar.MonthStart, Calendar.MonthLength, Calendar.MonthIndex, Calendar.DayOfMonth, Calendar.TimeWithinDay,
         Calendar.AddMonths, Calendar.MakeDate;
    Calendar.CivilRead(i, 31, 0);
    var t := Calendar.MakeDate(Calendar.MonthStart(i) + 30, 0);
    Calendar.AddMonthsFields(t, 2);
    Calendar.AddMonthsFields(t, 1);
    Calendar.AddMonthsFields(Calendar.AddMonths(t, 1), 1);
    assert Calendar.Boundary(t, 0) == t && Calendar.Boundary(t, 1) == Calendar.AddMonths(t, 1);
    assert Calendar.Boundary(t, 2) == Calendar.AddMonths(Calendar.AddMonths(t, 1), 1);
  }

  /** A subscription past due in a period that began at 10, reactivated up to 5, and then perhaps up to 50. */
  lemma ShortPaymentBreaksThePeriod()
    ensures var s := Billing.SubState("plan", Billing.Active, 10, 20, None, None, None, 0, 0);
            var short := [Billing.MarkPastDue(11), Billing.MarkActivated(12, Some(5))];
            var corrected := short + [Billing.MarkPastDue(13), Billing.MarkActivated(14, Some(50))];
            && !Billing.Chain(Billing.Periods(s, short), 10, Billing.Run(s, short).nextBilling)
            && Billing.Chain(Billing.Periods(s, corrected), 10, Billing.Run(s, corrected).nextBilling)
  {
    var s := Billing.SubState("plan", Billing.Active, 10, 20, None, None, None, 0, 0);
    var due, five := Billing.MarkPastDue(11), Billing.MarkActivated(12, Some(5));
    var dueAgain, fifty := Billing.MarkPastDue(13), Billing.MarkActivated(14, Some(50));
    var s1, s2 := Billing.Apply(s, due), Billing.Apply(Billing.Apply(s, due), five);
    var s3, s4 := Billing.Apply(s2, dueAgain), Billing.Apply(Billing.Apply(s2, dueAgain), fifty);
    hide Calendar.AddMonths, Billing.Chain, Billing.Periods;
    assert Billing.Settlements(s2, [], Some(5)) == [Billing.Settlement(10, Some(5))];
    assert [due, five][1..] == [five] && [five][1..] == [] && Billing.Opening(s) == None;
    assert Billing.Settlements(s1, [five], None) == [Billing.Settlement(10, Some(5))];
    assert Billing.Settlements(s, [due, five], None) == [Billing.Settlement(10, Some(5))];
    Billing.LifeIsChain(s, [due, five]);
    assert Billing.Settlement(10, Some(5)) in [Billing.Settlement(10, Some(5))];
    var all := [due, five] + [dueAgain, fifty];
    assert all[1..] == [five, dueAgain, fifty] && all[1..][1..] == [dueAgain, fifty];
    assert [dueAgain, fifty][1..] == [fifty] && [fifty][1..] == [];
    assert Billing.Settlements(s4, [], Some(50)) == [Billing.Settlement(10, Some(50))];
    assert Billing.Settlements(s3, [fifty], Some(5)) == [Billing.Settlement(10, Some(50))];
    assert Billing.Settlements(s2, [dueAgain, fifty], Some(5)) == [Billing.Settlement(10, Some(50))];
    assert Billing.Settlements(s1, [five, dueAgain, fifty], None) == [Billing.Settlement(10, Some(50))];
    assert Billing.Settlements(s, all, None) == [Billing.Settlement(10, Some(50))];
    Billing.LifeIsChain(s, all);
  }

  /** A cancelled subscription whose period is advanced all the same. */
  lemma CancelledAndAdvanced()
    ensures var s := Billing.SubState("plan", Billing.Cancelled, -1, 0, None, Some(-1), Some("left"), -1, -1);
            var s' := Billing.Apply(s, Billing.AdvancePeriod(1));
            s'.status == Billing.Cancelled && s'.periodStart == 0 && s'.nextBilling > 0
  {
    var s := Billing.SubState("plan", Billing.Cancelled, -1, 0, None, Some(-1), Some("left"), -1, -1);
    hide Calendar.AddMonths;
    Calendar.OneMonthIsDays(0);
    Billing.CancelledAdvances(s, 1);
  }

  // ---------------------------------------------------------------- snapshots, outbox, paging

  /** A stock in grams with a reorder level of two kilograms comes back with one of two grams. */
  lemma ReorderLevelLosesItsUnit()
    ensures var s := StockState("flour", "A", G, [], Quantity(2.0, KG), 0);
            StockSnapshots.Restore(StockSnapshots.ToSnapshot(s)) == Ok(s.(reorderLevel := Quantity(2.0, G)))
  {
    StockSnapshots.SnapshotRoundTrip(StockState("flour", "A", G, [], Quantity(2.0, KG), 0));
  }

  /** One event, a query, then shutdown: the answer still loads the event for publishing. */
  lemma ShutdownDuringQuery()
    ensures var o := Outbox.Options(1000, 100, 5);
            var s := Outbox.PollerState(map[], Outbox.NoBatch, false, 0, [], map[], 0, 0);
            var steps := [Outbox.Insert("e1", 0), Outbox.Step.ProcessBatch, Outbox.Shutdown];
            && OutboxLaws.Initial(s) && OutboxLaws.CanRun(o, s, steps)
            && var t := OutboxLaws.After(o, s, steps);
            && t.shuttingDown && t.batch.Querying?
            && Outbox.Enabled(o, t, Outbox.Step.RowsFound(["e1"]))
            && OutboxLaws.Loaded(Outbox.Next(o, t, Outbox.Step.RowsFound(["e1"])), "e1")
  {
    var o := Outbox.Options(1000, 100, 5);
    var s := Outbox.PollerState(map[], Outbox.NoBatch, false, 0, [], map[], 0, 0);
    var a, b, c := Outbox.Insert("e1", 0), Outbox.Step.ProcessBatch, Outbox.Shutdown;
    var s1 := Outbox.Next(o, s, a);
    var s2 := Outbox.Next(o, s1, b);
    ThreeSteps(o, s, s1, s2, a, b, c);
    hide OutboxLaws.CanRun, OutboxLaws.After;
  }

  lemma ThreeSteps(o: Outbox.Options, s: Outbox.PollerState, s1: Outbox.PollerState, s2: Outbox.PollerState,
                   a: Outbox.Step, b: Outbox.Step, c: Outbox.Step)
    requires Outbox.Enabled(o, s, a) && s1 == Outbox.Next(o, s, a)
    requires Outbox.Enabled(o, s1, b) && s2 == Outbox.Next(o, s1, b) && Outbox.Enabled(o, s2, c)
    ensures OutboxLaws.CanRun(o, s, [a, b, c]) && OutboxLaws.After(o, s, [a, b, c]) == Outbox.Next(o, s2, c)
  {
    hide Outbox.Enabled, Outbox.Next;
    var s3 := Outbox.Next(o, s2, c);
    assert [a, b, c][1..] == [b, c] && [b, c][1..] == [c] && [c][1..] == [];
    assert OutboxLaws.CanRun(o, s3, []) && OutboxLaws.After(o, s3, []) == s3;
    assert OutboxLaws.CanRun(o, s2, [c]) && OutboxLaws.After(o, s2, [c]) == s3;
    assert OutboxLaws.CanRun(o, s1, [b, c]) && OutboxLaws.After(o, s1, [b, c]) == s3;
  }

  /** Two visits at one time read one to a page: the second is never shown. */
  lemma SecondVisitIsLost()
    ensures var v, w := VisitHistory.Visit("1", "c", "x", 7), VisitHistory.Visit("2", "c", "x", 7);
            var filter := VisitHistory.ByClient("c");
            && VisitHistory.Followed({v, w}, filter, 1, None, [[v, w], []])
            && VisitHistory.Finished(1, [[v, w], []])
            && w in VisitHistory.Matching({v, w}, filter, None) && w !in VisitHistory.Pages(1, [[v, w], []])
  {
    var v, w := VisitHistory.Visit("1", "c", "x", 7), VisitHistory.Visit("2", "c", "x", 7);
    var answers: seq<seq<VisitHistory.Visit>> := [[v, w], []];
    var last: seq<seq<VisitHistory.Visit>> := [[]];
    assert answers[1..] == last && last[1..] == [];
    assert [v, w][..1] == [v];
    assert VisitHistory.Found(VisitHistory.Matching({v, w}, VisitHistory.ByClient("c"), None), 2, [v, w]);
    assert VisitHistory.Found(VisitHistory.Matching({v, w}, VisitHistory.ByClient("c"), Some(7)), 2, []);
    hide VisitHistory.Found;
    assert VisitHistory.Followed({v, w}, VisitHistory.ByClient("c"), 1, Some(7), last);
    assert VisitHistory.Pages(1, last) == [];
    assert VisitHistory.Pages(1, answers) == [v] + VisitHistory.Pages(1, last) == [v];
  }
}
