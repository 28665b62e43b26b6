/** A stock-taking from its posting to the corrected stocks: the aggregate and the two sagas after it. */
module StockTakingRun {
  import opened Documents
  import opened Inventory
  import opened StockTakingLaws
  import Basics
  import BatchSelection
  import Sagas
  import StockSpec
  import StockTypes

  /** The measured stocks are at the larger of the count and the expired stock, and the others are as they were. */
  ghost predicate CountsReached(before: System, after: System, branch: string, lines: seq<CountLine>, at: int) {
    && (forall line :: line in lines && line.actual.Some? ==>
          && StockFor(after, branch, line).baseUnit == line.expected.unit
          && StockSpec.Total(StockFor(after, branch, line))
             == Basics.MaxReal(line.actual.value.amount, ExpiredAt(StockFor(before, branch, line), at)))
    && (forall k :: Unmeasured(lines, branch, k) ==> SameRow(before, after, k))
  }

  /** Marking keys changes no stock, so what holds of the one system's stocks holds of the other's. */
  lemma MarksDoNotCount(before: System, marked: System, after: System, branch: string, lines: seq<CountLine>, at: int)
    requires marked.rows == before.rows && CountsReached(marked, after, branch, lines, at)
    ensures CountsReached(before, after, branch, lines, at)
  {
    hide StockSpec.Total, ExpiredAt;
  }

  lemma StillExpected(before: System, marked: System, branch: string, lines: seq<CountLine>)
    requires marked.rows == before.rows && forall line :: line in lines ==> ExpectsCurrent(before, branch, line)
    ensures forall line :: line in lines ==> ExpectsCurrent(marked, branch, line)
  {
    hide StockSpec.Total;
  }

  lemma AdjustmentReaches(sys: System, strategy: BatchSelection.Strategy, e: AdjustmentApproved, lines: seq<CountLine>)
    requires SystemOk(sys) && DistinctLines(lines) && e.lines == Deltas(lines)
    requires forall line :: line in lines ==> ExpectsCurrent(sys, e.branchId, line)
    requires forall sku :: AdjustmentLineKey(e.adjustmentId, sku) !in sys.done
    ensures RunJobs(sys, strategy, AdjustmentJobs(e)).error.None?
    ensures CountsReached(sys, RunJobs(sys, strategy, AdjustmentJobs(e)).sys, e.branchId, lines, e.approvedAt)
  {
    hide StockSpec.Total, ExpiredAt, RunJobs, SystemOk, StockFor, ExpectsCurrent, DistinctLines, Unmeasured, SameRow,
         Deltas;
    StockTakingReachesCount(sys, strategy, e, lines);
  }

  /**
   Posts a started stock-taking, turns it into an approved adjustment and applies that. The expired stock
   that limits a count is what has expired when the adjustment is approved.
   */
  method CorrectStocks(
    taking: StockTaking, user: string, at: int,
    takingSaga: Sagas.ApplyStockTakingSaga, adjustmentSaga: Sagas.ApplyAdjustmentSaga,
    adjustmentId: string, autoApprovalThreshold: nat, createdAt: int, approvedAt: int)
    returns (error: Basics.Option<StockTypes.StockError>)
    requires takingSaga.ports == adjustmentSaga.ports && SystemOk(takingSaga.ports.System())
    requires taking.status == TakingStarted && taking.raised == [] && DistinctLines(taking.Views())
    requires forall line :: line in taking.Views() ==> ExpectsCurrent(takingSaga.ports.System(), taking.branchId, line)
    requires StockTakingKey(taking.id) !in takingSaga.ports.idempotency.done
    requires forall sku :: AdjustmentLineKey(adjustmentId, sku) !in takingSaga.ports.idempotency.done
    modifies taking, takingSaga.ports.stockRepo, takingSaga.ports.idempotency, takingSaga.ports.idGen
    ensures error == Basics.None && taking.Views() == old(taking.Views())
    ensures CountsReached(old(takingSaga.ports.System()), takingSaga.ports.System(), taking.branchId, taking.Views(),
                          if autoApprovalThreshold > 0 then createdAt else approvedAt)
  {
    hide StockSpec.Total, ExpiredAt, RunJobs, ExpectsCurrent, DistinctLines, Deltas, CountsReached, RowOk;
    var ports := takingSaga.ports;
    ghost var start, lines := ports.System(), taking.Views();
    ghost var when := if autoApprovalThreshold > 0 then createdAt else approvedAt;
    var posted := taking.Post(user, at);
    var approved := takingSaga.Handle(taking.raised[0], adjustmentId, autoApprovalThreshold, createdAt, approvedAt);
    ghost var marked := ports.System();
    StillExpected(start, marked, taking.branchId, lines);
    ghost var e :=
        AdjustmentApproved(adjustmentId, taking.branchId, Deltas(lines), "StockTaking " + taking.id, user, when);
    AdjustmentReaches(marked, ports.batchSelector.strategy, e, lines);
    if approved.Some? {
      assert approved.value == e;
      error := adjustmentSaga.Handle(approved.value, |approved.value.lines|);
      assert AdjustmentJobs(e)[..|e.lines|] == AdjustmentJobs(e);
    } else {
      NothingToRun(marked, ports.batchSelector.strategy, e);
      error := Basics.None;
    }
    MarksDoNotCount(start, marked, ports.System(), taking.branchId, lines, when);
  }

  lemma NothingToRun(sys: System, strategy: BatchSelection.Strategy, e: AdjustmentApproved)
    requires e.lines == []
    ensures RunJobs(sys, strategy, AdjustmentJobs(e)) == Handled(sys, Basics.None)
  {
  }
}
