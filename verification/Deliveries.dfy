/**
 Redelivery of receipts and adjustments: any number of deliveries, interrupted or not, has the effect
 of one; and what that one delivery credits.
 */
module Deliveries {
  import opened Basics
  import opened StockTypes
  import opened BatchSelection
  import opened StockSpec
  import opened Documents
  import opened Inventory
  import StockEffects
  import StockRuns

  // ---------------------------------------------------------------- running in parts

  lemma {:induction false} RunJobsAppend(sys: System, strategy: Strategy, xs: seq<LineJob>, ys: seq<LineJob>)
    ensures var h := RunJobs(sys, strategy, xs);
            RunJobs(sys, strategy, xs + ys) == if h.error.Some? then h else RunJobs(h.sys, strategy, ys)
    decreases |xs|
  {
    hide RunJob;
    if xs == [] {
      assert xs + ys == ys;
    } else {
      assert (xs + ys)[1..] == xs[1..] + ys;
      if RunJob(sys, strategy, xs[0]).Ok? {
        RunJobsAppend(RunJob(sys, strategy, xs[0]).value, strategy, xs[1..], ys);
      }
    }
  }

  /** Keys are only ever added, and a loop that ran to its end marked the key of every line. */
  lemma {:induction false} KeysMarked(sys: System, strategy: Strategy, jobs: seq<LineJob>)
    ensures sys.done <= RunJobs(sys, strategy, jobs).sys.done
    ensures RunJobs(sys, strategy, jobs).error.None? ==>
              forall job :: job in jobs ==> JobKey(job) in RunJobs(sys, strategy, jobs).sys.done
    decreases |jobs|
  {
    hide JobResult;
    if jobs != [] && RunJob(sys, strategy, jobs[0]).Ok? {
      KeysMarked(RunJob(sys, strategy, jobs[0]).value, strategy, jobs[1..]);
    }
  }

  /** Lines whose keys are all marked are all skipped. */
  lemma {:induction false} AllSkipped(sys: System, strategy: Strategy, jobs: seq<LineJob>)
    requires forall job :: job in jobs ==> JobKey(job) in sys.done
    ensures RunJobs(sys, strategy, jobs) == Handled(sys, None)
    decreases |jobs|
  {
    hide JobResult;
    if jobs != [] {
      AllSkipped(sys, strategy, jobs[1..]);
    }
  }

  /** How many lines the loop gets through before it throws, if it does. */
  function Reached(sys: System, strategy: Strategy, jobs: seq<LineJob>): (k: nat)
    ensures k <= |jobs|
    decreases |jobs|
  {
    if jobs == [] then 0
    else
      match RunJob(sys, strategy, jobs[0])
      case Err(_) => 0
      case Ok(sys') => 1 + Reached(sys', strategy, jobs[1..])
  }

  /** The lines reached run without error, and the line after them, if any, throws. */
  lemma {:induction false} ReachedSplits(sys: System, strategy: Strategy, jobs: seq<LineJob>)
    ensures var k := Reached(sys, strategy, jobs);
            var h := RunJobs(sys, strategy, jobs[..k]);
            && h.error.None? && RunJobs(sys, strategy, jobs).sys == h.sys
            && (k < |jobs| ==> RunJob(h.sys, strategy, jobs[k]).Err?)
    decreases |jobs|
  {
    hide RunJob;
    if jobs != [] && RunJob(sys, strategy, jobs[0]).Ok? {
      var sys' := RunJob(sys, strategy, jobs[0]).value;
      ReachedSplits(sys', strategy, jobs[1..]);
      var k := Reached(sys, strategy, jobs);
      assert jobs[..k][1..] == jobs[1..][..k - 1];
    }
  }

  // ---------------------------------------------------------------- deliveries

  /** One delivery of the event, in which the process gets through at most `stop` lines. */
  function Delivery(sys: System, strategy: Strategy, jobs: seq<LineJob>, stop: nat): System
    requires stop <= |jobs|
  {
    RunJobs(sys, strategy, jobs[..stop]).sys
  }

  function MaxNat(a: nat, b: nat): nat {
    if a < b then b else a
  }

  /** Running on from where an earlier delivery got to: the lines already done are skipped. */
  lemma Resumed(sys: System, strategy: Strategy, jobs: seq<LineJob>, k: nat, m: nat)
    requires k <= m <= |jobs| && RunJobs(sys, strategy, jobs[..k]).error.None?
    ensures var s1 := RunJobs(sys, strategy, jobs[..k]).sys;
            && RunJobs(s1, strategy, jobs[..m]) == RunJobs(s1, strategy, jobs[k..m])
            && RunJobs(sys, strategy, jobs[..m]) == RunJobs(s1, strategy, jobs[k..m])
  {
    hide RunJob, RunJobs;
    var s1 := RunJobs(sys, strategy, jobs[..k]).sys;
    assert jobs[..m] == jobs[..k] + jobs[k..m];
    KeysMarked(sys, strategy, jobs[..k]);
    AllSkipped(s1, strategy, jobs[..k]);
    RunJobsAppend(s1, strategy, jobs[..k], jobs[k..m]);
    RunJobsAppend(sys, strategy, jobs[..k], jobs[k..m]);
  }

  lemma StopsAtOnce(sys: System, strategy: Strategy, jobs: seq<LineJob>)
    requires jobs != [] && RunJob(sys, strategy, jobs[0]).Err?
    ensures RunJobs(sys, strategy, jobs).sys == sys
  {
    hide RunJob;
  }

  /** Two deliveries have the effect of the longer one, whether or not a line throws. */
  lemma TwoDeliveries(sys: System, strategy: Strategy, jobs: seq<LineJob>, n: nat, m: nat)
    requires n <= |jobs| && m <= |jobs|
    ensures Delivery(Delivery(sys, strategy, jobs, n), strategy, jobs, m) == Delivery(sys, strategy, jobs, MaxNat(n, m))
  {
    hide RunJob, RunJobs;
    var k := Reached(sys, strategy, jobs[..n]);
    ReachedSplits(sys, strategy, jobs[..n]);
    assert jobs[..n][..k] == jobs[..k];
    var s1 := RunJobs(sys, strategy, jobs[..k]).sys;
    if m <= k {
      KeysMarked(sys, strategy, jobs[..k]);
      AllSkipped(s1, strategy, jobs[..m]);
    } else {
      Resumed(sys, strategy, jobs, k, m);
      if m < n {
        assert jobs[..n][k] == jobs[k..m][0];
        StopsAtOnce(s1, strategy, jobs[k..m]);
      }
    }
  }

  predicate Within(stops: seq<nat>, n: nat) {
    forall i :: 0 <= i < |stops| ==> stops[i] <= n
  }

  /** Any number of deliveries, one after another. */
  function Deliver(sys: System, strategy: Strategy, jobs: seq<LineJob>, stops: seq<nat>): System
    requires Within(stops, |jobs|)
  {
    if stops == [] then sys
    else Delivery(Deliver(sys, strategy, jobs, stops[..|stops| - 1]), strategy, jobs, stops[|stops| - 1])
  }

  function Longest(stops: seq<nat>): nat {
    if stops == [] then 0 else MaxNat(Longest(stops[..|stops| - 1]), stops[|stops| - 1])
  }

  lemma {:induction false} LongestBounds(stops: seq<nat>, n: nat)
    requires Within(stops, n)
    ensures Longest(stops) <= n && Within(stops, Longest(stops))
  {
    if stops != [] {
      LongestBounds(stops[..|stops| - 1], n);
    }
  }

  lemma {:induction false} DeliveriesCollapse(sys: System, strategy: Strategy, jobs: seq<LineJob>, stops: seq<nat>)
    requires Within(stops, |jobs|)
    ensures Longest(stops) <= |jobs|
    ensures Deliver(sys, strategy, jobs, stops) == Delivery(sys, strategy, jobs, Longest(stops))
  {
    LongestBounds(stops, |jobs|);
    if stops == [] {
      assert jobs[..0] == [];
    } else {
      var front, last := stops[..|stops| - 1], stops[|stops| - 1];
      DeliveriesCollapse(sys, strategy, jobs, front);
      hide Delivery;
      TwoDeliveries(sys, strategy, jobs, Longest(front), last);
    }
  }

  /**
   Exactly once: any sequence of deliveries, some interrupted between lines and at least one complete,
   leaves the whole system as one complete delivery would, even when a line throws every time.
   */
  lemma ExactlyOnce(sys: System, strategy: Strategy, jobs: seq<LineJob>, stops: seq<nat>)
    requires Within(stops, |jobs|)
    requires exists i :: 0 <= i < |stops| && stops[i] == |jobs|
    ensures Deliver(sys, strategy, jobs, stops) == RunJobs(sys, strategy, jobs).sys
  {
    DeliveriesCollapse(sys, strategy, jobs, stops);
    LongestBounds(stops, |jobs|);
    assert Longest(stops) == |jobs| && jobs[..|jobs|] == jobs;
  }

  // ---------------------------------------------------------------- what a receipt credits

  function RowTotal(sys: System, key: StockKey): real {
    if key in sys.rows then Total(sys.rows[key]) else 0.0
  }

  /** The quantity of the first line of a SKU. */
  function FirstQuantity(lines: seq<ReceiptPostedLine>, sku: string): real {
    if lines == [] then 0.0
    else if lines[0].sku == sku then lines[0].quantity.amount
    else FirstQuantity(lines[1..], sku)
  }

  /** The quantity of all lines of a SKU. */
  function LineQuantity(lines: seq<ReceiptPostedLine>, sku: string): real {
    if lines == [] then 0.0
    else (if lines[0].sku == sku then lines[0].quantity.amount else 0.0) + LineQuantity(lines[1..], sku)
  }

  function JobsFor(e: ReceiptPosted, lines: seq<ReceiptPostedLine>): seq<LineJob> {
    ReceiptJobs(e.(lines := lines))
  }

  lemma ReceiptJobCredits(sys: System, strategy: Strategy, job: LineJob, key: StockKey)
    requires job.ReceiptJob? && RunJob(sys, strategy, job).Ok?
    ensures var sys' := RunJob(sys, strategy, job).value;
            && sys'.done == sys.done + {JobKey(job)}
            && RowTotal(sys', key) == RowTotal(sys, key)
                 + (if key == JobStock(job) && JobKey(job) !in sys.done then job.line.quantity.amount else 0.0)
  {
    if JobKey(job) in sys.done {
      assert sys.done + {JobKey(job)} == sys.done;
    } else {
      var s := Load(sys, JobStock(job), JobUnit(job));
      var d := ReceiptDetails(job.receiptId, job.supplierId, job.line, job.at);
      hide NewAverage, Total;
      var averaged := s.(averageCost := NewAverage(Total(s), s.averageCost, d.quantity.amount, d.unitCost));
      StockRuns.SameBatchesSameTotal(s, averaged);
      StockRuns.AppendTotal(averaged, FreshBatch(sys.nextId, d));
      EmptyTotal(JobStock(job), JobUnit(job));
    }
  }

  lemma EmptyTotal(key: StockKey, unit: Unit)
    ensures Total(EmptyStock(key.sku, key.branch, unit, Quantity(0.0, unit))) == 0.0
  {
  }

  /** A delivery that does not throw credits each SKU with the first line of it, unless that was done before. */
  lemma {:induction false} ReceiptCredits(
    sys: System, strategy: Strategy, e: ReceiptPosted, lines: seq<ReceiptPostedLine>, sku: string)
    requires RunJobs(sys, strategy, JobsFor(e, lines)).error.None?
    ensures RowTotal(RunJobs(sys, strategy, JobsFor(e, lines)).sys, StockKey(sku, e.branchId))
         == RowTotal(sys, StockKey(sku, e.branchId))
            + (if ReceiptLineKey(e.receiptId, sku) in sys.done then 0.0 else FirstQuantity(lines, sku))
    decreases |lines|
  {
    hide RowTotal, RunJob;
    if lines != [] {
      var jobs := JobsFor(e, lines);
      assert jobs[1..] == JobsFor(e, lines[1..]);
      ReceiptJobCredits(sys, strategy, jobs[0], StockKey(sku, e.branchId));
      ReceiptCredits(RunJob(sys, strategy, jobs[0]).value, strategy, e, lines[1..], sku);
    }
  }

  /** A line that repeats the SKU of an earlier one carries nothing. */
  predicate RepeatsAreEmpty(lines: seq<ReceiptPostedLine>) {
    forall i, j :: 0 <= i < j < |lines| && lines[i].sku == lines[j].sku ==> lines[j].quantity.amount == 0.0
  }

  predicate NonNegativeLines(lines: seq<ReceiptPostedLine>) {
    forall line :: line in lines ==> line.quantity.amount >= 0.0
  }

  lemma {:induction false} LineQuantitySign(lines: seq<ReceiptPostedLine>, sku: string)
    requires NonNegativeLines(lines)
    ensures 0.0 <= FirstQuantity(lines, sku) <= LineQuantity(lines, sku)
    ensures forall line :: line in lines && line.sku == sku ==> line.quantity.amount <= LineQuantity(lines, sku)
  {
    if lines != [] {
      LineQuantitySign(lines[1..], sku);
    }
  }

  lemma {:induction false} EmptyLines(lines: seq<ReceiptPostedLine>, sku: string)
    requires forall line :: line in lines && line.sku == sku ==> line.quantity.amount == 0.0
    ensures LineQuantity(lines, sku) == 0.0
  {
    if lines != [] {
      EmptyLines(lines[1..], sku);
    }
  }

  lemma {:induction false} FirstIsAll(lines: seq<ReceiptPostedLine>, sku: string)
    requires RepeatsAreEmpty(lines)
    ensures FirstQuantity(lines, sku) == LineQuantity(lines, sku)
  {
    if lines != [] {
      if lines[0].sku == sku {
        EmptyLines(lines[1..], sku);
      } else {
        FirstIsAll(lines[1..], sku);
      }
    }
  }

  /** A later non-empty line of the same SKU is part of the whole but not of the first. */
  lemma {:induction false} RepeatIsLost(lines: seq<ReceiptPostedLine>, i: nat, j: nat)
    requires NonNegativeLines(lines) && i < j < |lines|
    requires lines[i].sku == lines[j].sku && lines[j].quantity.amount != 0.0
    ensures FirstQuantity(lines, lines[j].sku) < LineQuantity(lines, lines[j].sku)
  {
    var sku := lines[j].sku;
    assert lines[1..][j - 1] == lines[j];
    if lines[0].sku == sku {
      LineQuantitySign(lines[1..], sku);
      assert lines[j] in lines[1..] && lines[j] in lines;
    } else {
      RepeatIsLost(lines[1..], i - 1, j - 1);
    }
  }

  /**
   A complete delivery of a fresh receipt credits every SKU with all its lines exactly when no line
   repeats the SKU of an earlier one with a quantity: keys are per document and SKU, so the later
   line of a SKU is skipped as already processed.
   */
  lemma ReceiptCreditedInFull(sys: System, strategy: Strategy, e: ReceiptPosted)
    requires RunJobs(sys, strategy, ReceiptJobs(e)).error.None?
    requires NonNegativeLines(e.lines)
    requires forall sku :: ReceiptLineKey(e.receiptId, sku) !in sys.done
    ensures (forall sku :: RowTotal(RunJobs(sys, strategy, ReceiptJobs(e)).sys, StockKey(sku, e.branchId))
                        == RowTotal(sys, StockKey(sku, e.branchId)) + LineQuantity(e.lines, sku))
       <==> RepeatsAreEmpty(e.lines)
  {
    hide RowTotal, RunJobs;
    assert e.(lines := e.lines) == e;
    var after := RunJobs(sys, strategy, ReceiptJobs(e)).sys;
    forall sku
      ensures RowTotal(after, StockKey(sku, e.branchId))
              == RowTotal(sys, StockKey(sku, e.branchId)) + FirstQuantity(e.lines, sku)
    {
      ReceiptCredits(sys, strategy, e, e.lines, sku);
    }
    if RepeatsAreEmpty(e.lines) {
      forall sku ensures FirstQuantity(e.lines, sku) == LineQuantity(e.lines, sku) {
        FirstIsAll(e.lines, sku);
      }
    } else {
      var i, j :| 0 <= i < j < |e.lines| && e.lines[i].sku == e.lines[j].sku && e.lines[j].quantity.amount != 0.0;
      RepeatIsLost(e.lines, i, j);
      var key := StockKey(e.lines[j].sku, e.branchId);
      assert RowTotal(after, key) < RowTotal(sys, key) + LineQuantity(e.lines, e.lines[j].sku);
    }
  }

  // ---------------------------------------------------------------- which lines are applied

  /** The lines of a delivery that are applied and not skipped. */
  function AppliedLines(sys: System, strategy: Strategy, jobs: seq<LineJob>): nat
    decreases |jobs|
  {
    if jobs == [] then 0
    else
      match RunJob(sys, strategy, jobs[0])
      case Err(_) => 0
      case Ok(sys') => (if JobKey(jobs[0]) in sys.done then 0 else 1) + AppliedLines(sys', strategy, jobs[1..])
  }

  predicate DistinctKeys(jobs: seq<LineJob>) {
    forall i, j :: 0 <= i < j < |jobs| ==> JobKey(jobs[i]) != JobKey(jobs[j])
  }

  predicate NoneMarked(sys: System, jobs: seq<LineJob>) {
    forall job :: job in jobs ==> JobKey(job) !in sys.done
  }

  /**
   A delivery that does not throw applies every line of its document, a receipt or an adjustment, exactly
   when no line was applied before and no two lines have the same SKU.
   */
  lemma {:induction false} EveryLineApplied(sys: System, strategy: Strategy, jobs: seq<LineJob>)
    requires RunJobs(sys, strategy, jobs).error.None?
    ensures AppliedLines(sys, strategy, jobs) <= |jobs|
    ensures AppliedLines(sys, strategy, jobs) == |jobs| <==> NoneMarked(sys, jobs) && DistinctKeys(jobs)
    decreases |jobs|
  {
    if jobs != [] {
      var sys', rest := RunJob(sys, strategy, jobs[0]).value, jobs[1..];
      KeyGrows(sys, strategy, jobs[0]);
      hide RunJob, JobKey;
      EveryLineApplied(sys', strategy, rest);
      FirstIsFresh(sys, sys', jobs);
    }
  }

  lemma KeyGrows(sys: System, strategy: Strategy, job: LineJob)
    ensures RunJob(sys, strategy, job).Ok? ==> RunJob(sys, strategy, job).value.done == sys.done + {JobKey(job)}
  {
    hide JobResult;
  }

  lemma FirstIsFresh(sys: System, sys': System, jobs: seq<LineJob>)
    requires jobs != [] && sys'.done == sys.done + {JobKey(jobs[0])}
    ensures NoneMarked(sys, jobs) && DistinctKeys(jobs)
       <==> JobKey(jobs[0]) !in sys.done && NoneMarked(sys', jobs[1..]) && DistinctKeys(jobs[1..])
  {
    hide JobKey;
    assert jobs == [jobs[0]] + jobs[1..];
    assert forall i :: 0 < i < |jobs| ==> jobs[i] == jobs[1..][i - 1] && jobs[i] in jobs[1..];
  }

  // ---------------------------------------------------------------- what an adjustment moves

  /** What a delta moves: up by its amount, or down by it as far as the unexpired stock goes. */
  function Change(s: StockState, delta: SignedQuantity, at: int): real {
    if delta.amount >= 0.0 then delta.amount else -MinReal(-delta.amount, Unexpired(s, at))
  }

  lemma AdjustedChange(s: StockState, id: nat, delta: SignedQuantity, reason: string, strategy: Strategy, at: int)
    requires StateOk(s) && IdsBelow(s.batches, id) && Adjusted(s, id, delta, reason, strategy, at).Ok?
    ensures Total(Adjusted(s, id, delta, reason, strategy, at).value) == Total(s) + Change(s, delta, at)
  {
    StockRuns.AdjustLedger(StockRuns.Cell(s, id), strategy, delta, reason, at);
    StockEffects.UnexpiredBounds(s, at);
    hide Total, Unexpired, StateOk, Withdrawn;
  }

  function AdjustmentLines(e: AdjustmentApproved, lines: seq<DeltaLine>): seq<LineJob> {
    AdjustmentJobs(e.(lines := lines))
  }

  function FirstDelta(lines: seq<DeltaLine>, sku: string): Option<SignedQuantity> {
    if lines == [] then None else if lines[0].sku == sku then Some(lines[0].delta) else FirstDelta(lines[1..], sku)
  }

  /** What a whole adjustment moves in the stock of a SKU: its first delta, unless that was applied before. */
  function AdjustmentChange(sys: System, e: AdjustmentApproved, lines: seq<DeltaLine>, sku: string): real {
    match FirstDelta(lines, sku)
    case None => 0.0
    case Some(delta) =>
      if AdjustmentLineKey(e.adjustmentId, sku) in sys.done then 0.0
      else Change(Load(sys, StockKey(sku, e.branchId), delta.unit), delta, e.approvedAt)
  }

  lemma AdjustmentJobMoves(sys: System, strategy: Strategy, job: LineJob)
    requires SystemOk(sys) && job.AdjustmentJob? && RunJob(sys, strategy, job).Ok?
    ensures var sys' := RunJob(sys, strategy, job).value;
            && SystemOk(sys') && sys'.done == sys.done + {JobKey(job)}
            && RowTotal(sys', JobStock(job)) == RowTotal(sys, JobStock(job))
                 + (if JobKey(job) in sys.done then 0.0
                    else Change(Load(sys, JobStock(job), JobUnit(job)), job.delta.delta, job.at))
  {
    RunJobOk(sys, strategy, job);
    if JobKey(job) in sys.done {
      assert sys.done + {JobKey(job)} == sys.done;
    } else {
      LoadOk(sys, JobStock(job), JobUnit(job));
      EmptyTotal(JobStock(job), JobUnit(job));
      var s := Load(sys, JobStock(job), JobUnit(job));
      AdjustedChange(s, sys.nextId, job.delta.delta, job.reason, strategy, job.at);
      hide Adjusted, Total, StateOk, SystemOk, Change, IdsBelow;
    }
  }

  /** Handling a line leaves every other stock alone. */
  lemma JobLeaves(sys: System, strategy: Strategy, job: LineJob, k: StockKey, unit: Unit)
    requires RunJob(sys, strategy, job).Ok? && k != JobStock(job)
    ensures var sys' := RunJob(sys, strategy, job).value;
            RowTotal(sys', k) == RowTotal(sys, k) && Load(sys', k, unit) == Load(sys, k, unit)
  {
    hide JobResult, Total;
  }

  /** A delivery that does not throw moves each SKU by its first delta, unless that was done before. */
  lemma {:induction false} AdjustmentMoves(
    sys: System, strategy: Strategy, e: AdjustmentApproved, lines: seq<DeltaLine>, sku: string)
    requires SystemOk(sys) && RunJobs(sys, strategy, AdjustmentLines(e, lines)).error.None?
    ensures RowTotal(RunJobs(sys, strategy, AdjustmentLines(e, lines)).sys, StockKey(sku, e.branchId))
         == RowTotal(sys, StockKey(sku, e.branchId)) + AdjustmentChange(sys, e, lines, sku)
    decreases |lines|
  {
    hide RowTotal, RunJob, SystemOk, Change, Load;
    if lines != [] {
      var jobs := AdjustmentLines(e, lines);
      var sys', key := RunJob(sys, strategy, jobs[0]).value, StockKey(sku, e.branchId);
      assert jobs[1..] == AdjustmentLines(e, lines[1..]);
      AdjustmentJobMoves(sys, strategy, jobs[0]);
      AdjustmentMoves(sys', strategy, e, lines[1..], sku);
      var later := FirstDelta(lines[1..], sku);
      if lines[0].sku != sku {
        JobLeaves(sys, strategy, jobs[0], key, if later.Some? then later.value.unit else G);
      }
    }
  }

  /** The deltas of a SKU added up, and those after the first of them. */
  function DeltaSum(lines: seq<DeltaLine>, sku: string): real {
    if lines == [] then 0.0
    else (if lines[0].sku == sku then lines[0].delta.amount else 0.0) + DeltaSum(lines[1..], sku)
  }

  function LaterSum(lines: seq<DeltaLine>, sku: string): real {
    if lines == [] then 0.0
    else if lines[0].sku == sku then DeltaSum(lines[1..], sku)
    else LaterSum(lines[1..], sku)
  }

  lemma {:induction false} SumIsFirstAndLater(lines: seq<DeltaLine>, sku: string)
    ensures DeltaSum(lines, sku)
         == (match FirstDelta(lines, sku) case None => 0.0 case Some(d) => d.amount) + LaterSum(lines, sku)
  {
    if lines != [] {
      SumIsFirstAndLater(lines[1..], sku);
    }
  }

  /** By how much the unexpired stock falls short of a SKU's first delta. */
  function Shortfall(sys: System, e: AdjustmentApproved, sku: string): real {
    match FirstDelta(e.lines, sku)
    case None => 0.0
    case Some(delta) =>
      MaxReal(0.0, -delta.amount - Unexpired(Load(sys, StockKey(sku, e.branchId), delta.unit), e.approvedAt))
  }

  /**
   A complete delivery of a fresh adjustment moves every SKU by all its deltas exactly when, for every SKU,
   the deltas after its first come to what the first falls short by: later deltas of a SKU are skipped.
   */
  lemma AdjustmentAppliedInFull(sys: System, strategy: Strategy, e: AdjustmentApproved)
    requires SystemOk(sys) && RunJobs(sys, strategy, AdjustmentJobs(e)).error.None?
    requires forall sku :: AdjustmentLineKey(e.adjustmentId, sku) !in sys.done
    ensures (forall sku :: RowTotal(RunJobs(sys, strategy, AdjustmentJobs(e)).sys, StockKey(sku, e.branchId))
                        == RowTotal(sys, StockKey(sku, e.branchId)) + DeltaSum(e.lines, sku))
       <==> (forall sku :: LaterSum(e.lines, sku) == Shortfall(sys, e, sku))
  {
    assert e.(lines := e.lines) == e;
    var after := RunJobs(sys, strategy, AdjustmentJobs(e)).sys;
    forall sku
      ensures RowTotal(after, StockKey(sku, e.branchId))
              == RowTotal(sys, StockKey(sku, e.branchId)) + DeltaSum(e.lines, sku)
         <==> LaterSum(e.lines, sku) == Shortfall(sys, e, sku)
    {
      AdjustmentMoves(sys, strategy, e, e.lines, sku);
      SumIsFirstAndLater(e.lines, sku);
      StoredBounds(sys, e, sku);
    }
  }

  lemma StoredBounds(sys: System, e: AdjustmentApproved, sku: string)
    requires SystemOk(sys)
    ensures forall unit :: Unexpired(Load(sys, StockKey(sku, e.branchId), unit), e.approvedAt) >= 0.0
  {
    hide Unexpired;
    forall unit ensures Unexpired(Load(sys, StockKey(sku, e.branchId), unit), e.approvedAt) >= 0.0 {
      LoadOk(sys, StockKey(sku, e.branchId), unit);
      StockEffects.UnexpiredBounds(Load(sys, StockKey(sku, e.branchId), unit), e.approvedAt);
    }
  }
}
