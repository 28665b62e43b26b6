/** From a posted stock-taking to the stocks it corrects. */
module StockTakingLaws {
  import opened Basics
  import opened StockTypes
  import opened BatchSelection
  import opened StockSpec
  import opened Documents
  import opened Inventory
  import StockEffects
  import StockRuns

  function KeyOf(branch: string, sku: string): StockKey {
    StockKey(sku, branch)
  }

  /** What is on hand but expired at an instant; the selector will not touch it. */
  function ExpiredAt(s: StockState, at: int): real {
    Total(s) - Unexpired(s, at)
  }

  // ---------------------------------------------------------------- one delta

  lemma TakenDown(s: StockState, q: real, strategy: Strategy, at: int)
    requires StateOk(s) && 0.0 <= q <= Total(s)
    ensures Consumed(s, Quantity(q, s.baseUnit), strategy, at).Ok?
    ensures Total(Consumed(s, Quantity(q, s.baseUnit), strategy, at).value) == Total(s) - MinReal(q, Unexpired(s, at))
  {
    hide Total, Unexpired, StateOk, Withdrawn;
    StockEffects.WithdrawnTotal(s, q, strategy, at);
  }

  /**
   An adjustment by actual - on hand leaves the larger of the actual count and the expired stock, and never throws.
   */
  lemma AdjustedToCount(s: StockState, id: nat, delta: SignedQuantity, actual: real, reason: string, strategy: Strategy,
                        at: int)
    requires StateOk(s) && actual >= 0.0 && delta.unit == s.baseUnit && delta.amount == actual - Total(s)
    ensures Adjusted(s, id, delta, reason, strategy, at).Ok?
    ensures Total(Adjusted(s, id, delta, reason, strategy, at).value) == MaxReal(actual, ExpiredAt(s, at))
  {
    hide Total, Unexpired, StateOk, Consumed, AdjustmentBatch;
    StockEffects.UnexpiredBounds(s, at);
    if delta.amount > 0.0 {
      AdjustmentAmount(s, id, delta.amount, reason, at);
      StockRuns.AppendTotal(s, AdjustmentBatch(s, id, delta.amount, reason, at));
    } else if delta.amount < 0.0 {
      TakenDown(s, -delta.amount, strategy, at);
    }
  }

  lemma AdjustedUnit(s: StockState, id: nat, delta: SignedQuantity, reason: string, strategy: Strategy, at: int)
    ensures Adjusted(s, id, delta, reason, strategy, at).Ok? ==>
              Adjusted(s, id, delta, reason, strategy, at).value.baseUnit == s.baseUnit == delta.unit
  {
    hide Total;
  }

  lemma AdjustmentAmount(s: StockState, id: nat, delta: real, reason: string, at: int)
    ensures Amount(AdjustmentBatch(s, id, delta, reason, at)) == delta
  {
  }

  // ---------------------------------------------------------------- all deltas

  predicate DistinctSkus(ds: seq<DeltaLine>) {
    forall i, j :: 0 <= i < j < |ds| ==> ds[i].sku != ds[j].sku
  }

  /** What the adjustment saga is handed: the deltas as jobs of one adjustment. */
  function JobsOf(e: AdjustmentApproved, ds: seq<DeltaLine>): seq<LineJob> {
    AdjustmentJobs(e.(lines := ds))
  }

  /** The delta moves the stock that is stored now to the count, and has not been applied yet. */
  predicate Aims(sys: System, e: AdjustmentApproved, d: DeltaLine, actual: real) {
    var s := Load(sys, KeyOf(e.branchId, d.sku), d.delta.unit);
    && actual >= 0.0 && d.delta.unit == s.baseUnit && d.delta.amount == actual - Total(s)
    && AdjustmentLineKey(e.adjustmentId, d.sku) !in sys.done
  }

  /** A stock is stored in both systems alike, or in neither. */
  predicate SameRow(before: System, after: System, k: StockKey) {
    (k in after.rows <==> k in before.rows) && (k in before.rows ==> after.rows[k] == before.rows[k])
  }

  /** A key that none of the deltas is for. */
  predicate Unnamed(ds: seq<DeltaLine>, branch: string, k: StockKey) {
    forall d :: d in ds ==> k != KeyOf(branch, d.sku)
  }

  /** Applying one delta: its own stock reaches the count, nothing else is touched. */
  lemma DeltaApplied(sys: System, strategy: Strategy, e: AdjustmentApproved, d: DeltaLine, actual: real)
    requires SystemOk(sys) && Aims(sys, e, d, actual)
    ensures var key := KeyOf(e.branchId, d.sku);
            var r := RunJob(sys, strategy, AdjustmentJob(e.adjustmentId, e.branchId, e.reason, d, e.approvedAt));
            && r.Ok? && SystemOk(r.value)
            && key in r.value.rows
            && Total(r.value.rows[key]) == MaxReal(actual, ExpiredAt(Load(sys, key, d.delta.unit), e.approvedAt))
            && r.value.rows[key].baseUnit == d.delta.unit
            && r.value.done == sys.done + {AdjustmentLineKey(e.adjustmentId, d.sku)}
            && (forall k :: k != key ==> SameRow(sys, r.value, k))
  {
    var key := KeyOf(e.branchId, d.sku);
    var job := AdjustmentJob(e.adjustmentId, e.branchId, e.reason, d, e.approvedAt);
    LoadOk(sys, key, d.delta.unit);
    AdjustedToCount(Load(sys, key, d.delta.unit), sys.nextId, d.delta, actual, e.reason, strategy, e.approvedAt);
    AdjustedUnit(Load(sys, key, d.delta.unit), sys.nextId, d.delta, e.reason, strategy, e.approvedAt);
    RunJobOk(sys, strategy, job);
    hide Adjusted, Total, Unexpired, StateOk, SystemOk, Load;
  }

  /** A delta of another SKU still aims at its count afterwards, and its expired stock is the same. */
  lemma StillAims(sys: System, sys': System, e: AdjustmentApproved, d: DeltaLine, other: DeltaLine, actual: real)
    requires Aims(sys, e, other, actual) && other.sku != d.sku
    requires sys'.done == sys.done + {AdjustmentLineKey(e.adjustmentId, d.sku)}
    requires forall k :: k != KeyOf(e.branchId, d.sku) ==> SameRow(sys, sys', k)
    ensures Aims(sys', e, other, actual)
    ensures Load(sys', KeyOf(e.branchId, other.sku), other.delta.unit)
            == Load(sys, KeyOf(e.branchId, other.sku), other.delta.unit)
  {
    hide Total;
    assert SameRow(sys, sys', KeyOf(e.branchId, other.sku));
  }

  predicate AllAim(sys: System, e: AdjustmentApproved, ds: seq<DeltaLine>, counts: seq<real>)
    requires |ds| == |counts|
  {
    forall i :: 0 <= i < |ds| ==> Aims(sys, e, ds[i], counts[i])
  }

  /**
   Handling all the deltas never throws, takes each of their stocks to the larger of its count and its
   expired stock, and leaves every other stock alone.
   */
  lemma {:induction false} DeltasApplied(sys: System, strategy: Strategy, e: AdjustmentApproved, ds: seq<DeltaLine>,
                                         counts: seq<real>)
    requires SystemOk(sys) && |ds| == |counts| && DistinctSkus(ds) && AllAim(sys, e, ds, counts)
    ensures var h := RunJobs(sys, strategy, JobsOf(e, ds));
            && h.error.None?
            && (forall i :: 0 <= i < |ds| ==>
                  var key := KeyOf(e.branchId, ds[i].sku);
                  key in h.sys.rows && h.sys.rows[key].baseUnit == ds[i].delta.unit
                  && Total(h.sys.rows[key])
                     == MaxReal(counts[i], ExpiredAt(Load(sys, key, ds[i].delta.unit), e.approvedAt)))
            && (forall k :: Unnamed(ds, e.branchId, k) ==> SameRow(sys, h.sys, k))
    decreases |ds|
  {
    hide Total, Unexpired, RunJob, SystemOk, Aims, Load;
    if ds != [] {
      var jobs := JobsOf(e, ds);
      assert jobs[1..] == JobsOf(e, ds[1..]);
      DeltaApplied(sys, strategy, e, ds[0], counts[0]);
      var sys' := RunJob(sys, strategy, jobs[0]).value;
      forall i | 1 <= i < |ds|
        ensures Aims(sys', e, ds[i], counts[i])
        ensures Load(sys', KeyOf(e.branchId, ds[i].sku), ds[i].delta.unit)
                == Load(sys, KeyOf(e.branchId, ds[i].sku), ds[i].delta.unit)
      {
        StillAims(sys, sys', e, ds[0], ds[i], counts[i]);
      }
      DeltasApplied(sys', strategy, e, ds[1..], counts[1..]);
      var h := RunJobs(sys', strategy, JobsOf(e, ds[1..]));
      assert RunJobs(sys, strategy, jobs) == h;
      assert Unnamed(ds[1..], e.branchId, KeyOf(e.branchId, ds[0].sku));
      forall k | Unnamed(ds, e.branchId, k) ensures SameRow(sys, h.sys, k) {
        assert ds[0] in ds && Unnamed(ds[1..], e.branchId, k);
        assert SameRow(sys, sys', k) && SameRow(sys', h.sys, k);
      }
    }
  }

  // ---------------------------------------------------------------- from the counted lines

  predicate DistinctLines(lines: seq<CountLine>) {
    forall i, j :: 0 <= i < j < |lines| ==> lines[i].sku != lines[j].sku
  }

  /** The counts that go with the deltas. */
  function Counts(lines: seq<CountLine>): seq<real> {
    if lines == [] then []
    else
      var front := Counts(lines[..|lines| - 1]);
      var line := lines[|lines| - 1];
      match ComputeDelta(line)
      case None => front
      case Some(delta) => if delta.amount == 0.0 then front else front + [line.actual.value.amount]
  }

  /** A delta and a count that were computed from a measured line. */
  predicate Measures(line: CountLine, d: DeltaLine, count: real) {
    && line.actual.Some? && line.sku == d.sku && line.actual.value.amount == count
    && d.delta == SignedQuantity(count - line.expected.amount, line.expected.unit) && d.delta.amount != 0.0
  }

  ghost predicate FromSome(lines: seq<CountLine>, d: DeltaLine, c: real) {
    exists line :: line in lines && Measures(line, d, c)
  }

  /** Every delta comes from a line. */
  ghost predicate AllMeasured(lines: seq<CountLine>, ds: seq<DeltaLine>, cs: seq<real>) {
    |ds| == |cs| && forall i :: 0 <= i < |ds| ==> FromSome(lines, ds[i], cs[i])
  }

  lemma FromMore(lines: seq<CountLine>, last: CountLine, d: DeltaLine, c: real)
    requires FromSome(lines, d, c)
    ensures FromSome(lines + [last], d, c)
  {
    var line :| line in lines && Measures(line, d, c);
    assert line in lines + [last];
  }

  predicate IsOff(line: CountLine) {
    line.actual.Some? && line.actual.value.amount != line.expected.amount
  }

  /** A measured line that is off has its delta. */
  ghost predicate HasDelta(line: CountLine, ds: seq<DeltaLine>, cs: seq<real>) {
    |ds| == |cs| && exists i :: 0 <= i < |ds| && Measures(line, ds[i], cs[i])
  }

  lemma MeasuredSkus(lines: seq<CountLine>, last: CountLine, ds: seq<DeltaLine>, cs: seq<real>, d: DeltaLine)
    requires DistinctLines(lines + [last]) && AllMeasured(lines, ds, cs) && DistinctSkus(ds) && d.sku == last.sku
    ensures DistinctSkus(ds + [d])
  {
    forall i | 0 <= i < |ds| ensures ds[i].sku != last.sku {
      assert FromSome(lines, ds[i], cs[i]);
      var line :| line in lines && Measures(line, ds[i], cs[i]);
      var j :| 0 <= j < |lines| && lines[j] == line;
      assert (lines + [last])[j].sku != (lines + [last])[|lines|].sku;
    }
  }

  lemma MeasuredGrows(lines: seq<CountLine>, last: CountLine, ds: seq<DeltaLine>, cs: seq<real>, d: DeltaLine, c: real)
    requires AllMeasured(lines, ds, cs) && Measures(last, d, c)
    requires forall line :: line in lines && IsOff(line) ==> HasDelta(line, ds, cs)
    ensures AllMeasured(lines + [last], ds + [d], cs + [c])
    ensures forall line :: line in lines + [last] && IsOff(line) ==> HasDelta(line, ds + [d], cs + [c])
  {
    var es, fs := ds + [d], cs + [c];
    hide Measures, IsOff;
    forall i | 0 <= i < |es| ensures FromSome(lines + [last], es[i], fs[i]) {
      if i < |ds| {
        FromMore(lines, last, ds[i], cs[i]);
      } else {
        assert last in lines + [last];
      }
    }
    forall line | line in lines + [last] && IsOff(line) ensures HasDelta(line, es, fs) {
      if line in lines {
        DeltaKept(line, ds, cs, d, c);
      } else {
        assert es[|ds|] == d && fs[|ds|] == c && line == last;
      }
    }
  }

  lemma DeltaKept(line: CountLine, ds: seq<DeltaLine>, cs: seq<real>, d: DeltaLine, c: real)
    requires HasDelta(line, ds, cs)
    ensures HasDelta(line, ds + [d], cs + [c])
  {
    var i :| 0 <= i < |ds| && Measures(line, ds[i], cs[i]);
    assert (ds + [d])[i] == ds[i] && (cs + [c])[i] == cs[i];
  }

  lemma MeasuredSame(lines: seq<CountLine>, last: CountLine, ds: seq<DeltaLine>, cs: seq<real>)
    requires AllMeasured(lines, ds, cs) && !IsOff(last)
    requires forall line :: line in lines && IsOff(line) ==> HasDelta(line, ds, cs)
    ensures AllMeasured(lines + [last], ds, cs)
    ensures forall line :: line in lines + [last] && IsOff(line) ==> HasDelta(line, ds, cs)
  {
    forall i | 0 <= i < |ds| ensures FromSome(lines + [last], ds[i], cs[i]) {
      FromMore(lines, last, ds[i], cs[i]);
    }
  }

  /** Every delta comes from a line, every measured line that is off has its delta, and no SKU has two. */
  lemma {:induction false} DeltasMeasure(lines: seq<CountLine>)
    requires DistinctLines(lines)
    ensures AllMeasured(lines, Deltas(lines), Counts(lines)) && DistinctSkus(Deltas(lines))
    ensures forall line :: line in lines && IsOff(line) ==> HasDelta(line, Deltas(lines), Counts(lines))
  {
    if lines != [] {
      var front, last := lines[..|lines| - 1], lines[|lines| - 1];
      assert lines == front + [last];
      DeltasMeasure(front);
      var ds, cs := Deltas(front), Counts(front);
      hide AllMeasured, HasDelta, DistinctSkus, DistinctLines;
      if IsOff(last) {
        var d, c := DeltaLine(last.sku, ComputeDelta(last).value), last.actual.value.amount;
        assert Deltas(lines) == ds + [d] && Counts(lines) == cs + [c];
        MeasuredSkus(front, last, ds, cs, d);
        MeasuredGrows(front, last, ds, cs, d, c);
      } else {
        MeasuredSame(front, last, ds, cs);
      }
    }
  }

  /** The stock of a counted line, in the line's own unit if it is not stored yet. */
  function StockFor(sys: System, branch: string, line: CountLine): StockState {
    Load(sys, KeyOf(branch, line.sku), line.expected.unit)
  }

  /** The expectation of a measured line is what is on hand, in the stock's unit. */
  predicate ExpectsCurrent(sys: System, branch: string, line: CountLine) {
    line.actual.Some? ==>
      && line.actual.value.amount >= 0.0
      && StockFor(sys, branch, line).baseUnit == line.expected.unit
      && Total(StockFor(sys, branch, line)) == line.expected.amount
  }

  lemma LinesAim(sys: System, e: AdjustmentApproved, lines: seq<CountLine>, ds: seq<DeltaLine>, cs: seq<real>)
    requires AllMeasured(lines, ds, cs) && forall line :: line in lines ==> ExpectsCurrent(sys, e.branchId, line)
    requires forall sku :: AdjustmentLineKey(e.adjustmentId, sku) !in sys.done
    ensures AllAim(sys, e, ds, cs)
  {
    hide Total;
    forall i | 0 <= i < |ds| ensures Aims(sys, e, ds[i], cs[i]) {
      assert FromSome(lines, ds[i], cs[i]);
      var line :| line in lines && Measures(line, ds[i], cs[i]);
      assert ExpectsCurrent(sys, e.branchId, line);
    }
  }

  /** No measured line is for this stock. */
  predicate Unmeasured(lines: seq<CountLine>, branch: string, k: StockKey) {
    forall line :: line in lines && line.actual.Some? ==> k != KeyOf(branch, line.sku)
  }

  lemma UnmeasuredUnnamed(lines: seq<CountLine>, ds: seq<DeltaLine>, cs: seq<real>, branch: string, k: StockKey)
    requires AllMeasured(lines, ds, cs) && Unmeasured(lines, branch, k)
    ensures Unnamed(ds, branch, k)
  {
    forall d | d in ds ensures k != KeyOf(branch, d.sku) {
      var i :| 0 <= i < |ds| && ds[i] == d;
      assert FromSome(lines, ds[i], cs[i]);
      var line :| line in lines && Measures(line, ds[i], cs[i]);
    }
  }

  /** What handling the deltas has done, for each delta and for every stock without one. */
  ghost predicate Corrected(sys: System, after: System, e: AdjustmentApproved, ds: seq<DeltaLine>, cs: seq<real>) {
    && |ds| == |cs|
    && (forall i :: 0 <= i < |ds| ==>
          var key := KeyOf(e.branchId, ds[i].sku);
          key in after.rows && after.rows[key].baseUnit == ds[i].delta.unit
          && Total(after.rows[key]) == MaxReal(cs[i], ExpiredAt(Load(sys, key, ds[i].delta.unit), e.approvedAt)))
    && (forall k :: Unnamed(ds, e.branchId, k) ==> SameRow(sys, after, k))
  }

  /** One measured line: either its delta took it to the count, or it was right and nothing touched it. */
  lemma LineReached(sys: System, after: System, e: AdjustmentApproved, lines: seq<CountLine>, line: CountLine,
                    ds: seq<DeltaLine>, cs: seq<real>)
    requires SystemOk(sys) && line in lines && line.actual.Some? && ExpectsCurrent(sys, e.branchId, line)
    requires DistinctLines(lines) && AllMeasured(lines, ds, cs) && (IsOff(line) ==> HasDelta(line, ds, cs))
    requires Corrected(sys, after, e, ds, cs)
    ensures Total(StockFor(after, e.branchId, line))
         == MaxReal(line.actual.value.amount, ExpiredAt(StockFor(sys, e.branchId, line), e.approvedAt))
    ensures StockFor(after, e.branchId, line).baseUnit == line.expected.unit
  {
    hide Total, Unexpired, SystemOk, StateOk;
    var key := KeyOf(e.branchId, line.sku);
    if IsOff(line) {
      var i :| 0 <= i < |ds| && Measures(line, ds[i], cs[i]);
      assert ds[i].sku == line.sku && ds[i].delta.unit == line.expected.unit;
    } else {
      assert Unnamed(ds, e.branchId, key) by {
        forall d | d in ds ensures key != KeyOf(e.branchId, d.sku) {
          var i :| 0 <= i < |ds| && ds[i] == d;
          assert FromSome(lines, ds[i], cs[i]);
          var l :| l in lines && Measures(l, ds[i], cs[i]);
          if l.sku == line.sku {
            SameLine(lines, l, line);
          }
        }
      }
      LoadOk(sys, key, line.expected.unit);
      StockEffects.UnexpiredBounds(StockFor(sys, e.branchId, line), e.approvedAt);
    }
  }

  /**
   Stock-taking reaches the count. When the expectations are what is on hand and the SKUs are
   distinct, handling the adjustment made from the deltas never throws; it leaves each measured stock
   at the larger of its count and its expired stock, so at the count exactly when the count is no less
   than what has expired; and it leaves every stock that was not measured alone.
   */
  lemma StockTakingReachesCount(sys: System, strategy: Strategy, e: AdjustmentApproved, lines: seq<CountLine>)
    requires SystemOk(sys) && DistinctLines(lines) && e.lines == Deltas(lines)
    requires forall line :: line in lines ==> ExpectsCurrent(sys, e.branchId, line)
    requires forall sku :: AdjustmentLineKey(e.adjustmentId, sku) !in sys.done
    ensures var h := RunJobs(sys, strategy, AdjustmentJobs(e));
            && h.error.None?
            && (forall line :: line in lines && line.actual.Some? ==>
                  var counted := line.actual.value.amount;
                  var expired := ExpiredAt(StockFor(sys, e.branchId, line), e.approvedAt);
                  && StockFor(h.sys, e.branchId, line).baseUnit == line.expected.unit
                  && Total(StockFor(h.sys, e.branchId, line)) == MaxReal(counted, expired)
                  && (Total(StockFor(h.sys, e.branchId, line)) == counted <==> counted >= expired))
            && (forall k :: Unmeasured(lines, e.branchId, k) ==> SameRow(sys, h.sys, k))
  {
    var ds, cs := Deltas(lines), Counts(lines);
    DeltasMeasure(lines);
    LinesAim(sys, e, lines, ds, cs);
    hide Total, ExpiredAt, RunJobs, SystemOk, Deltas, Counts, AllAim, AllMeasured, StockFor, ExpectsCurrent,
         HasDelta, DistinctLines, DistinctSkus, Unnamed, Unmeasured, SameRow;
    assert e.(lines := ds) == e;
    DeltasApplied(sys, strategy, e, ds, cs);
    var h := RunJobs(sys, strategy, AdjustmentJobs(e));
    assert Corrected(sys, h.sys, e, ds, cs);
    hide Corrected;
    forall line | line in lines && line.actual.Some?
      ensures Total(StockFor(h.sys, e.branchId, line))
           == MaxReal(line.actual.value.amount, ExpiredAt(StockFor(sys, e.branchId, line), e.approvedAt))
      ensures StockFor(h.sys, e.branchId, line).baseUnit == line.expected.unit
    {
      LineReached(sys, h.sys, e, lines, line, ds, cs);
    }
    forall k | Unmeasured(lines, e.branchId, k) ensures SameRow(sys, h.sys, k) {
      UnmeasuredUnnamed(lines, ds, cs, e.branchId, k);
      CorrectedElsewhere(sys, h.sys, e, ds, cs, k);
    }
  }

  lemma CorrectedElsewhere(sys: System, after: System, e: AdjustmentApproved, ds: seq<DeltaLine>, cs: seq<real>,
                           k: StockKey)
    requires Corrected(sys, after, e, ds, cs) && Unnamed(ds, e.branchId, k)
    ensures SameRow(sys, after, k)
  {
  }

  lemma SameLine(lines: seq<CountLine>, a: CountLine, b: CountLine)
    requires DistinctLines(lines) && a in lines && b in lines && a.sku == b.sku
    ensures a == b
  {
  }

  /**
   The stock a measured line ends with is the recorded quantity, unit included, exactly when the count was
   recorded in the expected unit and is no less than what has expired: a count in another unit is taken as
   an amount in the expected one.
   */
  lemma CountInUnit(sys: System, strategy: Strategy, e: AdjustmentApproved, lines: seq<CountLine>, line: CountLine)
    requires SystemOk(sys) && DistinctLines(lines) && e.lines == Deltas(lines)
    requires forall l :: l in lines ==> ExpectsCurrent(sys, e.branchId, l)
    requires forall sku :: AdjustmentLineKey(e.adjustmentId, sku) !in sys.done
    requires line in lines && line.actual.Some?
    ensures var s := StockFor(RunJobs(sys, strategy, AdjustmentJobs(e)).sys, e.branchId, line);
            var expired := ExpiredAt(StockFor(sys, e.branchId, line), e.approvedAt);
            Quantity(Total(s), s.baseUnit) == line.actual.value <==>
              line.actual.value.unit == line.expected.unit && line.actual.value.amount >= expired
  {
    StockTakingReachesCount(sys, strategy, e, lines);
    hide Total, ExpiredAt, RunJobs, SystemOk, Deltas, StockFor, ExpectsCurrent, DistinctLines;
  }
}
