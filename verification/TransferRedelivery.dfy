/**
 A transfer that stops before its key is marked is handled again from its first line. What the next
 delivery then moves, which lines refuse it, and when the two together have the effect of one.
 */
module TransferRedelivery {
  import opened BatchSelection
  import opened StockSpec
  import opened StockEffects
  import opened Documents
  import opened Inventory
  import Basics
  import Deliveries
  import Sagas
  import TransferLaws

  function FromKey(e: TransferPosted, line: TransferLine): StockKey {
    StockKey(line.sku, e.fromBranchId)
  }

  function ToKey(e: TransferPosted, line: TransferLine): StockKey {
    StockKey(line.sku, e.toBranchId)
  }

  function SourceOf(sys: System, e: TransferPosted, line: TransferLine): StockState {
    Load(sys, FromKey(e, line), line.quantity.unit)
  }

  function TargetOf(sys: System, e: TransferPosted, line: TransferLine): StockState {
    Load(sys, ToKey(e, line), line.quantity.unit)
  }

  /** What the line would move now. */
  function Sends(sys: System, e: TransferPosted, line: TransferLine): real {
    Basics.MinReal(line.quantity.amount, Unexpired(SourceOf(sys, e, line), e.postedAt))
  }

  predicate Throws(sys: System, strategy: Strategy, e: TransferPosted, line: TransferLine) {
    MoveLine(sys, strategy, e, line).error.Some?
  }

  /** A line is refused for its unit, for the total of its source, or for the unit of a target it would reach. */
  lemma ThrowsWhen(sys: System, strategy: Strategy, e: TransferPosted, line: TransferLine)
    requires SystemOk(sys) && line.quantity.amount >= 0.0
    ensures Throws(sys, strategy, e, line)
       <==> || line.quantity.unit != SourceOf(sys, e, line).baseUnit
            || line.quantity.amount > Total(SourceOf(sys, e, line))
            || (TargetOf(sys, e, line).baseUnit != line.quantity.unit && Sends(sys, e, line) > 0.0)
  {
    var source, target := SourceOf(sys, e, line), TargetOf(sys, e, line);
    MoveLineCases(sys, strategy, e, line, source, target);
    LoadOk(sys, FromKey(e, line), line.quantity.unit);
    UnexpiredBounds(source, e.postedAt);
    NothingSent(source, line.quantity.amount, strategy, e.postedAt);
    Sagas.OutgoingSound(source, line.quantity.amount, strategy, e.postedAt);
    hide MoveLine, Outgoing, Total, Unexpired, Load, StateOk, Withdrawn, TransferredIn;
    var details := Outgoing(source, line.quantity.amount, strategy, e.postedAt);
    assert details != [] ==> details[0] in details;
  }

  /** The stocks of a SKU are the same in both systems. */
  ghost predicate SameStocks(a: System, b: System, sku: string) {
    forall k: StockKey :: k.sku == sku ==> (k in a.rows <==> k in b.rows) && (k in a.rows ==> a.rows[k] == b.rows[k])
  }

  lemma SameStocksAct(a: System, b: System, strategy: Strategy, e: TransferPosted, line: TransferLine)
    requires SameStocks(a, b, line.sku)
    ensures SourceOf(a, e, line) == SourceOf(b, e, line) && TargetOf(a, e, line) == TargetOf(b, e, line)
    ensures Throws(a, strategy, e, line) <==> Throws(b, strategy, e, line)
    ensures forall k: StockKey :: k.sku == line.sku ==> Deliveries.RowTotal(a, k) == Deliveries.RowTotal(b, k)
  {
    hide Outgoing, WithdrawError, Withdrawn, TransferredIn, AllInUnit, Total;
  }

  /** One handling of the line separates the two systems, as far as its SKU goes. */
  ghost predicate MovedOnce(before: System, after: System, e: TransferPosted, line: TransferLine) {
    var s, s', m := SourceOf(before, e, line), SourceOf(after, e, line), Sends(before, e, line);
    && Total(s') == Total(s) - m
    && Unexpired(s', e.postedAt) == Unexpired(s, e.postedAt) - m
    && s'.baseUnit == s.baseUnit && TargetOf(after, e, line).baseUnit == TargetOf(before, e, line).baseUnit
    && Deliveries.RowTotal(after, FromKey(e, line)) == Deliveries.RowTotal(before, FromKey(e, line)) - m
    && Deliveries.RowTotal(after, ToKey(e, line)) == Deliveries.RowTotal(before, ToKey(e, line)) + m
    && forall k: StockKey :: k.sku == line.sku && k != FromKey(e, line) && k != ToKey(e, line) ==>
         Deliveries.RowTotal(after, k) == Deliveries.RowTotal(before, k)
  }

  lemma LineHandled(sys: System, strategy: Strategy, e: TransferPosted, line: TransferLine)
    requires SystemOk(sys) && e.fromBranchId != e.toBranchId && line.quantity.amount >= 0.0
    requires !Throws(sys, strategy, e, line)
    ensures var after := MoveLine(sys, strategy, e, line).sys;
            && MovedOnce(sys, after, e, line)
            && forall sku :: sku != line.sku ==> SameStocks(sys, after, sku)
  {
    var source, target := SourceOf(sys, e, line), TargetOf(sys, e, line);
    var after := MoveLine(sys, strategy, e, line).sys;
    var amount, at := line.quantity.amount, e.postedAt;
    TransferLaws.MoveLineMoves(sys, strategy, e, line);
    MoveLineCases(sys, strategy, e, line, source, target);
    LoadOk(sys, FromKey(e, line), line.quantity.unit);
    UnexpiredAfter(source, amount, strategy, at);
    WithdrawnTotal(source, amount, strategy, at);
    Sagas.WithdrawnIdentity(source, amount, strategy, at);
    hide MoveLine, Outgoing, Total, Unexpired, StateOk, Withdrawn, AllInUnit, WithdrawError, Deliveries.RowTotal;
    assert after.rows[FromKey(e, line)] == Withdrawn(source, amount, strategy, at);
    assert after.rows[ToKey(e, line)].baseUnit == target.baseUnit;
    Elsewhere(sys, after, FromKey(e, line), ToKey(e, line));
  }

  lemma Elsewhere(a: System, b: System, x: StockKey, y: StockKey)
    requires a.rows - {x, y} == b.rows - {x, y}
    ensures forall k :: k != x && k != y ==>
              (k in a.rows <==> k in b.rows) && (k in a.rows ==> a.rows[k] == b.rows[k])
              && Deliveries.RowTotal(a, k) == Deliveries.RowTotal(b, k)
  {
    forall k | k != x && k != y
      ensures (k in a.rows <==> k in b.rows) && (k in a.rows ==> a.rows[k] == b.rows[k])
    {
      assert k in a.rows <==> k in a.rows - {x, y};
      assert k in b.rows <==> k in b.rows - {x, y};
      if k in a.rows {
        assert (a.rows - {x, y})[k] == (b.rows - {x, y})[k];
      }
    }
  }

  // ---------------------------------------------------------------- all lines of a delivery

  predicate DistinctLines(lines: seq<TransferLine>) {
    forall i, j :: 0 <= i < j < |lines| ==> lines[i].sku != lines[j].sku
  }

  predicate ProperLines(lines: seq<TransferLine>) {
    forall line :: line in lines ==> line.quantity.amount >= 0.0
  }

  /** The first line that would be refused now, or the number of lines. */
  function FirstThrow(sys: System, strategy: Strategy, e: TransferPosted, lines: seq<TransferLine>): (k: nat)
    ensures k <= |lines|
  {
    if lines == [] || Throws(sys, strategy, e, lines[0]) then 0 else 1 + FirstThrow(sys, strategy, e, lines[1..])
  }

  lemma {:induction false} FirstThrowMeans(sys: System, strategy: Strategy, e: TransferPosted, lines: seq<TransferLine>)
    ensures var k := FirstThrow(sys, strategy, e, lines);
            && (forall i :: 0 <= i < k ==> !Throws(sys, strategy, e, lines[i]))
            && (k < |lines| ==> Throws(sys, strategy, e, lines[k]))
  {
    hide Throws;
    if lines != [] && !Throws(sys, strategy, e, lines[0]) {
      FirstThrowMeans(sys, strategy, e, lines[1..]);
    }
  }

  lemma {:induction false} FirstThrowIs(sys: System, strategy: Strategy, e: TransferPosted, lines: seq<TransferLine>,
                                        k: nat)
    requires k <= |lines| && (forall i :: 0 <= i < k ==> !Throws(sys, strategy, e, lines[i]))
    requires k < |lines| ==> Throws(sys, strategy, e, lines[k])
    ensures FirstThrow(sys, strategy, e, lines) == k
  {
    hide Throws;
    if k > 0 {
      FirstThrowIs(sys, strategy, e, lines[1..], k - 1);
    }
  }

  lemma FirstThrowSame(a: System, b: System, strategy: Strategy, e: TransferPosted, lines: seq<TransferLine>)
    requires forall line :: line in lines ==> SameStocks(a, b, line.sku)
    ensures FirstThrow(a, strategy, e, lines) == FirstThrow(b, strategy, e, lines)
  {
    forall line | line in lines ensures Throws(a, strategy, e, line) <==> Throws(b, strategy, e, line) {
      SameStocksAct(a, b, strategy, e, line);
    }
    hide SameStocks, Throws;
    FirstThrowMeans(a, strategy, e, lines);
    FirstThrowIs(b, strategy, e, lines, FirstThrow(a, strategy, e, lines));
  }

  ghost predicate Untouched(before: System, after: System, lines: seq<TransferLine>) {
    forall sku :: (forall line :: line in lines ==> line.sku != sku) ==> SameStocks(before, after, sku)
  }

  lemma SameStocksTrans(a: System, b: System, c: System, sku: string)
    requires SameStocks(a, b, sku) && SameStocks(b, c, sku)
    ensures SameStocks(a, c, sku)
  {
  }

  /** The predicate reads only the stocks of the line's SKU. */
  lemma MovedOnceSame(a: System, b: System, c: System, d: System, strategy: Strategy, e: TransferPosted,
                      line: TransferLine)
    requires SameStocks(a, b, line.sku) && SameStocks(c, d, line.sku) && MovedOnce(b, c, e, line)
    ensures MovedOnce(a, d, e, line)
  {
    SameStocksAct(a, b, strategy, e, line);
    SameStocksAct(c, d, strategy, e, line);
    hide SameStocks, Total, Unexpired, Deliveries.RowTotal, Load;
  }

  lemma SameSelf(sys: System)
    ensures forall sku :: SameStocks(sys, sys, sku)
  {
  }

  /**
   With pairwise distinct SKUs the lines do not disturb one another: exactly the lines before the first
   that would be refused at the outset are moved, and no other SKU's stock changes.
   */
  lemma {:induction false} LinesHandled(sys: System, strategy: Strategy, e: TransferPosted, lines: seq<TransferLine>)
    requires SystemOk(sys) && e.fromBranchId != e.toBranchId && DistinctLines(lines) && ProperLines(lines)
    ensures var h := MoveLines(sys, strategy, e, lines);
            var k := FirstThrow(sys, strategy, e, lines);
            && SystemOk(h.sys) && h.sys.done == sys.done
            && (h.error.None? <==> k == |lines|)
            && (forall i :: 0 <= i < k ==> MovedOnce(sys, h.sys, e, lines[i]))
            && Untouched(sys, h.sys, lines[..k])
    decreases |lines|
  {
    Sagas.MoveLinesOk(sys, strategy, e, lines);
    SameSelf(sys);
    var k := FirstThrow(sys, strategy, e, lines);
    hide SameStocks, MovedOnce, MoveLine, SystemOk;
    if lines != [] {
      assert lines[0] in lines && forall line :: line in lines[1..] ==> line in lines;
      if Throws(sys, strategy, e, lines[0]) {
        RefusedLeavesStocks(sys, strategy, e, lines[0]);
        assert Untouched(sys, MoveLines(sys, strategy, e, lines).sys, lines[..k]);
      } else {
        TailHandled(sys, strategy, e, lines);
      }
    }
  }

  lemma RefusedLeavesStocks(sys: System, strategy: Strategy, e: TransferPosted, line: TransferLine)
    requires Throws(sys, strategy, e, line)
    ensures forall sku :: SameStocks(sys, MoveLine(sys, strategy, e, line).sys, sku)
  {
    TransferLaws.RefusedLine(sys, strategy, e, line);
  }

  /** The step of the induction: the first line is moved, the rest are handled after it. */
  lemma {:induction false} TailHandled(sys: System, strategy: Strategy, e: TransferPosted, lines: seq<TransferLine>)
    requires SystemOk(sys) && e.fromBranchId != e.toBranchId && DistinctLines(lines) && ProperLines(lines)
    requires lines != [] && !Throws(sys, strategy, e, lines[0])
    ensures var h := MoveLines(sys, strategy, e, lines);
            var k := FirstThrow(sys, strategy, e, lines);
            && (h.error.None? <==> k == |lines|)
            && (forall i :: 0 <= i < k ==> MovedOnce(sys, h.sys, e, lines[i]))
            && Untouched(sys, h.sys, lines[..k])
    decreases |lines|, 0
  {
    var mid, tail := MoveLine(sys, strategy, e, lines[0]).sys, lines[1..];
    var k, h := FirstThrow(sys, strategy, e, lines), MoveLines(sys, strategy, e, lines);
    assert h == MoveLines(mid, strategy, e, tail);
    assert k == 1 + FirstThrow(sys, strategy, e, tail);
    TailProper(lines);
    LineHandled(sys, strategy, e, lines[0]);
    Sagas.MoveLineOk(sys, strategy, e, lines[0]);
    hide SameStocks, MovedOnce, MoveLine, MoveLines, SystemOk, DistinctLines, ProperLines, Untouched, Throws,
         FirstThrow;
    FirstThrowSame(sys, mid, strategy, e, tail);
    LinesHandled(mid, strategy, e, tail);
    Combined(sys, mid, h.sys, strategy, e, lines, k);
  }

  lemma TailProper(lines: seq<TransferLine>)
    requires lines != [] && DistinctLines(lines) && ProperLines(lines)
    ensures DistinctLines(lines[1..]) && ProperLines(lines[1..]) && lines[0].quantity.amount >= 0.0
    ensures forall line :: line in lines[1..] ==> line.sku != lines[0].sku
  {
    assert lines[0] in lines;
  }

  /** Moving the first line and then k - 1 of the others moves the first k. */
  lemma Combined(sys: System, mid: System, after: System, strategy: Strategy, e: TransferPosted,
                 lines: seq<TransferLine>, k: nat)
    requires 0 < k <= |lines| && DistinctLines(lines)
    requires MovedOnce(sys, mid, e, lines[0]) && forall sku :: sku != lines[0].sku ==> SameStocks(sys, mid, sku)
    requires forall i :: 0 <= i < k - 1 ==> MovedOnce(mid, after, e, lines[1..][i])
    requires Untouched(mid, after, lines[1..][..k - 1])
    ensures forall i :: 0 <= i < k ==> MovedOnce(sys, after, e, lines[i])
    ensures Untouched(sys, after, lines[..k])
  {
    SameSelf(sys);
    SameSelf(after);
    var tail := lines[1..];
    hide SameStocks, MovedOnce;
    forall i | 0 <= i < k ensures MovedOnce(sys, after, e, lines[i]) {
      if i == 0 {
        assert forall line :: line in tail[..k - 1] ==> line.sku != lines[0].sku;
        MovedOnceSame(sys, sys, mid, after, strategy, e, lines[0]);
      } else {
        assert tail[i - 1] == lines[i];
        MovedOnceSame(sys, mid, after, after, strategy, e, lines[i]);
      }
    }
    forall sku | forall line :: line in lines[..k] ==> line.sku != sku ensures SameStocks(sys, after, sku) {
      assert lines[..k][0] == lines[0] && lines[..k][1..] == tail[..k - 1];
      assert lines[0] in lines[..k] && forall line :: line in tail[..k - 1] ==> line in lines[..k];
      SameStocksTrans(sys, mid, after, sku);
    }
  }

  // ---------------------------------------------------------------- the delivery after a stop

  /** Whether a line that has been moved once is refused the second time: its source no longer holds the quantity. */
  predicate RefusedAgain(sys: System, e: TransferPosted, line: TransferLine) {
    line.quantity.amount > Total(SourceOf(sys, e, line)) - Sends(sys, e, line)
  }

  /** What it moves the second time, if it is not refused. */
  function SendsAgain(sys: System, e: TransferPosted, line: TransferLine): real {
    Basics.MinReal(line.quantity.amount, Unexpired(SourceOf(sys, e, line), e.postedAt) - Sends(sys, e, line))
  }

  lemma LineAgain(sys: System, s1: System, strategy: Strategy, e: TransferPosted, line: TransferLine)
    requires SystemOk(sys) && SystemOk(s1) && line.quantity.amount >= 0.0
    requires !Throws(sys, strategy, e, line) && MovedOnce(sys, s1, e, line)
    ensures Throws(s1, strategy, e, line) <==> RefusedAgain(sys, e, line)
    ensures Sends(s1, e, line) == SendsAgain(sys, e, line)
  {
    ThrowsWhen(sys, strategy, e, line);
    ThrowsWhen(s1, strategy, e, line);
    LoadOk(sys, FromKey(e, line), line.quantity.unit);
    UnexpiredBounds(SourceOf(sys, e, line), e.postedAt);
    hide Throws, Total, Unexpired, SystemOk, Load, Deliveries.RowTotal, StateOk;
  }

  /** A transfer nobody has handled yet, that one complete delivery would finish. */
  ghost predicate Finishes(sys: System, strategy: Strategy, e: TransferPosted) {
    && SystemOk(sys) && e.fromBranchId != e.toBranchId && DistinctLines(e.lines) && ProperLines(e.lines)
    && TransferKey(e.transferId) !in sys.done
    && HandleTransfer(sys, strategy, e, |e.lines| + 1).error.None?
  }

  /** The system after a delivery that stops after `stop` lines, before the mark. */
  function Stopped(sys: System, strategy: Strategy, e: TransferPosted, stop: nat): System {
    HandleTransfer(sys, strategy, e, stop).sys
  }

  function Complete(sys: System, strategy: Strategy, e: TransferPosted): Handled {
    HandleTransfer(sys, strategy, e, |e.lines| + 1)
  }

  lemma NoneThrows(sys: System, strategy: Strategy, e: TransferPosted)
    requires Finishes(sys, strategy, e)
    ensures forall i :: 0 <= i < |e.lines| ==> !Throws(sys, strategy, e, e.lines[i])
    ensures var one := Complete(sys, strategy, e).sys;
            && (forall i :: 0 <= i < |e.lines| ==> MovedOnce(sys, one, e, e.lines[i]))
            && Untouched(sys, one, e.lines)
  {
    var h := MoveLines(sys, strategy, e, e.lines);
    LinesHandled(sys, strategy, e, e.lines);
    FirstThrowMeans(sys, strategy, e, e.lines);
    assert e.lines[..|e.lines|] == e.lines;
    hide SystemOk, MovedOnce, SameStocks, Throws, MoveLines;
    MarkChangesNothing(sys, h.sys, Complete(sys, strategy, e).sys, strategy, e, |e.lines|);
  }

  /** Marking a key leaves the stocks as they are. */
  lemma MarkChangesNothing(before: System, after: System, marked: System, strategy: Strategy, e: TransferPosted, k: nat)
    requires marked.rows == after.rows && k <= |e.lines|
    requires forall i :: 0 <= i < k ==> MovedOnce(before, after, e, e.lines[i])
    requires Untouched(before, after, e.lines[..k])
    ensures forall i :: 0 <= i < k ==> MovedOnce(before, marked, e, e.lines[i])
    ensures Untouched(before, marked, e.lines[..k])
  {
    SameSelf(before);
    assert forall sku :: SameStocks(after, marked, sku);
    hide SameStocks, MovedOnce;
    forall i | 0 <= i < k ensures MovedOnce(before, marked, e, e.lines[i]) {
      MovedOnceSame(before, before, after, marked, strategy, e, e.lines[i]);
    }
    forall sku | forall line :: line in e.lines[..k] ==> line.sku != sku ensures SameStocks(before, marked, sku) {
      SameStocksTrans(before, after, marked, sku);
    }
  }

  /** What the first, stopped delivery has done. */
  lemma StoppedMoves(sys: System, strategy: Strategy, e: TransferPosted, stop: nat)
    requires Finishes(sys, strategy, e) && stop <= |e.lines|
    ensures var s1 := Stopped(sys, strategy, e, stop);
            && SystemOk(s1) && s1.done == sys.done
            && (forall i :: 0 <= i < stop ==> MovedOnce(sys, s1, e, e.lines[i]))
            && (forall i :: stop <= i < |e.lines| ==> SameStocks(sys, s1, e.lines[i].sku))
            && Untouched(sys, s1, e.lines)
  {
    hide Throws, SystemOk, MovedOnce, SameStocks, DistinctLines, ProperLines, MoveLines, FirstThrow;
    var lines := e.lines[..stop];
    NoneThrows(sys, strategy, e);
    PrefixProper(e.lines, stop);
    LinesHandled(sys, strategy, e, lines);
    FirstThrowIs(sys, strategy, e, lines, stop);
    assert lines[..stop] == lines;
  }

  lemma PrefixProper(lines: seq<TransferLine>, k: nat)
    requires k <= |lines| && DistinctLines(lines) && ProperLines(lines)
    ensures DistinctLines(lines[..k]) && ProperLines(lines[..k])
    ensures forall line :: line in lines[..k] ==> line in lines
    ensures forall i :: k <= i < |lines| ==> forall line :: line in lines[..k] ==> line.sku != lines[i].sku
  {
  }

  /**
   The delivery after a stop. A line that was moved before the stop is refused exactly when its quantity
   exceeds what the first delivery left in its source, and otherwise moves the lesser of its quantity and
   the unexpired stock left there; a line after the stop is handled as it would have been.
   */
  lemma Redelivered(sys: System, strategy: Strategy, e: TransferPosted, stop: nat)
    requires Finishes(sys, strategy, e) && stop <= |e.lines|
    ensures var s1 := Stopped(sys, strategy, e, stop);
            && (forall i :: 0 <= i < stop ==>
                  (Throws(s1, strategy, e, e.lines[i]) <==> RefusedAgain(sys, e, e.lines[i])))
            && (forall i :: 0 <= i < stop ==> Sends(s1, e, e.lines[i]) == SendsAgain(sys, e, e.lines[i]))
            && (forall i :: stop <= i < |e.lines| ==> !Throws(s1, strategy, e, e.lines[i]))
            && (forall i :: stop <= i < |e.lines| ==> Sends(s1, e, e.lines[i]) == Sends(sys, e, e.lines[i]))
  {
    var s1 := Stopped(sys, strategy, e, stop);
    NoneThrows(sys, strategy, e);
    StoppedMoves(sys, strategy, e, stop);
    hide Throws, SystemOk, MovedOnce, SameStocks, Sends, SendsAgain, RefusedAgain;
    forall i | 0 <= i < stop
      ensures Throws(s1, strategy, e, e.lines[i]) <==> RefusedAgain(sys, e, e.lines[i])
      ensures Sends(s1, e, e.lines[i]) == SendsAgain(sys, e, e.lines[i])
    {
      assert e.lines[i] in e.lines;
      LineAgain(sys, s1, strategy, e, e.lines[i]);
    }
    forall i | stop <= i < |e.lines|
      ensures !Throws(s1, strategy, e, e.lines[i])
      ensures Sends(s1, e, e.lines[i]) == Sends(sys, e, e.lines[i])
    {
      SendsSame(sys, s1, strategy, e, e.lines[i]);
    }
  }

  lemma SendsSame(a: System, b: System, strategy: Strategy, e: TransferPosted, line: TransferLine)
    requires SameStocks(a, b, line.sku)
    ensures Sends(a, e, line) == Sends(b, e, line)
    ensures Throws(a, strategy, e, line) <==> Throws(b, strategy, e, line)
  {
    SameStocksAct(a, b, strategy, e, line);
    hide Throws, SameStocks, Unexpired;
  }

  /** The lines the second delivery gets through, and whether it marks the key. */
  lemma SecondMoves(sys: System, strategy: Strategy, e: TransferPosted, stop: nat)
    requires Finishes(sys, strategy, e) && stop <= |e.lines|
    ensures var s1 := Stopped(sys, strategy, e, stop);
            var h, k := Complete(s1, strategy, e), FirstThrow(s1, strategy, e, e.lines);
            && (k < |e.lines| ==> k < stop)
            && (h.error.None? <==> k == |e.lines|) && (TransferKey(e.transferId) in h.sys.done <==> k == |e.lines|)
            && (forall i :: 0 <= i < k ==> MovedOnce(s1, h.sys, e, e.lines[i]))
            && Untouched(s1, h.sys, e.lines[..k])
  {
    hide Throws, SystemOk, MovedOnce, SameStocks, DistinctLines, ProperLines, MoveLines, FirstThrow, Untouched,
         RefusedAgain, Sends, SendsAgain;
    var s1 := Stopped(sys, strategy, e, stop);
    StoppedMoves(sys, strategy, e, stop);
    Redelivered(sys, strategy, e, stop);
    FirstThrowMeans(s1, strategy, e, e.lines);
    LinesHandled(s1, strategy, e, e.lines);
    MarkChangesNothing(s1, MoveLines(s1, strategy, e, e.lines).sys, Complete(s1, strategy, e).sys, strategy, e,
                       FirstThrow(s1, strategy, e, e.lines));
  }

  ghost predicate SameTotals(a: System, b: System) {
    forall k :: Deliveries.RowTotal(a, k) == Deliveries.RowTotal(b, k)
  }

  ghost predicate SkuTotals(a: System, b: System, sku: string) {
    forall k: StockKey :: k.sku == sku ==> Deliveries.RowTotal(a, k) == Deliveries.RowTotal(b, k)
  }

  /** Moved twice against moved once: the totals agree when the second time moved nothing. */
  lemma TwiceOnce(sys: System, s1: System, s2: System, one: System, e: TransferPosted, line: TransferLine)
    requires MovedOnce(sys, s1, e, line) && MovedOnce(s1, s2, e, line) && MovedOnce(sys, one, e, line)
    ensures SkuTotals(s2, one, line.sku) <==> Sends(s1, e, line) == 0.0
  {
    hide Deliveries.RowTotal, Sends;
    assert SkuTotals(s2, one, line.sku) ==>
        Deliveries.RowTotal(s2, FromKey(e, line)) == Deliveries.RowTotal(one, FromKey(e, line));
  }

  /** Not moved against moved once. */
  lemma NotOnce(sys: System, s2: System, one: System, e: TransferPosted, line: TransferLine)
    requires SkuTotals(sys, s2, line.sku) && MovedOnce(sys, one, e, line)
    ensures SkuTotals(s2, one, line.sku) <==> Sends(sys, e, line) == 0.0
  {
    hide Deliveries.RowTotal, Sends;
    assert Deliveries.RowTotal(sys, FromKey(e, line)) == Deliveries.RowTotal(s2, FromKey(e, line));
    assert SkuTotals(s2, one, line.sku) ==>
        Deliveries.RowTotal(s2, FromKey(e, line)) == Deliveries.RowTotal(one, FromKey(e, line));
  }

  /** Moved once in both. */
  lemma OnceOnce(sys: System, s2: System, one: System, e: TransferPosted, line: TransferLine)
    requires MovedOnce(sys, s2, e, line) && MovedOnce(sys, one, e, line)
    ensures SkuTotals(s2, one, line.sku)
  {
    hide Deliveries.RowTotal, Sends;
  }

  lemma SameStocksTotals(a: System, b: System, sku: string)
    requires SameStocks(a, b, sku)
    ensures SkuTotals(a, b, sku)
  {
  }

  /** One line: after the second delivery got through k lines, its totals against those of one delivery. */
  lemma LineMatches(sys: System, strategy: Strategy, e: TransferPosted, stop: nat, i: nat)
    requires Finishes(sys, strategy, e) && stop <= |e.lines| && i < |e.lines|
    ensures var s1 := Stopped(sys, strategy, e, stop);
            var s2, one := Complete(s1, strategy, e).sys, Complete(sys, strategy, e).sys;
            var k := FirstThrow(s1, strategy, e, e.lines);
            SkuTotals(s2, one, e.lines[i].sku) <==>
              (if i < stop then i < k ==> SendsAgain(sys, e, e.lines[i]) == 0.0
               else i < k || Sends(sys, e, e.lines[i]) == 0.0)
  {
    hide Throws, SystemOk, MovedOnce, SameStocks, ProperLines, MoveLines, FirstThrow, RefusedAgain, Sends, SendsAgain,
         SkuTotals, HandleTransfer;
    var s1 := Stopped(sys, strategy, e, stop);
    var s2, one := Complete(s1, strategy, e).sys, Complete(sys, strategy, e).sys;
    var k := FirstThrow(s1, strategy, e, e.lines);
    var line := e.lines[i];
    NoneThrows(sys, strategy, e);
    StoppedMoves(sys, strategy, e, stop);
    Redelivered(sys, strategy, e, stop);
    SecondMoves(sys, strategy, e, stop);
    hide Finishes, Stopped, Complete;
    if i < k {
      if i < stop {
        TwiceOnce(sys, s1, s2, one, e, line);
      } else {
        SameSelf(s2);
        MovedOnceSame(sys, s1, s2, s2, strategy, e, line);
        OnceOnce(sys, s2, one, e, line);
      }
    } else {
      assert SameStocks(s1, s2, line.sku);
      SameSelf(sys);
      SameSelf(one);
      if i < stop {
        MovedOnceSame(sys, sys, s1, s2, strategy, e, line);
        OnceOnce(sys, s2, one, e, line);
      } else {
        SameStocksTrans(sys, s1, s2, line.sku);
        SameStocksTotals(sys, s2, line.sku);
        NotOnce(sys, s2, one, e, line);
      }
    }
  }

  /** A SKU the transfer does not name keeps its stocks through all of it. */
  lemma OthersMatch(sys: System, strategy: Strategy, e: TransferPosted, stop: nat, sku: string)
    requires Finishes(sys, strategy, e) && stop <= |e.lines| && forall line :: line in e.lines ==> line.sku != sku
    ensures SkuTotals(Complete(Stopped(sys, strategy, e, stop), strategy, e).sys, Complete(sys, strategy, e).sys, sku)
  {
    hide Throws, SystemOk, MovedOnce, SameStocks, ProperLines, MoveLines, FirstThrow, SkuTotals, HandleTransfer;
    var s1 := Stopped(sys, strategy, e, stop);
    var s2, one := Complete(s1, strategy, e).sys, Complete(sys, strategy, e).sys;
    NoneThrows(sys, strategy, e);
    StoppedMoves(sys, strategy, e, stop);
    SecondMoves(sys, strategy, e, stop);
    SameStocksTrans(sys, s1, s2, sku);
    SameStocksTotals(sys, s2, sku);
    SameStocksTotals(sys, one, sku);
    TotalsTrans(sys, s2, one, sku);
  }

  lemma TotalsTrans(sys: System, a: System, b: System, sku: string)
    requires SkuTotals(sys, a, sku) && SkuTotals(sys, b, sku)
    ensures SkuTotals(a, b, sku)
  {
    hide Deliveries.RowTotal;
    forall k: StockKey | k.sku == sku ensures Deliveries.RowTotal(a, k) == Deliveries.RowTotal(b, k) {
      assert Deliveries.RowTotal(sys, k) == Deliveries.RowTotal(a, k);
    }
  }

  lemma TotalsByLine(a: System, b: System, lines: seq<TransferLine>)
    requires forall sku :: (forall line :: line in lines ==> line.sku != sku) ==> SkuTotals(a, b, sku)
    ensures SameTotals(a, b) <==> forall i :: 0 <= i < |lines| ==> SkuTotals(a, b, lines[i].sku)
  {
    hide Deliveries.RowTotal;
    if forall i :: 0 <= i < |lines| ==> SkuTotals(a, b, lines[i].sku) {
      forall k ensures Deliveries.RowTotal(a, k) == Deliveries.RowTotal(b, k) {
        assert SkuTotals(a, b, k.sku);
      }
    }
  }

  /** No line up to and including i is refused by the second delivery. */
  predicate GetsThrough(sys: System, e: TransferPosted, i: int)
    requires i < |e.lines|
  {
    forall j :: 0 <= j <= i ==> !RefusedAgain(sys, e, e.lines[j])
  }

  /**
   A stopped delivery and then a complete one leave the totals of one complete delivery exactly when no
   line before the stop moves anything a second time before some line is refused, and, if one is
   refused, the lines after the stop had nothing to move.
   */
  lemma RedeliveryMatches(sys: System, strategy: Strategy, e: TransferPosted, stop: nat)
    requires Finishes(sys, strategy, e) && stop <= |e.lines|
    ensures SameTotals(Complete(Stopped(sys, strategy, e, stop), strategy, e).sys, Complete(sys, strategy, e).sys)
       <==> && (forall i :: 0 <= i < stop && GetsThrough(sys, e, i) ==> SendsAgain(sys, e, e.lines[i]) == 0.0)
            && (!GetsThrough(sys, e, stop - 1) ==>
                  forall i :: stop <= i < |e.lines| ==> Sends(sys, e, e.lines[i]) == 0.0)
  {
    hide Throws, SystemOk, MovedOnce, SameStocks, ProperLines, MoveLines, FirstThrow, SkuTotals, HandleTransfer,
         Finishes, RefusedAgain, Sends, SendsAgain, Stopped, Complete, Untouched, SameTotals;
    var s1 := Stopped(sys, strategy, e, stop);
    var s2, one := Complete(s1, strategy, e).sys, Complete(sys, strategy, e).sys;
    var k := FirstThrow(s1, strategy, e, e.lines);
    forall sku | forall line :: line in e.lines ==> line.sku != sku ensures SkuTotals(s2, one, sku) {
      OthersMatch(sys, strategy, e, stop, sku);
    }
    TotalsByLine(s2, one, e.lines);
    forall i | 0 <= i < |e.lines|
      ensures SkuTotals(s2, one, e.lines[i].sku)
         <==> (if i < stop then i < k ==> SendsAgain(sys, e, e.lines[i]) == 0.0
               else i < k || Sends(sys, e, e.lines[i]) == 0.0)
    {
      LineMatches(sys, strategy, e, stop, i);
    }
    ReachesWhat(sys, strategy, e, stop);
  }

  /** How far the second delivery gets, in terms of the lines it refuses. */
  lemma ReachesWhat(sys: System, strategy: Strategy, e: TransferPosted, stop: nat)
    requires Finishes(sys, strategy, e) && stop <= |e.lines|
    ensures var k := FirstThrow(Stopped(sys, strategy, e, stop), strategy, e, e.lines);
            && (forall i :: 0 <= i < stop ==> (i < k <==> GetsThrough(sys, e, i)))
            && (k < |e.lines| ==> k < stop) && (k == |e.lines| <==> GetsThrough(sys, e, stop - 1))
  {
    hide Throws, SystemOk, MovedOnce, SameStocks, Sends, SendsAgain, RefusedAgain, FirstThrow, Stopped, Finishes;
    var s1 := Stopped(sys, strategy, e, stop);
    Redelivered(sys, strategy, e, stop);
    FirstThrowMeans(s1, strategy, e, e.lines);
  }

  /** When a line after the stop has something to move: every line before it asked for nothing, or for at least
      all that was unexpired and no more than what had expired beside it. */
  predicate Harmless(sys: System, e: TransferPosted, line: TransferLine) {
    var s := SourceOf(sys, e, line);
    var q, total, unexpired := line.quantity.amount, Total(s), Unexpired(s, e.postedAt);
    q == 0.0 || unexpired <= q <= total - unexpired
  }

  lemma HarmlessMeans(sys: System, strategy: Strategy, e: TransferPosted, line: TransferLine)
    requires SystemOk(sys) && line.quantity.amount >= 0.0 && !Throws(sys, strategy, e, line)
    ensures Harmless(sys, e, line) <==> !RefusedAgain(sys, e, line) && SendsAgain(sys, e, line) == 0.0
  {
    ThrowsWhen(sys, strategy, e, line);
    LoadOk(sys, FromKey(e, line), line.quantity.unit);
    UnexpiredBounds(SourceOf(sys, e, line), e.postedAt);
    hide Throws, Total, Unexpired, SystemOk, Load, StateOk;
  }

  /**
   So, when some line after the stop has anything to move, redelivery has the effect of one delivery
   exactly when every line before the stop is harmless to repeat.
   */
  lemma RedeliveryIsOne(sys: System, strategy: Strategy, e: TransferPosted, stop: nat)
    requires Finishes(sys, strategy, e) && stop <= |e.lines|
    requires exists i :: stop <= i < |e.lines| && Sends(sys, e, e.lines[i]) > 0.0
    ensures SameTotals(Complete(Stopped(sys, strategy, e, stop), strategy, e).sys, Complete(sys, strategy, e).sys)
       <==> forall i :: 0 <= i < stop ==> Harmless(sys, e, e.lines[i])
  {
    NoneThrows(sys, strategy, e);
    hide Throws, SystemOk, MovedOnce, SameStocks, MoveLines, SameTotals, HandleTransfer, RefusedAgain, Sends,
         SendsAgain, Stopped, Complete, Untouched, Harmless;
    RedeliveryMatches(sys, strategy, e, stop);
    forall i | 0 <= i < stop
      ensures Harmless(sys, e, e.lines[i]) <==>
              !RefusedAgain(sys, e, e.lines[i]) && SendsAgain(sys, e, e.lines[i]) == 0.0
    {
      assert e.lines[i] in e.lines;
      HarmlessMeans(sys, strategy, e, e.lines[i]);
    }
  }
}
