/**
 Any number of deliveries of one transfer, each stopped somewhere or not: how often each line is moved, how
 much that moves in all, and when the totals are those of one delivery.
 */
module TransferTallies {
  import opened BatchSelection
  import opened StockTypes
  import opened StockSpec
  import opened Documents
  import opened Inventory
  import opened TransferRedelivery
  import opened TransferRefusals
  import Basics
  import Deliveries
  import StockEffects

  /** What r handlings of a line move in all: r times its quantity, as far as the unexpired stock goes. */
  function Gone(sys: System, e: TransferPosted, line: TransferLine, r: nat): real {
    Basics.MinReal(r as real * line.quantity.amount, Unexpired(SourceOf(sys, e, line), e.postedAt))
  }

  /** The line has been moved r times between the two systems, as far as its SKU goes. */
  ghost predicate MovedTimes(before: System, after: System, e: TransferPosted, line: TransferLine, r: nat) {
    var s, s', m := SourceOf(before, e, line), SourceOf(after, e, line), Gone(before, e, line, r);
    && Total(s') == Total(s) - m
    && Unexpired(s', e.postedAt) == Unexpired(s, e.postedAt) - m
    && s'.baseUnit == s.baseUnit && TargetOf(after, e, line).baseUnit == TargetOf(before, e, line).baseUnit
    && Deliveries.RowTotal(after, FromKey(e, line)) == Deliveries.RowTotal(before, FromKey(e, line)) - m
    && Deliveries.RowTotal(after, ToKey(e, line)) == Deliveries.RowTotal(before, ToKey(e, line)) + m
    && forall k: StockKey :: k.sku == line.sku && k != FromKey(e, line) && k != ToKey(e, line) ==>
         Deliveries.RowTotal(after, k) == Deliveries.RowTotal(before, k)
  }

  /** After r handlings the source no longer holds the quantity. */
  predicate RefusedAfter(sys: System, e: TransferPosted, line: TransferLine, r: nat) {
    line.quantity.amount > Total(SourceOf(sys, e, line)) - Gone(sys, e, line, r)
  }

  lemma SourceBounds(sys: System, e: TransferPosted, line: TransferLine)
    requires SystemOk(sys)
    ensures 0.0 <= Unexpired(SourceOf(sys, e, line), e.postedAt) <= Total(SourceOf(sys, e, line))
  {
    LoadOk(sys, FromKey(e, line), line.quantity.unit);
    RowIsOk(SourceOf(sys, e, line), FromKey(e, line), sys.nextId);
    StockEffects.UnexpiredBounds(SourceOf(sys, e, line), e.postedAt);
  }

  lemma Times(r: nat, q: real)
    requires q >= 0.0
    ensures r as real * q >= 0.0 && (r + 1) as real * q == r as real * q + q
    ensures 0 as real * q == 0.0 && 1 as real * q == q
  {
  }

  /** Another handling moves what the ones before it have left, up to the quantity. */
  lemma GoneStep(sys: System, e: TransferPosted, line: TransferLine, r: nat)
    requires SystemOk(sys) && line.quantity.amount >= 0.0
    ensures var u := Unexpired(SourceOf(sys, e, line), e.postedAt);
            && 0.0 <= Gone(sys, e, line, r) <= u
            && Gone(sys, e, line, r + 1)
               == Gone(sys, e, line, r) + Basics.MinReal(line.quantity.amount, u - Gone(sys, e, line, r))
            && Gone(sys, e, line, 0) == 0.0 && Gone(sys, e, line, 1) == Sends(sys, e, line)
  {
    SourceBounds(sys, e, line);
    Times(r, line.quantity.amount);
    Times(0, line.quantity.amount);
    hide Unexpired, SystemOk, Total;
  }

  lemma NotYetMoved(sys: System, e: TransferPosted, line: TransferLine)
    requires SystemOk(sys) && line.quantity.amount >= 0.0
    ensures MovedTimes(sys, sys, e, line, 0)
  {
    GoneStep(sys, e, line, 0);
    hide Gone, Unexpired, Total, SystemOk, Deliveries.RowTotal;
  }

  lemma MovedOnceMore(sys: System, s: System, s': System, e: TransferPosted, line: TransferLine, r: nat)
    requires SystemOk(sys) && line.quantity.amount >= 0.0
    requires MovedTimes(sys, s, e, line, r) && MovedOnce(s, s', e, line)
    ensures MovedTimes(sys, s', e, line, r + 1)
  {
    GoneStep(sys, e, line, r);
    hide Gone, Unexpired, Total, SystemOk, Deliveries.RowTotal, Load;
  }

  lemma NotMovedAgain(sys: System, s: System, s': System, strategy: Strategy, e: TransferPosted, line: TransferLine,
                      r: nat)
    requires MovedTimes(sys, s, e, line, r) && SameStocks(s, s', line.sku)
    ensures MovedTimes(sys, s', e, line, r)
  {
    SameStocksAct(s, s', strategy, e, line);
    hide Gone, Unexpired, Total, Deliveries.RowTotal, Load, SameStocks;
  }

  /** A line that could be moved at the outset is refused later exactly when its source has run short. */
  lemma ThrowsAfter(sys: System, s: System, strategy: Strategy, e: TransferPosted, line: TransferLine, r: nat)
    requires SystemOk(sys) && SystemOk(s) && line.quantity.amount >= 0.0
    requires !Throws(sys, strategy, e, line) && MovedTimes(sys, s, e, line, r)
    ensures Throws(s, strategy, e, line) <==> RefusedAfter(sys, e, line, r)
  {
    ThrowsWhen(sys, strategy, e, line);
    ThrowsWhen(s, strategy, e, line);
    SourceBounds(sys, e, line);
    GoneStep(sys, e, line, r);
    NothingGone(sys, e, line, r);
    hide Throws, Total, Unexpired, SystemOk, Load, Deliveries.RowTotal, Gone;
  }

  lemma NothingGone(sys: System, e: TransferPosted, line: TransferLine, r: nat)
    requires SystemOk(sys) && line.quantity.amount >= 0.0
    ensures Sends(sys, e, line) == 0.0 ==> Gone(sys, e, line, r) == 0.0
  {
    SourceBounds(sys, e, line);
    Times(r, line.quantity.amount);
    if line.quantity.amount == 0.0 {
      assert r as real * line.quantity.amount == 0.0;
    }
    hide Unexpired, SystemOk, Total;
  }

  // ---------------------------------------------------------------- the tally

  /** How often each line has been moved, and whether the key is marked. */
  datatype Tally = Tally(counts: seq<nat>, marked: bool)

  /** The first line from i that is refused at its count, or n. */
  function Reach(sys: System, e: TransferPosted, counts: seq<nat>, i: nat, n: nat): (k: nat)
    requires i <= n <= |e.lines| == |counts|
    ensures i <= k <= n
    decreases n - i
  {
    if i == n || RefusedAfter(sys, e, e.lines[i], counts[i]) then i else Reach(sys, e, counts, i + 1, n)
  }

  lemma {:induction false} ReachMeans(sys: System, e: TransferPosted, counts: seq<nat>, i: nat, n: nat)
    requires i <= n <= |e.lines| == |counts|
    ensures var k := Reach(sys, e, counts, i, n);
            && (forall j :: i <= j < k ==> !RefusedAfter(sys, e, e.lines[j], counts[j]))
            && (k < n ==> RefusedAfter(sys, e, e.lines[k], counts[k]))
    decreases n - i
  {
    hide RefusedAfter;
    if i < n && !RefusedAfter(sys, e, e.lines[i], counts[i]) {
      ReachMeans(sys, e, counts, i + 1, n);
    }
  }

  /** A delivery moves the lines before its stop, up to the first that is refused, once more. */
  function NextTally(sys: System, e: TransferPosted, t: Tally, stop: nat): (t': Tally)
    requires |t.counts| == |e.lines|
    ensures |t'.counts| == |e.lines|
  {
    if t.marked then t
    else
      var k := Reach(sys, e, t.counts, 0, if stop <= |e.lines| then stop else |e.lines|);
      Tally(seq(|t.counts|, i requires 0 <= i < |t.counts| => if i < k then t.counts[i] + 1 else t.counts[i]),
            stop > |e.lines| && k == |e.lines|)
  }

  function TallyAfter(sys: System, e: TransferPosted, t: Tally, stops: seq<nat>): (t': Tally)
    requires |t.counts| == |e.lines|
    ensures |t'.counts| == |e.lines|
    decreases |stops|
  {
    if stops == [] then t else TallyAfter(sys, e, NextTally(sys, e, t, stops[0]), stops[1..])
  }

  function NoneMovedYet(e: TransferPosted): Tally {
    Tally(seq(|e.lines|, i => 0), false)
  }

  /** Deliveries of the one transfer, each stopped somewhere or not. */
  function Redeliver(sys: System, strategy: Strategy, e: TransferPosted, stops: seq<nat>): System
    decreases |stops|
  {
    if stops == [] then sys else Redeliver(HandleTransfer(sys, strategy, e, stops[0]).sys, strategy, e, stops[1..])
  }

  /** The system is what the tally says. */
  ghost predicate Agrees(sys: System, s: System, e: TransferPosted, t: Tally) {
    && SystemOk(s) && |t.counts| == |e.lines|
    && (forall i :: 0 <= i < |e.lines| ==> MovedTimes(sys, s, e, e.lines[i], t.counts[i]))
    && (TransferKey(e.transferId) in s.done <==> t.marked)
    && Untouched(sys, s, e.lines)
  }

  /** What a delivery in a state the tally describes can pass is what the tally says. */
  lemma PassesWhat(sys: System, s: System, strategy: Strategy, e: TransferPosted, t: Tally, n: nat)
    requires Finishes(sys, strategy, e) && Agrees(sys, s, e, t) && n <= |e.lines|
    ensures var k := Reach(sys, e, t.counts, 0, n);
            && (forall i :: 0 <= i < n ==> (Passable(s, strategy, e, i) <==> i < k))
            && (Passable(s, strategy, e, n - 1) <==> k == n)
  {
    hide Throws, SystemOk, MovedTimes, MovedOnce, RefusedAfter, Reach, Untouched, HandleTransfer, DistinctLines;
    NoneThrows(sys, strategy, e);
    ReachMeans(sys, e, t.counts, 0, n);
    forall i | 0 <= i < n
      ensures Throws(s, strategy, e, e.lines[i]) <==> RefusedAfter(sys, e, e.lines[i], t.counts[i])
    {
      assert e.lines[i] in e.lines;
      ThrowsAfter(sys, s, strategy, e, e.lines[i], t.counts[i]);
    }
  }

  lemma LineAgrees(sys: System, s: System, strategy: Strategy, e: TransferPosted, t: Tally, stop: nat, i: nat)
    requires Finishes(sys, strategy, e) && Agrees(sys, s, e, t) && !t.marked && i < |e.lines|
    ensures MovedTimes(sys, HandleTransfer(s, strategy, e, stop).sys, e, e.lines[i],
                       NextTally(sys, e, t, stop).counts[i])
  {
    hide Throws, SystemOk, MovedTimes, MovedOnce, RefusedAfter, Reach, Untouched, HandleTransfer, DistinctLines,
         SameStocks, Passable;
    var n := if stop <= |e.lines| then stop else |e.lines|;
    var after := HandleTransfer(s, strategy, e, stop).sys;
    assert e.lines[i] in e.lines;
    PassesWhat(sys, s, strategy, e, t, n);
    DeliveryMoves(s, strategy, e, stop, i);
    if i < stop && Passable(s, strategy, e, i) {
      MovedOnceMore(sys, s, after, e, e.lines[i], t.counts[i]);
    } else {
      NotMovedAgain(sys, s, after, strategy, e, e.lines[i], t.counts[i]);
    }
  }

  lemma DeliveryAgrees(sys: System, s: System, strategy: Strategy, e: TransferPosted, t: Tally, stop: nat)
    requires Finishes(sys, strategy, e) && Agrees(sys, s, e, t)
    ensures Agrees(sys, HandleTransfer(s, strategy, e, stop).sys, e, NextTally(sys, e, t, stop))
  {
    if !t.marked {
      hide Throws, SystemOk, MovedTimes, MovedOnce, RefusedAfter, Reach, HandleTransfer, DistinctLines, SameStocks,
           Passable, ProperLines;
      forall i | 0 <= i < |e.lines|
        ensures MovedTimes(sys, HandleTransfer(s, strategy, e, stop).sys, e, e.lines[i],
                           NextTally(sys, e, t, stop).counts[i])
      {
        LineAgrees(sys, s, strategy, e, t, stop, i);
      }
      PassesWhat(sys, s, strategy, e, t, |e.lines|);
      DeliveryMarks(s, strategy, e, stop);
      DeliveryTouches(s, strategy, e, stop);
      UntouchedTrans(sys, s, HandleTransfer(s, strategy, e, stop).sys, e.lines);
    }
  }

  lemma UntouchedTrans(a: System, b: System, c: System, lines: seq<TransferLine>)
    requires Untouched(a, b, lines) && Untouched(b, c, lines)
    ensures Untouched(a, c, lines)
  {
    hide SameStocks;
    forall sku | forall line :: line in lines ==> line.sku != sku ensures SameStocks(a, c, sku) {
      SameStocksTrans(a, b, c, sku);
    }
  }

  lemma {:induction false} DeliveriesAgree(sys: System, s: System, strategy: Strategy, e: TransferPosted, t: Tally,
                                           stops: seq<nat>)
    requires Finishes(sys, strategy, e) && Agrees(sys, s, e, t)
    ensures Agrees(sys, Redeliver(s, strategy, e, stops), e, TallyAfter(sys, e, t, stops))
    decreases |stops|
  {
    hide Finishes, Agrees, NextTally, HandleTransfer;
    if stops != [] {
      Sized(sys, s, e, t);
      DeliveryAgrees(sys, s, strategy, e, t, stops[0]);
      DeliveriesAgree(sys, HandleTransfer(s, strategy, e, stops[0]).sys, strategy, e, NextTally(sys, e, t, stops[0]),
                      stops[1..]);
    }
  }

  lemma Sized(sys: System, s: System, e: TransferPosted, t: Tally)
    requires Agrees(sys, s, e, t)
    ensures |t.counts| == |e.lines|
  {
  }

  /**
   Any deliveries of a transfer that one delivery would finish, stopped anywhere or not: each line has been moved as
   often as the tally says, and r times moves min(r * quantity, unexpired stock) in all; the key is marked when
   the tally says so, and no other SKU is touched.
   */
  lemma Redeliveries(sys: System, strategy: Strategy, e: TransferPosted, stops: seq<nat>)
    requires Finishes(sys, strategy, e)
    ensures Agrees(sys, Redeliver(sys, strategy, e, stops), e, TallyAfter(sys, e, NoneMovedYet(e), stops))
  {
    SameSelf(sys);
    forall i | 0 <= i < |e.lines| ensures MovedTimes(sys, sys, e, e.lines[i], 0) {
      assert e.lines[i] in e.lines;
      NotYetMoved(sys, e, e.lines[i]);
    }
    hide MovedTimes, SystemOk, HandleTransfer, SameStocks;
    DeliveriesAgree(sys, sys, strategy, e, NoneMovedYet(e), stops);
  }

  /** A line's totals after r handlings are those after one exactly when r handlings move what one does. */
  lemma LineLikeOne(sys: System, s: System, one: System, e: TransferPosted, line: TransferLine, r: nat)
    requires SystemOk(sys) && line.quantity.amount >= 0.0
    requires MovedTimes(sys, s, e, line, r) && MovedOnce(sys, one, e, line)
    ensures SkuTotals(s, one, line.sku) <==> Gone(sys, e, line, r) == Gone(sys, e, line, 1)
  {
    GoneStep(sys, e, line, 0);
    hide Gone, Deliveries.RowTotal, Sends, SystemOk, Total, Unexpired, Load;
    assert SkuTotals(s, one, line.sku) ==>
        Deliveries.RowTotal(s, FromKey(e, line)) == Deliveries.RowTotal(one, FromKey(e, line));
  }

  /**
   And the totals are those of one complete delivery exactly when every line has been moved a number of times that
   moves what one time does.
   */
  lemma RedeliveriesAreOne(sys: System, strategy: Strategy, e: TransferPosted, stops: seq<nat>)
    requires Finishes(sys, strategy, e)
    ensures var counts := TallyAfter(sys, e, NoneMovedYet(e), stops).counts;
            SameTotals(Redeliver(sys, strategy, e, stops), Complete(sys, strategy, e).sys) <==>
              forall i :: 0 <= i < |e.lines| ==> Gone(sys, e, e.lines[i], counts[i]) == Gone(sys, e, e.lines[i], 1)
  {
    hide Throws, SystemOk, MovedTimes, MovedOnce, HandleTransfer, SameStocks, Redeliver, Complete, SkuTotals,
         SameTotals, Gone, TallyAfter, DistinctLines;
    var s, one := Redeliver(sys, strategy, e, stops), Complete(sys, strategy, e).sys;
    var counts := TallyAfter(sys, e, NoneMovedYet(e), stops).counts;
    Redeliveries(sys, strategy, e, stops);
    NoneThrows(sys, strategy, e);
    forall sku | forall line :: line in e.lines ==> line.sku != sku ensures SkuTotals(s, one, sku) {
      SameStocksTotals(sys, s, sku);
      SameStocksTotals(sys, one, sku);
      TotalsTrans(sys, s, one, sku);
    }
    TotalsByLine(s, one, e.lines);
    forall i | 0 <= i < |e.lines|
      ensures SkuTotals(s, one, e.lines[i].sku) <==> Gone(sys, e, e.lines[i], counts[i]) == Gone(sys, e, e.lines[i], 1)
    {
      assert e.lines[i] in e.lines;
      LineLikeOne(sys, s, one, e, e.lines[i], counts[i]);
    }
  }
}
