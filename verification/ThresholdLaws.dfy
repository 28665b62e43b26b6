/** The low-stock and out-of-stock events of consumptions: when one raises them, and how often a run does. */
module ThresholdLaws {
  import opened Basics
  import opened StockTypes
  import opened BatchSelection
  import opened StockSpec
  import StockEffects
  import StockLaws

  /** The threshold events of an accepted consumption, as `Consume` appends them. */
  function Raised(s: StockState, amount: real, strategy: Strategy, at: int): seq<StockEvent> {
    ThresholdEvents(Total(s), Total(Withdrawn(s, amount, strategy, at)), s.reorderLevel.amount)
  }

  /**
   An accepted consumption raises out-of-stock exactly when nothing at all is left, and low stock exactly when
   something is, that has just reached or passed the reorder level; it tells how much is left. Expired stock counts
   as left.
   */
  lemma WhenRaised(s: StockState, amount: Quantity, strategy: Strategy, at: int)
    requires StateOk(s) && amount.amount >= 0.0 && WithdrawError(s, amount).None?
    ensures var raised := Raised(s, amount.amount, strategy, at);
            var before, left := Total(s), Total(s) - MinReal(amount.amount, Unexpired(s, at));
            && left == Total(Withdrawn(s, amount.amount, strategy, at)) >= 0.0
            && (OutOfStockReached in raised <==> left == 0.0)
            && (forall x :: LowStockReached(x) in raised <==> 0.0 < x == left <= s.reorderLevel.amount < before)
            && (forall e :: e in raised ==> e.OutOfStockReached? || e.LowStockReached?) && |raised| <= 1
  {
    hide Total, Unexpired, StateOk, Withdrawn, ThresholdEvents;
    StockEffects.WithdrawnTotal(s, amount.amount, strategy, at);
    StockEffects.UnexpiredBounds(s, at);
    WhichEvents(Total(s), Total(Withdrawn(s, amount.amount, strategy, at)), s.reorderLevel.amount);
  }

  lemma WhichEvents(before: real, after: real, level: real)
    requires after >= 0.0
    ensures var raised := ThresholdEvents(before, after, level);
            && (OutOfStockReached in raised <==> after == 0.0)
            && (forall x :: LowStockReached(x) in raised <==> 0.0 < x == after <= level < before)
            && (forall e :: e in raised ==> e.OutOfStockReached? || e.LowStockReached?) && |raised| <= 1
  {
  }

  // ---------------------------------------------------------------- runs of consumptions

  datatype Request = Request(amount: Quantity, at: int)

  function After(s: StockState, q: Request, strategy: Strategy): StockState {
    match Consumed(s, q.amount, strategy, q.at)
    case Ok(s') => s'
    case Err(_) => s
  }

  /** The threshold events of a run; a refused consumption raises none. */
  function RaisedBy(s: StockState, requests: seq<Request>, strategy: Strategy): seq<StockEvent>
    decreases |requests|
  {
    if requests == [] then []
    else
      (if WithdrawError(s, requests[0].amount).Some? then []
       else Raised(s, requests[0].amount.amount, strategy, requests[0].at))
      + RaisedBy(After(s, requests[0], strategy), requests[1..], strategy)
  }

  /** The totals a run goes through, the first not included. */
  function Totals(s: StockState, requests: seq<Request>, strategy: Strategy): seq<real>
    decreases |requests|
  {
    if requests == [] then []
    else
      var s' := After(s, requests[0], strategy);
      [Total(s')] + Totals(s', requests[1..], strategy)
  }

  function Lows(events: seq<StockEvent>): nat {
    if events == [] then 0 else (if events[0].LowStockReached? then 1 else 0) + Lows(events[1..])
  }

  lemma {:induction false} LowsAppend(xs: seq<StockEvent>, ys: seq<StockEvent>)
    ensures Lows(xs + ys) == Lows(xs) + Lows(ys)
  {
    if xs == [] {
      assert xs + ys == ys;
    } else {
      LowsAppend(xs[1..], ys);
      assert (xs + ys)[1..] == xs[1..] + ys;
    }
  }

  /** The first total at or under the level is not zero: the stock stops there on its way down. */
  predicate StopsUnder(totals: seq<real>, level: real) {
    exists i :: 0 <= i < |totals| && 0.0 < totals[i] <= level && forall j :: 0 <= j < i ==> totals[j] > level
  }

  lemma StopsUnderCons(x: real, totals: seq<real>, level: real)
    ensures StopsUnder([x] + totals, level) <==> if x <= level then 0.0 < x else StopsUnder(totals, level)
  {
    var all := [x] + totals;
    if x <= level {
      if 0.0 < x {
        assert all[0] == x;
      }
    } else {
      if StopsUnder(totals, level) {
        var i :| 0 <= i < |totals| && 0.0 < totals[i] <= level && forall j :: 0 <= j < i ==> totals[j] > level;
        assert all[i + 1] == totals[i] && forall j :: 0 < j < i + 1 ==> all[j] == totals[j - 1];
      }
      if StopsUnder(all, level) {
        var i :| 0 <= i < |all| && 0.0 < all[i] <= level && forall j :: 0 <= j < i ==> all[j] > level;
        assert totals[i - 1] == all[i] && forall j :: 0 <= j < i - 1 ==> totals[j] == all[j + 1];
      }
    }
  }

  lemma OneConsumption(s: StockState, q: Request, strategy: Strategy)
    requires StateOk(s) && q.amount.amount >= 0.0
    ensures var s', level := After(s, q, strategy), s.reorderLevel.amount;
            && StateOk(s') && s'.reorderLevel == s.reorderLevel && 0.0 <= Total(s') <= Total(s)
            && (WithdrawError(s, q.amount).None? ==>
                  Lows(Raised(s, q.amount.amount, strategy, q.at))
                    == if 0.0 < Total(s') <= level < Total(s) then 1 else 0)
            && (WithdrawError(s, q.amount).Some? ==> s' == s)
  {
    StockLaws.WithdrawnOk(s, q.amount.amount, strategy, q.at);
    StockEffects.WithdrawnTotal(s, q.amount.amount, strategy, q.at);
    StockEffects.UnexpiredBounds(s, q.at);
    hide Total, Unexpired, StateOk, WithdrawError, Chosen, Drained;
  }

  /**
   With a fixed reorder level low stock is reported at most once, however many consumptions follow, and exactly when
   the stock, on its way down from above the level, stops at or under it with something left.
   */
  lemma {:induction false} LowStockOnce(s: StockState, requests: seq<Request>, strategy: Strategy)
    requires StateOk(s) && forall q :: q in requests ==> q.amount.amount >= 0.0
    ensures Lows(RaisedBy(s, requests, strategy))
         == if Total(s) > s.reorderLevel.amount && StopsUnder(Totals(s, requests, strategy), s.reorderLevel.amount)
            then 1 else 0
    decreases |requests|
  {
    hide StateOk, Total, After, Raised, WithdrawError, StopsUnder, Lows;
    if requests == [] {
      NothingRaised(s.reorderLevel.amount);
    } else {
      var q, rest := requests[0], requests[1..];
      var s' := After(s, q, strategy);
      assert q in requests && forall x :: x in rest ==> x in requests;
      NothingRaised(s.reorderLevel.amount);
      OneConsumption(s, q, strategy);
      LowStockOnce(s', rest, strategy);
      StopsUnderCons(Total(s'), Totals(s', rest, strategy), s.reorderLevel.amount);
      LowsAppend(if WithdrawError(s, q.amount).Some? then [] else Raised(s, q.amount.amount, strategy, q.at),
                 RaisedBy(s', rest, strategy));
    }
  }

  lemma NothingRaised(level: real)
    ensures Lows([]) == 0 && !StopsUnder([], level)
  {
  }
}
