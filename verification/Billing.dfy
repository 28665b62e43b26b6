/** The subscription aggregate, its billing periods and the half-open `Period`. */
module Billing {
  import opened Basics
  import opened Calendar

  datatype Status = Trial | Active | PastDue | Cancelled

  datatype BillingError =
    | InvalidTransition(from: Status, to: Status)
    | PaidUntilRequired
    | AlreadyCancelled
    | SamePlan
    | OutOfRange

  /** The fields of a subscription that change over its life. */
  datatype SubState = SubState(
    plan: string,
    status: Status,
    periodStart: int,
    nextBilling: int,
    trialEnds: Option<int>,
    cancelledAt: Option<int>,
    cancelReason: Option<string>,
    createdAt: int,
    updatedAt: int)

  datatype SubOp =
    | MarkActivated(now: int, paidUntil: Option<int>)
    | MarkPastDue(now: int)
    | Cancel(reason: string, now: int)
    | ChangePlan(newPlan: string, now: int)
    | AdvancePeriod(now: int)

  /** `plusMonths(1)` as the aggregate sees it: a value, or a thrown error. */
  function NextMonth(t: int): Result<int, BillingError> {
    if IsDateTime(AddMonths(t, 1)) then Ok(AddMonths(t, 1)) else Err(OutOfRange)
  }

  /** The meaning of each operation on the subscription's fields. */
  function Step(s: SubState, op: SubOp): Result<SubState, BillingError> {
    match op
    case MarkActivated(now, paidUntil) =>
      if s.status == Trial then
        match NextMonth(s.nextBilling) {
          case Err(e) => Err(e)
          case Ok(next) => Ok(s.(status := Active, trialEnds := None, nextBilling := next, updatedAt := now))
        }
      else if s.status == PastDue then
        match paidUntil {
          case None => Err(PaidUntilRequired)
          case Some(until) => Ok(s.(status := Active, nextBilling := until, updatedAt := now))
        }
      else Err(InvalidTransition(s.status, Active))
    case MarkPastDue(now) =>
      if s.status == Trial || s.status == Active then Ok(s.(status := PastDue, updatedAt := now))
      else Err(InvalidTransition(s.status, PastDue))
    case Cancel(reason, now) =>
      if s.status == Cancelled then Err(AlreadyCancelled)
      else Ok(s.(status := Cancelled, cancelledAt := Some(now), cancelReason := Some(reason), updatedAt := now))
    case ChangePlan(newPlan, now) =>
      if s.status == Cancelled then Err(AlreadyCancelled)
      else if s.plan == newPlan then Err(SamePlan)
      else Ok(s.(plan := newPlan, updatedAt := now))
    case AdvancePeriod(now) =>
      match NextMonth(s.nextBilling)
      case Err(e) => Err(e)
      case Ok(next) => Ok(s.(periodStart := s.nextBilling, nextBilling := next, updatedAt := now))
  }

  function StartedActive(plan: string, now: int): SubState {
    SubState(plan, Active, now, AddMonths(now, 1), None, None, None, now, now)
  }

  function StartedTrial(plan: string, trialEnds: int, now: int): SubState {
    SubState(plan, Trial, now, trialEnds, Some(trialEnds), None, None, now, now)
  }

  /** The aggregate: each method is one operation of Step, and changes nothing when it throws. */
  class Subscription {
    var plan: string
    var status: Status
    var periodStart: int
    var nextBilling: int
    var trialEnds: Option<int>
    var cancelledAt: Option<int>
    var cancelReason: Option<string>
    const createdAt: int
    var updatedAt: int

    constructor Restore(s: SubState)
      ensures State() == s
    {
      plan, status, periodStart, nextBilling := s.plan, s.status, s.periodStart, s.nextBilling;
      trialEnds, cancelledAt, cancelReason := s.trialEnds, s.cancelledAt, s.cancelReason;
      createdAt, updatedAt := s.createdAt, s.updatedAt;
    }

    function State(): SubState
      reads this
    {
      SubState(plan, status, periodStart, nextBilling, trialEnds, cancelledAt, cancelReason, createdAt, updatedAt)
    }

    /** What a method leaves behind, given the result of Step on the old state. */
    predicate Performed(r: Result<(), BillingError>, before: SubState, expected: Result<SubState, BillingError>)
      reads this
    {
      match expected
      case Ok(s) => r == Ok(()) && State() == s
      case Err(e) => r == Err(e) && State() == before
    }

    static method StartActive(plan: string, now: int) returns (r: Result<Subscription, BillingError>)
      requires IsDateTime(now)
      ensures r.Ok? <==> IsDateTime(AddMonths(now, 1))
      ensures r.Ok? ==> fresh(r.value) && r.value.State() == StartedActive(plan, now)
    {
      hide AddMonths;
      var next := PlusMonths(now, 1);
      if next.Err? {
        return Err(OutOfRange);
      }
      var sub := new Subscription.Restore(SubState(plan, Active, now, next.value, None, None, None, now, now));
      r := Ok(sub);
    }

    static method StartTrial(plan: string, trialDurationDays: Option<int>, now: int)
      returns (r: Result<Subscription, BillingError>)
      requires IsDateTime(now)
      ensures var ends := now + (if trialDurationDays.Some? then trialDurationDays.value else 14) * MS_PER_DAY;
              && (r.Ok? <==> IsDateTime(ends))
              && (r.Ok? ==> fresh(r.value) && r.value.State() == StartedTrial(plan, ends, now))
    {
      var trialDays := if trialDurationDays.Some? then trialDurationDays.value else 14;
      var ends := PlusDays(now, trialDays);
      if ends.Err? {
        return Err(OutOfRange);
      }
      var sub := new Subscription.Restore(
        SubState(plan, Trial, now, ends.value, Some(ends.value), None, None, now, now));
      r := Ok(sub);
    }

    method MarkActivated(now: int, paidUntil: Option<int>) returns (r: Result<(), BillingError>)
      requires IsDateTime(nextBilling)
      modifies this
      ensures Performed(r, old(State()), Step(old(State()), SubOp.MarkActivated(now, paidUntil)))
    {
      hide AddMonths;
      if status == Trial {
        var next := PlusMonths(nextBilling, 1);
        if next.Err? {
          return Err(OutOfRange);
        }
        status := Active;
        trialEnds := None;
        nextBilling := next.value;
        updatedAt := now;
        return Ok(());
      }
      if status == PastDue {
        if paidUntil.None? {
          return Err(PaidUntilRequired);
        }
        status := Active;
        nextBilling := paidUntil.value;
        updatedAt := now;
        return Ok(());
      }
      r := Err(InvalidTransition(status, Active));
    }

    method MarkPastDue(now: int) returns (r: Result<(), BillingError>)
      modifies this
      ensures Performed(r, old(State()), Step(old(State()), SubOp.MarkPastDue(now)))
    {
      if status != Trial && status != Active {
        return Err(InvalidTransition(status, PastDue));
      }
      status := PastDue;
      updatedAt := now;
      r := Ok(());
    }

    method Cancel(reason: string, now: int) returns (r: Result<(), BillingError>)
      modifies this
      ensures Performed(r, old(State()), Step(old(State()), SubOp.Cancel(reason, now)))
    {
      if status == Cancelled {
        return Err(AlreadyCancelled);
      }
      status := Cancelled;
      cancelledAt := Some(now);
      cancelReason := Some(reason);
      updatedAt := now;
      r := Ok(());
    }

    method ChangePlan(newPlan: string, now: int) returns (r: Result<(), BillingError>)
      modifies this
      ensures Performed(r, old(State()), Step(old(State()), SubOp.ChangePlan(newPlan, now)))
    {
      if status == Cancelled {
        return Err(AlreadyCancelled);
      }
      if plan == newPlan {
        return Err(SamePlan);
      }
      plan := newPlan;
      updatedAt := now;
      r := Ok(());
    }

    method AdvancePeriod(now: int) returns (r: Result<(), BillingError>)
      requires IsDateTime(nextBilling)
      modifies this
      ensures Performed(r, old(State()), Step(old(State()), SubOp.AdvancePeriod(now)))
    {
      hide AddMonths;
      var newPeriodStart := nextBilling;
      var newNextBilling := PlusMonths(nextBilling, 1);
      if newNextBilling.Err? {
        return Err(OutOfRange);
      }
      periodStart := newPeriodStart;
      nextBilling := newNextBilling.value;
      updatedAt := now;
      r := Ok(());
    }
  }

  // ---------------------------------------------------------------- periods

  /** A half-open interval; the source's constructor demands end after start. */
  datatype Period = Period(startedAt: int, endsAt: int) {
    predicate Valid() {
      endsAt > startedAt
    }

    predicate Contains(t: int) {
      !(t < startedAt) && t < endsAt
    }
  }

  /** Periods laid end to end from one instant to another. */
  predicate Chain(ps: seq<Period>, from: int, to: int) {
    if ps == [] then from == to
    else ps[0].startedAt == from && ps[0].Valid() && Chain(ps[1..], ps[0].endsAt, to)
  }

  /** The same without the demand that each period is valid. */
  predicate Linked(ps: seq<Period>, from: int, to: int) {
    if ps == [] then from == to else ps[0].startedAt == from && Linked(ps[1..], ps[0].endsAt, to)
  }

  lemma {:induction false} ChainIsLinked(ps: seq<Period>, from: int, to: int)
    ensures Chain(ps, from, to) <==> Linked(ps, from, to) && forall i :: 0 <= i < |ps| ==> ps[i].Valid()
  {
    if ps != [] {
      ChainIsLinked(ps[1..], ps[0].endsAt, to);
      assert forall i :: 0 < i < |ps| ==> ps[i] == ps[1..][i - 1];
      assert forall i :: 0 <= i < |ps[1..]| ==> ps[1..][i] == ps[i + 1];
    }
  }

  lemma {:induction false} ChainOrdered(ps: seq<Period>, from: int, to: int)
    requires Chain(ps, from, to)
    ensures from <= to
    ensures forall i :: 0 <= i < |ps| ==> from <= ps[i].startedAt && ps[i].endsAt <= to
  {
    if ps != [] {
      ChainOrdered(ps[1..], ps[0].endsAt, to);
      forall i | 0 <= i < |ps| ensures from <= ps[i].startedAt && ps[i].endsAt <= to {
        if i > 0 {
          assert ps[i] == ps[1..][i - 1];
        }
      }
    }
  }

  /** Every instant of the range lies in exactly one period of the chain, every other instant in none. */
  lemma {:induction false} ChainTiles(ps: seq<Period>, from: int, to: int, t: int)
    requires Chain(ps, from, to)
    ensures from <= t < to ==> exists i :: 0 <= i < |ps| && ps[i].Contains(t)
    ensures !(from <= t < to) ==> forall i :: 0 <= i < |ps| ==> !ps[i].Contains(t)
    ensures forall i, j :: 0 <= i < j < |ps| ==> !(ps[i].Contains(t) && ps[j].Contains(t))
  {
    ChainOrdered(ps, from, to);
    if ps != [] {
      var rest := ps[1..];
      ChainTiles(rest, ps[0].endsAt, to, t);
      ChainOrdered(rest, ps[0].endsAt, to);
      assert forall i :: 0 < i < |ps| ==> ps[i] == rest[i - 1];
      if ps[0].endsAt <= t < to {
        var k :| 0 <= k < |rest| && rest[k].Contains(t);
        assert ps[k + 1].Contains(t);
      } else if from <= t < to {
        assert ps[0].Contains(t);
      }
    }
  }

  // ---------------------------------------------------------------- whole lives

  /** An operation that throws leaves the subscription as it was. */
  function Apply(s: SubState, op: SubOp): SubState {
    match Step(s, op)
    case Ok(s') => s'
    case Err(_) => s
  }

  function Run(s: SubState, ops: seq<SubOp>): SubState
    decreases |ops|
  {
    if ops == [] then s else Run(Apply(s, ops[0]), ops[1..])
  }

  predicate IsClosing(s: SubState, op: SubOp) {
    op.AdvancePeriod? && Step(s, op).Ok?
  }

  /** The period that an operation closes, if it closes one. */
  function Closes(s: SubState, op: SubOp): seq<Period> {
    if IsClosing(s, op) then [Period(s.periodStart, s.nextBilling)] else []
  }

  function ClosedPeriods(s: SubState, ops: seq<SubOp>): seq<Period>
    decreases |ops|
  {
    if ops == [] then [] else Closes(s, ops[0]) + ClosedPeriods(Apply(s, ops[0]), ops[1..])
  }

  /** All periods of a life: those closed, then the current one. */
  function Periods(s: SubState, ops: seq<SubOp>): seq<Period> {
    var last := Run(s, ops);
    ClosedPeriods(s, ops) + [Period(last.periodStart, last.nextBilling)]
  }

  predicate Current(s: SubState) {
    s.periodStart < s.nextBilling && IsDateTime(s.nextBilling)
  }

  lemma NextMonthLater(t: int)
    ensures t < AddMonths(t, 1)
  {
    hide AddMonths;
    OneMonthIsDays(t);
  }

  /**
   One period of a life: when it began, and up to when the last reactivation during it paid, if any. A first
   period that was not begun with an end after its start counts as paid up to that end, which the activation
   of a trial puts off by a month.
   */
  datatype Settlement = Settlement(start: int, paid: Option<int>)

  /** Up to when the current period is paid after an operation. */
  function PaidAfter(s: SubState, op: SubOp, paid: Option<int>): Option<int> {
    if op.AdvancePeriod? && Step(s, op).Ok? then None
    else if op.MarkActivated? && s.status == PastDue && op.paidUntil.Some? then op.paidUntil
    else if op.MarkActivated? && s.status == Trial && Step(s, op).Ok? && paid.Some? then Some(AddMonths(paid.value, 1))
    else paid
  }

  function Settlements(s: SubState, ops: seq<SubOp>, paid: Option<int>): seq<Settlement>
    decreases |ops|
  {
    if ops == [] then [Settlement(s.periodStart, paid)]
    else
      (if IsClosing(s, ops[0]) then [Settlement(s.periodStart, paid)] else [])
      + Settlements(Apply(s, ops[0]), ops[1..], PaidAfter(s, ops[0], paid))
  }

  /** A first period that is not empty is unpaid; one that a trial of no days leaves empty counts as paid to its end. */
  function Opening(s: SubState): Option<int> {
    if s.periodStart < s.nextBilling then None else Some(s.nextBilling)
  }

  /** Unpaid periods are not empty; a paid one ends where the payment does. */
  predicate Accounts(s: SubState, paid: Option<int>) {
    match paid
    case None => s.periodStart < s.nextBilling
    case Some(until) => s.nextBilling == until
  }

  lemma AccountsKept(s: SubState, op: SubOp, paid: Option<int>)
    requires Accounts(s, paid)
    ensures Accounts(Apply(s, op), PaidAfter(s, op, paid))
  {
    hide AddMonths;
    NextMonthLater(s.nextBilling);
  }

  predicate Describes(x: Settlement, p: Period) {
    p.startedAt == x.start && (if x.paid.None? then p.Valid() else p.endsAt == x.paid.value)
  }

  /** Each settlement describes its period, and each period begins where the one before it ends. */
  lemma {:induction false} SettlementsDescribe(s: SubState, ops: seq<SubOp>, paid: Option<int>)
    requires Accounts(s, paid)
    ensures var ps, xs := Periods(s, ops), Settlements(s, ops, paid);
            && |xs| == |ps| && (forall i :: 0 <= i < |ps| ==> Describes(xs[i], ps[i]))
            && Linked(ps, s.periodStart, Run(s, ops).nextBilling)
    decreases |ops|
  {
    hide Apply, Step, PaidAfter;
    if ops == [] {
      assert Periods(s, ops) == [Period(s.periodStart, s.nextBilling)];
      assert Periods(s, ops)[1..] == [];
    } else {
      var s', rest := Apply(s, ops[0]), Periods(Apply(s, ops[0]), ops[1..]);
      AccountsKept(s, ops[0], paid);
      SettlementsDescribe(s', ops[1..], PaidAfter(s, ops[0], paid));
      assert Periods(s, ops) == Closes(s, ops[0]) + rest;
      PeriodMoves(s, ops[0]);
      if IsClosing(s, ops[0]) {
        assert Periods(s, ops)[1..] == rest;
      } else {
        assert Periods(s, ops) == rest;
      }
    }
  }

  /** Only a closed period moves the start, to where the closed one ends. */
  lemma PeriodMoves(s: SubState, op: SubOp)
    ensures Apply(s, op).periodStart == if IsClosing(s, op) then s.nextBilling else s.periodStart
  {
    hide AddMonths;
  }

  predicate PaidPast(x: Settlement) {
    x.paid.Some? ==> x.start < x.paid.value
  }

  /**
   The periods of a life are valid and lie end to end exactly when in each period the last
   reactivation, if there was one, paid past the start of the period; so a short payment does no harm
   when a later one corrects it before the period closes.
   */
  lemma LifeIsChain(s: SubState, ops: seq<SubOp>)
    ensures Chain(Periods(s, ops), s.periodStart, Run(s, ops).nextBilling)
       <==> forall x :: x in Settlements(s, ops, Opening(s)) ==> PaidPast(x)
  {
    var ps, xs := Periods(s, ops), Settlements(s, ops, Opening(s));
    SettlementsDescribe(s, ops, Opening(s));
    ChainIsLinked(ps, s.periodStart, Run(s, ops).nextBilling);
    hide Run, Periods, Settlements, Chain, Linked;
    forall i | 0 <= i < |ps| ensures ps[i].Valid() <==> PaidPast(xs[i]) {
      assert Describes(xs[i], ps[i]);
    }
    assert forall i :: 0 <= i < |xs| ==> xs[i] in xs;
  }

  // ---------------------------------------------------------------- tiling

  /** An instant lies in exactly one period when it is within the range, and otherwise in none. */
  ghost predicate TiledAt(ps: seq<Period>, from: int, to: int, t: int) {
    && ((exists i :: 0 <= i < |ps| && ps[i].Contains(t)) <==> from <= t < to)
    && (forall i, j :: 0 <= i < j < |ps| ==> !(ps[i].Contains(t) && ps[j].Contains(t)))
  }

  /** How many periods run over an instant, and how many run backwards over it. */
  function Over(ps: seq<Period>, t: int): nat {
    if ps == [] then 0 else (if ps[0].Contains(t) then 1 else 0) + Over(ps[1..], t)
  }

  function Back(ps: seq<Period>, t: int): nat {
    if ps == [] then 0 else (if ps[0].endsAt <= t < ps[0].startedAt then 1 else 0) + Back(ps[1..], t)
  }

  function Since(a: int, t: int): int {
    if a <= t then 1 else 0
  }

  lemma {:induction false} Telescopes(ps: seq<Period>, from: int, to: int, t: int)
    requires Linked(ps, from, to)
    ensures Over(ps, t) - Back(ps, t) == Since(from, t) - Since(to, t)
  {
    if ps != [] {
      Telescopes(ps[1..], ps[0].endsAt, to, t);
    }
  }

  lemma {:induction false} OverCounts(ps: seq<Period>, t: int)
    ensures Over(ps, t) == 0 <==> forall i :: 0 <= i < |ps| ==> !ps[i].Contains(t)
    ensures Over(ps, t) <= 1 <==> forall i, j :: 0 <= i < j < |ps| ==> !(ps[i].Contains(t) && ps[j].Contains(t))
  {
    if ps != [] {
      var rest := ps[1..];
      OverCounts(rest, t);
      assert forall i :: 0 < i < |ps| ==> ps[i] == rest[i - 1];
      assert forall i :: 0 <= i < |rest| ==> rest[i] == ps[i + 1];
    }
  }

  lemma {:induction false} BackCounts(ps: seq<Period>, t: int)
    ensures Back(ps, t) == 0 <==> forall i :: 0 <= i < |ps| ==> !(ps[i].endsAt <= t < ps[i].startedAt)
  {
    if ps != [] {
      var rest := ps[1..];
      BackCounts(rest, t);
      assert forall i :: 0 < i < |ps| ==> ps[i] == rest[i - 1];
      assert forall i :: 0 <= i < |rest| ==> rest[i] == ps[i + 1];
    }
  }

  lemma TiledWhen(ps: seq<Period>, from: int, to: int, t: int)
    requires Linked(ps, from, to)
    ensures TiledAt(ps, from, to, t) <==> if from <= to then Back(ps, t) == 0 else Over(ps, t) == 0
  {
    Telescopes(ps, from, to, t);
    OverCounts(ps, t);
  }

  /** Linked periods tile their range exactly when none runs backwards, or, over an empty range, when all do. */
  lemma LinkedTiles(ps: seq<Period>, from: int, to: int)
    requires Linked(ps, from, to)
    ensures (forall t :: TiledAt(ps, from, to, t))
       <==> if from <= to then forall p :: p in ps ==> p.startedAt <= p.endsAt
            else forall p :: p in ps ==> p.endsAt <= p.startedAt
  {
    hide Linked, TiledAt, Over, Back;
    forall t ensures TiledAt(ps, from, to, t) <==> if from <= to then Back(ps, t) == 0 else Over(ps, t) == 0 {
      TiledWhen(ps, from, to, t);
    }
    forall t
      ensures Back(ps, t) == 0 <==> forall i :: 0 <= i < |ps| ==> !(ps[i].endsAt <= t < ps[i].startedAt)
      ensures Over(ps, t) == 0 <==> forall i :: 0 <= i < |ps| ==> !ps[i].Contains(t)
    {
      BackCounts(ps, t);
      OverCounts(ps, t);
    }
    if forall t :: TiledAt(ps, from, to, t) {
      forall i | 0 <= i < |ps|
        ensures if from <= to then ps[i].startedAt <= ps[i].endsAt else ps[i].endsAt <= ps[i].startedAt
      {
        assert TiledAt(ps, from, to, if from <= to then ps[i].endsAt else ps[i].startedAt);
      }
    } else {
      var t :| !TiledAt(ps, from, to, t);
      if from <= to {
        var i :| 0 <= i < |ps| && ps[i].endsAt <= t < ps[i].startedAt;
        assert ps[i] in ps;
      } else {
        var i :| 0 <= i < |ps| && ps[i].Contains(t);
        assert ps[i] in ps;
      }
    }
  }

  /** A reactivation that pays back to the very start of its period leaves an empty period, which still tiles. */
  predicate PaidUpTo(x: Settlement) {
    x.paid.Some? ==> x.start <= x.paid.value
  }

  predicate PaidNothing(x: Settlement) {
    x.paid.Some? && x.paid.value <= x.start
  }

  /**
   Billing periods tile time, over any life, begun with any trial or active, whatever operations follow and
   whichever of them throw: each instant from the first period start to the next billing date
   lies in exactly one period and every other instant in none, exactly when no period's last
   reactivation paid only to an instant before its start. (Over a life that ends before it began, when
   every period was paid for nothing.)
   */
  lemma PeriodsTile(s: SubState, ops: seq<SubOp>)
    ensures var from, to, xs := s.periodStart, Run(s, ops).nextBilling, Settlements(s, ops, Opening(s));
            (forall t :: TiledAt(Periods(s, ops), from, to, t))
              <==> (if from <= to then forall x :: x in xs ==> PaidUpTo(x) else forall x :: x in xs ==> PaidNothing(x))
  {
    var ps, xs := Periods(s, ops), Settlements(s, ops, Opening(s));
    SettlementsDescribe(s, ops, Opening(s));
    LinkedTiles(ps, s.periodStart, Run(s, ops).nextBilling);
    hide Run, Periods, Settlements, Linked, TiledAt;
    forall i | 0 <= i < |ps|
      ensures ps[i].startedAt <= ps[i].endsAt <==> PaidUpTo(xs[i])
      ensures ps[i].endsAt <= ps[i].startedAt <==> PaidNothing(xs[i])
    {
      assert Describes(xs[i], ps[i]);
    }
    assert forall i :: 0 <= i < |xs| ==> xs[i] in xs && ps[i] in ps;
  }

  /** Both ways of starting begin with a non-empty period (a trial needs at least a day). */
  lemma StartsCurrent(plan: string, now: int, days: int)
    ensures IsDateTime(AddMonths(now, 1)) ==> Current(StartedActive(plan, now))
    ensures (days >= 1 && IsDateTime(now + days * MS_PER_DAY)) ==>
              Current(StartedTrial(plan, now + days * MS_PER_DAY, now))
  {
    hide AddMonths;
    NextMonthLater(now);
  }

  /**
   No life returns to its trial, and a cancelled one stays cancelled with its plan and its reason;
   only its period can still advance.
   */
  lemma {:induction false} CancelledForever(s: SubState, ops: seq<SubOp>)
    ensures Run(s, ops).status == Trial ==> s.status == Trial
    ensures s.status == Cancelled ==>
              var last := Run(s, ops);
              && last ==
                 s.(periodStart := last.periodStart, nextBilling := last.nextBilling, updatedAt := last.updatedAt)
    decreases |ops|
  {
    hide AddMonths;
    if ops != [] {
      CancelledForever(Apply(s, ops[0]), ops[1..]);
    }
  }

  /** A cancelled subscription is still advanced, whenever the next date is in range: its period moves on. */
  lemma CancelledAdvances(s: SubState, now: int)
    requires s.status == Cancelled && s.periodStart < s.nextBilling
    ensures var s' := Apply(s, AdvancePeriod(now));
            && s'.status == Cancelled
            && (if IsDateTime(AddMonths(s.nextBilling, 1))
                then s.periodStart < s'.periodStart == s.nextBilling < s'.nextBilling == AddMonths(s.nextBilling, 1)
                else s' == s)
  {
    hide AddMonths;
    NextMonthLater(s.nextBilling);
  }

  /** The number of advances that succeed. */
  function Advances(s: SubState, ops: seq<SubOp>): nat
    decreases |ops|
  {
    if ops == [] then 0 else |Closes(s, ops[0])| + Advances(Apply(s, ops[0]), ops[1..])
  }

  /**
   With no activation in between, a life that starts active holds the k-th and (k+1)-th monthly
   boundary after k successful advances, whatever else happens to it.
   */
  lemma {:induction false} BillingDates(s: SubState, ops: seq<SubOp>, start: int, k: nat)
    requires forall op :: op in ops ==> !op.MarkActivated?
    ensures s.periodStart == Boundary(start, k) && s.nextBilling == Boundary(start, k + 1) ==>
              && Run(s, ops).periodStart == Boundary(start, k + Advances(s, ops))
              && Run(s, ops).nextBilling == Boundary(start, k + Advances(s, ops) + 1)
    decreases |ops|
  {
    hide AddMonths;
    if ops != [] {
      var s' := Apply(s, ops[0]);
      assert ops[0] in ops && forall op :: op in ops[1..] ==> op in ops;
      BillingDates(s', ops[1..], start, k + |Closes(s, ops[0])|);
    }
  }

  /**
   After k advances from startActive the next billing date is k + 1 months after the start, at the
   same time of day, on the least of the start day and the lengths of the months visited.
   */
  lemma NextBillingDate(plan: string, now: int, ops: seq<SubOp>)
    requires forall op :: op in ops ==> !op.MarkActivated?
    ensures var s := StartedActive(plan, now);
            var k := Advances(s, ops);
            var next := Run(s, ops).nextBilling;
            && Run(s, ops).periodStart == Boundary(now, k) < next == Boundary(now, k + 1)
            && MonthIndex(next) == MonthIndex(now) + k + 1
            && TimeWithinDay(next) == TimeWithinDay(now)
            && DayOfMonth(next) <= DayOfMonth(now)
            && (forall m :: MonthIndex(now) < m <= MonthIndex(now) + k + 1 ==> DayOfMonth(next) <= MonthLength(m))
            && (DayOfMonth(next) == DayOfMonth(now)
                || exists m :: MonthIndex(now) < m <= MonthIndex(now) + k + 1 && DayOfMonth(next) == MonthLength(m))
  {
    hide AddMonths, MonthIndex, DayOfMonth, TimeWithinDay, MonthLength, Step;
    var s := StartedActive(plan, now);
    assert Boundary(now, 0) == now && Boundary(now, 1) == AddMonths(Boundary(now, 0), 1);
    BillingDates(s, ops, now, 0);
    BoundaryFields(now, Advances(s, ops) + 1);
    BoundaryIncreases(now, Advances(s, ops));
  }
}
