/**
 A subscription is what its history says: after any life each field is told by the operations that were accepted,
 read back from the last, and so is which operation is refused next, and why.
 */
module SubscriptionHistory {
  import opened Basics
  import opened Calendar
  import opened Billing

  /** An accepted operation, with the status it found. */
  datatype Entry = Entry(found: Status, op: SubOp)

  /** The operations of a life that did not throw. */
  function History(s: SubState, ops: seq<SubOp>): seq<Entry>
    decreases |ops|
  {
    if ops == [] then []
    else
      var before := Run(s, ops[..|ops| - 1]);
      History(s, ops[..|ops| - 1])
      + if Step(before, ops[|ops| - 1]).Ok? then [Entry(before.status, ops[|ops| - 1])] else []
  }

  // ---------------------------------------------------------------- what a history tells, from its last entry back

  /** The status that the last activation, past-due mark or cancellation gave. */
  function LastStatus(first: Status, h: seq<Entry>): Status {
    if h == [] then first
    else
      match h[|h| - 1].op
      case MarkActivated(_, _) => Active
      case MarkPastDue(_) => PastDue
      case Cancel(_, _) => Cancelled
      case _ => LastStatus(first, h[..|h| - 1])
  }

  function LastPlan(first: string, h: seq<Entry>): string {
    if h == [] then first
    else if h[|h| - 1].op.ChangePlan? then h[|h| - 1].op.newPlan
    else LastPlan(first, h[..|h| - 1])
  }

  function CancelledFor(first: Option<string>, h: seq<Entry>): Option<string> {
    if h == [] then first
    else if h[|h| - 1].op.Cancel? then Some(h[|h| - 1].op.reason)
    else CancelledFor(first, h[..|h| - 1])
  }

  function CancelledOn(first: Option<int>, h: seq<Entry>): Option<int> {
    if h == [] then first
    else if h[|h| - 1].op.Cancel? then Some(h[|h| - 1].op.now)
    else CancelledOn(first, h[..|h| - 1])
  }

  function LastTime(first: int, h: seq<Entry>): int {
    if h == [] then first else h[|h| - 1].op.now
  }

  /**
   The next billing date: what the last payment of a past-due subscription paid to, or the first date, and one
   calendar month for each advance and each activation of a trial since.
   */
  function BilledTo(first: int, h: seq<Entry>): int {
    if h == [] then first
    else
      var e, before := h[|h| - 1], BilledTo(first, h[..|h| - 1]);
      match e.op
      case AdvancePeriod(_) => AddMonths(before, 1)
      case MarkActivated(_, paidUntil) =>
        if e.found == Trial then AddMonths(before, 1) else if paidUntil.Some? then paidUntil.value else before
      case _ => before
  }

  /** The period starts where the last advance found the billing date. */
  function PeriodFrom(first: int, billing: int, h: seq<Entry>): int {
    if h == [] then first
    else if h[|h| - 1].op.AdvancePeriod? then BilledTo(billing, h[..|h| - 1])
    else PeriodFrom(first, billing, h[..|h| - 1])
  }

  /** The trial is over once it was activated. */
  predicate TrialUsed(h: seq<Entry>) {
    exists i :: 0 <= i < |h| && h[i].op.MarkActivated? && h[i].found == Trial
  }

  /** What each operation may find. */
  predicate MayFollow(status: Status, op: SubOp) {
    match op
    case MarkActivated(_, paidUntil) => status == Trial || (status == PastDue && paidUntil.Some?)
    case MarkPastDue(_) => status == Trial || status == Active
    case Cancel(_, _) => status != Cancelled
    case ChangePlan(_, _) => status != Cancelled
    case AdvancePeriod(_) => true
  }

  /** Every field of a subscription, told by its history. */
  predicate Tells(s: SubState, h: seq<Entry>, t: SubState) {
    && t.status == LastStatus(s.status, h)
    && t.plan == LastPlan(s.plan, h)
    && t.cancelReason == CancelledFor(s.cancelReason, h)
    && t.cancelledAt == CancelledOn(s.cancelledAt, h)
    && t.updatedAt == LastTime(s.updatedAt, h) && t.createdAt == s.createdAt
    && t.trialEnds == (if TrialUsed(h) then None else s.trialEnds)
    && t.nextBilling == BilledTo(s.nextBilling, h)
    && t.periodStart == PeriodFrom(s.periodStart, s.nextBilling, h)
  }

  /** Each entry found the status that the entries before it tell, and was allowed there. */
  predicate InOrder(first: Status, h: seq<Entry>) {
    forall i :: 0 <= i < |h| ==> h[i].found == LastStatus(first, h[..i]) && MayFollow(h[i].found, h[i].op)
  }

  // ---------------------------------------------------------------- the life is its history

  lemma {:induction false} RunSnoc(s: SubState, ops: seq<SubOp>, op: SubOp)
    ensures Run(s, ops + [op]) == Apply(Run(s, ops), op)
    decreases |ops|
  {
    hide Apply;
    if ops == [] {
      assert [] + [op] == [op] && [op][1..] == [];
    } else {
      assert (ops + [op])[1..] == ops[1..] + [op];
      RunSnoc(Apply(s, ops[0]), ops[1..], op);
    }
  }

  lemma TrialUsedSnoc(h: seq<Entry>, e: Entry)
    ensures TrialUsed(h + [e]) <==> TrialUsed(h) || (e.op.MarkActivated? && e.found == Trial)
  {
    if TrialUsed(h) {
      var i :| 0 <= i < |h| && h[i].op.MarkActivated? && h[i].found == Trial;
      assert (h + [e])[i] == h[i];
    }
    if e.op.MarkActivated? && e.found == Trial {
      assert (h + [e])[|h|] == e;
    }
  }

  // What one more entry adds to each telling.

  lemma StatusSnoc(first: Status, h: seq<Entry>, e: Entry)
    ensures LastStatus(first, h + [e])
         == if e.op.MarkActivated? then Active else if e.op.MarkPastDue? then PastDue
            else if e.op.Cancel? then Cancelled else LastStatus(first, h)
  {
    assert (h + [e])[..|h + [e]| - 1] == h;
  }

  lemma PlanSnoc(plan: string, reason: Option<string>, on: Option<int>, time: int, h: seq<Entry>, e: Entry)
    ensures LastPlan(plan, h + [e]) == if e.op.ChangePlan? then e.op.newPlan else LastPlan(plan, h)
    ensures CancelledFor(reason, h + [e]) == if e.op.Cancel? then Some(e.op.reason) else CancelledFor(reason, h)
    ensures CancelledOn(on, h + [e]) == if e.op.Cancel? then Some(e.op.now) else CancelledOn(on, h)
    ensures LastTime(time, h + [e]) == e.op.now
  {
    assert (h + [e])[..|h + [e]| - 1] == h;
  }

  lemma BilledSnoc(start: int, first: int, h: seq<Entry>, e: Entry)
    ensures BilledTo(first, h + [e])
         == if e.op.AdvancePeriod? || (e.op.MarkActivated? && e.found == Trial) then AddMonths(BilledTo(first, h), 1)
            else if e.op.MarkActivated? && e.op.paidUntil.Some? then e.op.paidUntil.value
            else BilledTo(first, h)
    ensures PeriodFrom(start, first, h + [e])
         == if e.op.AdvancePeriod? then BilledTo(first, h) else PeriodFrom(start, first, h)
  {
    hide AddMonths;
    assert (h + [e])[..|h + [e]| - 1] == h;
  }

  /** One more accepted operation. */
  lemma TellsSnoc(s: SubState, h: seq<Entry>, t: SubState, op: SubOp)
    requires Tells(s, h, t) && Step(t, op).Ok?
    ensures Tells(s, h + [Entry(t.status, op)], Step(t, op).value) && MayFollow(t.status, op)
  {
    hide AddMonths, TrialUsed, LastStatus, LastPlan, CancelledFor, CancelledOn, LastTime, BilledTo, PeriodFrom;
    var e := Entry(t.status, op);
    StatusSnoc(s.status, h, e);
    PlanSnoc(s.plan, s.cancelReason, s.cancelledAt, s.updatedAt, h, e);
    BilledSnoc(s.periodStart, s.nextBilling, h, e);
    TrialUsedSnoc(h, e);
  }

  lemma OrderSnoc(first: Status, h: seq<Entry>, e: Entry)
    requires InOrder(first, h) && e.found == LastStatus(first, h) && MayFollow(e.found, e.op)
    ensures InOrder(first, h + [e])
  {
    hide LastStatus, MayFollow;
    assert (h + [e])[..|h|] == h;
    assert forall i :: 0 <= i < |h| ==> (h + [e])[i] == h[i] && (h + [e])[..i] == h[..i];
  }

  /**
   After any life, whichever operations threw, every field is what the accepted operations tell: the last of them for
   the status, the plan and the cancellation, the months counted since the last payment for the billing date.
   */
  lemma {:induction false} LifeIsHistory(s: SubState, ops: seq<SubOp>)
    ensures Tells(s, History(s, ops), Run(s, ops)) && InOrder(s.status, History(s, ops))
    decreases |ops|
  {
    hide Run, Step, Tells, InOrder, History, LastStatus, MayFollow;
    if ops == [] {
      Untouched(s);
    } else {
      var init, op := ops[..|ops| - 1], ops[|ops| - 1];
      var before, h := Run(s, init), History(s, init);
      LifeIsHistory(s, init);
      assert ops == init + [op];
      RunSnoc(s, init, op);
      HistorySnoc(s, init, op);
      if Step(before, op).Ok? {
        TellsSnoc(s, h, before, op);
        StatusTold(s, h, before);
        OrderSnoc(s.status, h, Entry(before.status, op));
      }
    }
  }

  lemma HistorySnoc(s: SubState, ops: seq<SubOp>, op: SubOp)
    ensures var before := Run(s, ops);
            History(s, ops + [op]) == if Step(before, op).Ok? then History(s, ops) + [Entry(before.status, op)]
                                      else History(s, ops)
  {
    hide Run, Step;
    assert (ops + [op])[..|ops + [op]| - 1] == ops && History(s, ops) + [] == History(s, ops);
  }

  lemma Untouched(s: SubState)
    ensures Tells(s, [], s) && History(s, []) == [] && InOrder(s.status, []) && Run(s, []) == s
  {
  }

  lemma StatusTold(s: SubState, h: seq<Entry>, t: SubState)
    requires Tells(s, h, t)
    ensures t.status == LastStatus(s.status, h)
  {
  }

  // ---------------------------------------------------------------- what is refused next, and why

  /** Which error an operation meets, from the status, plan and billing date it finds. */
  predicate RefusedFor(status: Status, plan: string, billing: int, op: SubOp, e: BillingError) {
    match op
    case MarkActivated(_, paidUntil) =>
      || (status == Trial && !IsDateTime(AddMonths(billing, 1)) && e == OutOfRange)
      || (status == PastDue && paidUntil.None? && e == PaidUntilRequired)
      || ((status == Active || status == Cancelled) && e == InvalidTransition(status, Active))
    case MarkPastDue(_) => (status == PastDue || status == Cancelled) && e == InvalidTransition(status, PastDue)
    case Cancel(_, _) => status == Cancelled && e == AlreadyCancelled
    case ChangePlan(newPlan, _) =>
      (status == Cancelled && e == AlreadyCancelled) || (status != Cancelled && plan == newPlan && e == SamePlan)
    case AdvancePeriod(_) => !IsDateTime(AddMonths(billing, 1)) && e == OutOfRange
  }

  /** After any life the next operation is refused exactly as its history demands. */
  lemma NextRefused(s: SubState, ops: seq<SubOp>, op: SubOp, e: BillingError)
    ensures var h := History(s, ops);
            Step(Run(s, ops), op) == Err(e) <==>
              RefusedFor(LastStatus(s.status, h), LastPlan(s.plan, h), BilledTo(s.nextBilling, h), op, e)
  {
    LifeIsHistory(s, ops);
    hide AddMonths, LastStatus, LastPlan, BilledTo, Run, History;
  }

  // ---------------------------------------------------------------- orders of accepted operations

  predicate SetsStatus(op: SubOp) {
    op.MarkActivated? || op.MarkPastDue? || op.Cancel?
  }

  lemma {:induction false} StatusKept(first: Status, h: seq<Entry>, i: nat)
    requires i <= |h| && forall k :: i <= k < |h| ==> !SetsStatus(h[k].op)
    ensures LastStatus(first, h) == LastStatus(first, h[..i])
    decreases |h|
  {
    if i < |h| {
      assert h[..|h| - 1][..i] == h[..i];
      StatusKept(first, h[..|h| - 1], i);
    } else {
      assert h[..i] == h;
    }
  }

  /**
   In every life two accepted activations have a past-due mark between them, two past-due marks an activation, and
   after a cancellation nothing is accepted but advances of the period.
   */
  lemma Alternates(s: SubState, ops: seq<SubOp>, i: nat, j: nat)
    requires i < j < |History(s, ops)|
    ensures var h := History(s, ops);
            && (h[i].op.MarkActivated? && h[j].op.MarkActivated? ==> exists k :: i < k < j && h[k].op.MarkPastDue?)
            && (h[i].op.MarkPastDue? && h[j].op.MarkPastDue? ==> exists k :: i < k < j && h[k].op.MarkActivated?)
            && (h[i].op.Cancel? ==> h[j].op.AdvancePeriod?)
  {
    var h := History(s, ops);
    LifeIsHistory(s, ops);
    hide History;
    OrderedPairs(s.status, h, i, j);
  }

  lemma {:induction false} OrderedPairs(first: Status, h: seq<Entry>, i: nat, j: nat)
    requires InOrder(first, h) && i < j < |h|
    ensures h[i].op.MarkActivated? && h[j].op.MarkActivated? ==> exists k :: i < k < j && h[k].op.MarkPastDue?
    ensures h[i].op.MarkPastDue? && h[j].op.MarkPastDue? ==> exists k :: i < k < j && h[k].op.MarkActivated?
    ensures h[i].op.Cancel? ==> h[j].op.AdvancePeriod?
    decreases j - i
  {
    assert h[j].found == LastStatus(first, h[..j]) && MayFollow(h[j].found, h[j].op);
    if k :| i < k < j && SetsStatus(h[k].op) {
      OrderedPairs(first, h, i, k);
      OrderedPairs(first, h, k, j);
    } else {
      assert h[..j][..i + 1] == h[..i + 1];
      StatusKept(first, h[..j], i + 1);
      assert h[..i + 1][|h[..i + 1]| - 1] == h[i];
    }
  }

  /**
   A trial that is activated while the month after its end is in range becomes active, billed a month later; until it
   is marked past due a second activation is refused, whatever else is done to it.
   */
  lemma SecondActivationRefused(s: SubState, now: int, paidUntil: Option<int>, ops: seq<SubOp>, again: int,
                                paidAgain: Option<int>)
    requires s.status == Trial && forall op :: op in ops ==> !op.MarkPastDue?
    ensures var active := Apply(s, MarkActivated(now, paidUntil));
            IsDateTime(AddMonths(s.nextBilling, 1)) ==>
            && active.status == Active && active.nextBilling == AddMonths(s.nextBilling, 1) && active.trialEnds == None
            && Step(Run(active, ops), MarkActivated(again, paidAgain))
               == Err(InvalidTransition(Run(active, ops).status, Active))
  {
    hide AddMonths;
    var active := Apply(s, MarkActivated(now, paidUntil));
    if active.status == Active {
      ActiveOrCancelled(active, ops);
    }
  }

  lemma {:induction false} ActiveOrCancelled(s: SubState, ops: seq<SubOp>)
    requires s.status == Active || s.status == Cancelled
    requires forall op :: op in ops ==> !op.MarkPastDue?
    ensures Run(s, ops).status == Active || Run(s, ops).status == Cancelled
    decreases |ops|
  {
    hide AddMonths;
    if ops != [] {
      assert ops[0] in ops && forall op :: op in ops[1..] ==> op in ops;
      ActiveOrCancelled(Apply(s, ops[0]), ops[1..]);
    }
  }

  // ---------------------------------------------------------------- the two ways of starting

  /** A life begun by a trial, told from the start. */
  lemma TrialLife(plan: string, trialEnds: int, now: int, ops: seq<SubOp>)
    ensures var s := StartedTrial(plan, trialEnds, now);
            var t, h := Run(s, ops), History(s, ops);
            && t.status == LastStatus(Trial, h) && t.plan == LastPlan(plan, h)
            && t.nextBilling == BilledTo(trialEnds, h) && t.periodStart == PeriodFrom(now, trialEnds, h)
            && t.trialEnds == (if TrialUsed(h) then None else Some(trialEnds))
            && t.createdAt == now && t.updatedAt == LastTime(now, h) && (t.cancelledAt.Some? <==> t.status == Cancelled)
  {
    var s := StartedTrial(plan, trialEnds, now);
    LifeIsHistory(s, ops);
    CancelledIsCancelling(s, ops);
    hide Run, History, BilledTo, PeriodFrom, TrialUsed;
  }

  /** And one begun active, which never has a trial. */
  lemma ActiveLife(plan: string, now: int, ops: seq<SubOp>)
    ensures var s := StartedActive(plan, now);
            var t, h := Run(s, ops), History(s, ops);
            && t.status == LastStatus(Active, h) && t.plan == LastPlan(plan, h)
            && t.nextBilling == BilledTo(AddMonths(now, 1), h) && t.periodStart == PeriodFrom(now, AddMonths(now, 1), h)
            && t.trialEnds == None
            && t.createdAt == now && t.updatedAt == LastTime(now, h) && (t.cancelledAt.Some? <==> t.status == Cancelled)
  {
    var s := StartedActive(plan, now);
    LifeIsHistory(s, ops);
    CancelledIsCancelling(s, ops);
    hide Run, History, BilledTo, PeriodFrom, TrialUsed, AddMonths;
  }

  lemma {:induction false} CancelledIsCancelling(s: SubState, ops: seq<SubOp>)
    requires s.cancelledAt.Some? <==> s.status == Cancelled
    ensures Run(s, ops).cancelledAt.Some? <==> Run(s, ops).status == Cancelled
    decreases |ops|
  {
    hide AddMonths;
    if ops != [] {
      CancelledIsCancelling(Apply(s, ops[0]), ops[1..]);
    }
  }
}
