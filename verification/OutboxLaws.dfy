/** What every run of the outbox poller keeps, what it can never do, and how fast it finishes. */
module OutboxLaws {
  import opened Basics
  import opened Outbox
  import Maps

  // ---------------------------------------------------------------- runs

  ghost predicate CanRun(o: Options, s: PollerState, steps: seq<Step>)
    decreases |steps|
  {
    steps == [] || (Enabled(o, s, steps[0]) && CanRun(o, Next(o, s, steps[0]), steps[1..]))
  }

  ghost function After(o: Options, s: PollerState, steps: seq<Step>): PollerState
    requires CanRun(o, s, steps)
    decreases |steps|
  {
    if steps == [] then s else After(o, Next(o, s, steps[0]), steps[1..])
  }

  predicate Initial(s: PollerState) {
    s.rows == map[] && s.batch == NoBatch && s.bus == [] && s.attempts == map[] && s.queries == 0 && s.restarts == 0
  }

  /** A row gets at least one attempt, whatever maxRetryCount says. */
  function MaxAttempts(o: Options): nat {
    if o.maxRetryCount < 1 then 1 else o.maxRetryCount
  }

  // ---------------------------------------------------------------- the invariant

  /** Attempt i+1 of a row waits for the backoff that attempt i ordered. */
  ghost predicate Spaced(o: Options, attempts: seq<Attempt>, clock: int) {
    && (forall i :: 0 <= i < |attempts| ==> attempts[i].start <= attempts[i].settled <= clock)
    && (forall i :: 0 < i < |attempts| ==>
          attempts[i - 1].settled + o.baseBackoffMs * Pow2(i - 1) <= attempts[i].start)
  }

  /** When a pending row with these attempts behind it may be tried again. */
  ghost function RetryAt(o: Options, attempts: seq<Attempt>): Option<int> {
    if attempts == [] then None
    else Some(attempts[|attempts| - 1].settled + o.baseBackoffMs * Pow2(|attempts| - 1))
  }

  ghost predicate RowOk(o: Options, r: Row, attempts: seq<Attempt>) {
    && !(r.publishedAt.Some? && r.failedAt.Some?)
    && |attempts| == r.retryCount + (if r.publishedAt.Some? then 1 else 0)
    && (if r.failedAt.Some? then r.retryCount == MaxAttempts(o) else r.retryCount < MaxAttempts(o))
    && r.retryAfterAt == (if Pending(r) then RetryAt(o, attempts) else None)
    && (r.publishedAt.Some? ==> r.publishedAt.value == attempts[|attempts| - 1].settled)
    && (r.failedAt.Some? ==> r.failedAt.value == attempts[|attempts| - 1].settled)
    && (r.lastError.Some? <==> r.publishedAt.None? && r.retryCount > 0)
  }

  /** How often an event reached the bus: at least once when published, at most once per attempt or restart. */
  ghost predicate Delivered(s: PollerState, id: EventId)
    requires id in s.rows
  {
    && (s.rows[id].publishedAt.Some? ==> id in s.bus)
    && multiset(s.bus)[id] <= |AttemptsOf(s, id)| + s.restarts + (if InFlight(s, id) then 1 else 0)
  }

  predicate InFlight(s: PollerState, id: EventId) {
    s.batch.Publishing? && s.batch.id == id
  }

  /** A row the running batch still has to try. */
  predicate Waiting(rows: map<EventId, Row>, id: EventId, at: int) {
    id in rows && Due(rows[id], at)
  }

  predicate OldestFirst(rows: map<EventId, Row>, queue: seq<EventId>)
    requires forall id :: id in queue ==> id in rows
  {
    forall i, j :: 0 <= i < j < |queue| ==> rows[queue[i]].occurredAt <= rows[queue[j]].occurredAt
  }

  ghost predicate BatchOk(s: PollerState) {
    match s.batch
    case Querying(at, known) => at <= s.clock && known <= s.rows.Keys
    case Between(queue) =>
      && Distinct(queue) && (forall id :: id in queue ==> Waiting(s.rows, id, s.clock))
      && OldestFirst(s.rows, queue)
    case Publishing(id, startedAt, onBus, rest) =>
      && startedAt <= s.clock && Waiting(s.rows, id, startedAt) && (onBus ==> id in s.bus)
      && Distinct(rest) && id !in rest && (forall other :: other in rest ==> Waiting(s.rows, other, s.clock))
      && OldestFirst(s.rows, [id] + rest)
    case _ => true
  }

  ghost predicate RowsOk(o: Options, s: PollerState) {
    && s.attempts.Keys == s.rows.Keys
    && (forall id :: id in s.rows ==> RowOk(o, s.rows[id], s.attempts[id]))
  }

  ghost predicate TimesOk(o: Options, s: PollerState) {
    forall id :: id in s.attempts ==> Spaced(o, s.attempts[id], s.clock)
  }

  ghost predicate BusOk(s: PollerState) {
    && (forall id :: id in s.bus ==> id in s.rows)
    && (forall id :: id in s.rows ==> Delivered(s, id))
  }

  ghost predicate Inv(o: Options, s: PollerState) {
    RowsOk(o, s) && TimesOk(o, s) && BusOk(s) && BatchOk(s)
  }

  // ---------------------------------------------------------------- every step keeps it

  lemma StepKeepsRows(o: Options, s: PollerState, step: Step)
    requires Inv(o, s) && Enabled(o, s, step)
    ensures RowsOk(o, Next(o, s, step))
  {
    hide TimesOk, BusOk, Pow2, IsFound, Spaced;
    if step.PublishSucceeds? || step.PublishFails? {
      var id := s.batch.id;
      assert RowOk(o, s.rows[id], s.attempts[id]);
    }
  }

  lemma StepKeepsTimes(o: Options, s: PollerState, step: Step)
    requires Inv(o, s) && Enabled(o, s, step)
    ensures TimesOk(o, Next(o, s, step))
  {
    hide BusOk, Pow2, IsFound, Spaced, RowOk;
    var t := Next(o, s, step);
    forall id | id in t.attempts ensures Spaced(o, t.attempts[id], t.clock) {
      if id in s.attempts {
        LaterSpaced(o, s.attempts[id], s.clock, t.clock);
      }
      NoneSpaced(o, t.clock);
      if (step.PublishSucceeds? || step.PublishFails?) && id == s.batch.id {
        OneMoreSpaced(o, s, id);
      }
    }
  }

  lemma LaterSpaced(o: Options, attempts: seq<Attempt>, clock: int, later: int)
    requires Spaced(o, attempts, clock) && clock <= later
    ensures Spaced(o, attempts, later)
  {
    hide Pow2;
  }

  lemma NoneSpaced(o: Options, clock: int)
    ensures Spaced(o, [], clock)
  {
  }

  /** An attempt that waited until its row was due is spaced from the ones before it. */
  lemma OneMoreSpaced(o: Options, s: PollerState, id: EventId)
    requires RowsOk(o, s) && TimesOk(o, s) && BatchOk(s) && s.batch.Publishing? && id == s.batch.id
    ensures Spaced(o, s.attempts[id] + [Attempt(s.batch.startedAt, s.clock)], s.clock)
  {
    hide Pow2, OldestFirst, Distinct;
    var done := s.attempts[id];
    assert RowOk(o, s.rows[id], done) && Spaced(o, done, s.clock);
  }

  /** One row's deliveries over one step. */
  lemma StepKeepsDelivered(o: Options, s: PollerState, step: Step, id: EventId)
    requires s.attempts.Keys == s.rows.Keys && BatchOk(s) && Enabled(o, s, step)
    requires id in s.rows && Delivered(s, id)
    ensures Delivered(Next(o, s, step), id)
  {
    hide Pow2, IsFound, OldestFirst, Distinct;
  }

  lemma StepKeepsBus(o: Options, s: PollerState, step: Step)
    requires Inv(o, s) && Enabled(o, s, step)
    ensures BusOk(Next(o, s, step))
  {
    hide TimesOk, Pow2, IsFound, RowOk, OldestFirst, Distinct;
    var t := Next(o, s, step);
    if step.StartEvent? {
      assert s.batch.queue[0] in s.batch.queue;
      assert Waiting(s.rows, s.batch.queue[0], s.clock);
    }
    forall id | id in t.rows ensures Delivered(t, id) {
      if id in s.rows {
        StepKeepsDelivered(o, s, step, id);
      } else {
        assert id !in s.bus && multiset(s.bus)[id] == 0;
      }
    }
  }

  /** Settling the current row leaves the rest of the batch as it was. */
  lemma SettleKeepsBatch(s: PollerState, r: Row)
    requires BatchOk(s) && s.batch.Publishing? && r.occurredAt == s.rows[s.batch.id].occurredAt
    ensures BatchOk(Settle(s, r))
  {
    var t := Settle(s, r);
    var queue := [s.batch.id] + s.batch.rest;
    assert forall i :: 0 <= i < |s.batch.rest| ==> s.batch.rest[i] == queue[i + 1];
    OrderStays(s.rows, t.rows, s.batch.rest);
  }

  /** A new row changes nothing for the running batch. */
  lemma InsertKeepsBatch(s: PollerState, t: PollerState, id: EventId, r: Row)
    requires BatchOk(s) && id !in s.rows
    requires t.rows == s.rows[id := r] && t.batch == s.batch && t.clock == s.clock && t.bus == s.bus
    ensures BatchOk(t)
  {
    match s.batch
    case Between(queue) => OrderStays(s.rows, t.rows, queue);
    case Publishing(current, _, _, rest) => OrderStays(s.rows, t.rows, [current] + rest);
    case _ =>
  }

  lemma StepKeepsBatch(o: Options, s: PollerState, step: Step)
    requires BatchOk(s) && Enabled(o, s, step)
    ensures BatchOk(Next(o, s, step))
  {
    match step
    case PublishSucceeds => SettleKeepsBatch(s, PublishedRow(s.rows[s.batch.id], s.clock));
    case PublishFails(message) => SettleKeepsBatch(s, FailedRow(o, s.rows[s.batch.id], s.clock, message));
    case Insert(id, occurredAt) =>
      InsertKeepsBatch(s, Next(o, s, step), id, Row(occurredAt, None, None, None, 0, None));
    case StartEvent(_) =>
      var queue := s.batch.queue;
      assert queue[0] in queue && forall id :: id in queue[1..] ==> id in queue;
      assert [queue[0]] + queue[1..] == queue;
    case _ =>
  }

  lemma OrderStays(rows: map<EventId, Row>, rows': map<EventId, Row>, queue: seq<EventId>)
    requires forall id :: id in queue ==> id in rows && id in rows' && rows'[id].occurredAt == rows[id].occurredAt
    requires OldestFirst(rows, queue)
    ensures OldestFirst(rows', queue)
  {
    assert forall i :: 0 <= i < |queue| ==> queue[i] in queue;
  }

  lemma StepKeepsInv(o: Options, s: PollerState, step: Step)
    requires Inv(o, s) && Enabled(o, s, step)
    ensures Inv(o, Next(o, s, step))
  {
    hide RowsOk, TimesOk, BusOk, BatchOk, Next, Enabled;
    StepKeepsRows(o, s, step);
    StepKeepsTimes(o, s, step);
    StepKeepsBus(o, s, step);
    StepKeepsBatch(o, s, step);
  }

  lemma {:induction false} RunsKeepInv(o: Options, s: PollerState, steps: seq<Step>)
    requires CanRun(o, s, steps)
    requires Initial(s) || Inv(o, s)
    ensures Inv(o, After(o, s, steps))
    decreases |steps|
  {
    assert Inv(o, s);
    if steps != [] {
      StepKeepsInv(o, s, steps[0]);
      RunsKeepInv(o, Next(o, s, steps[0]), steps[1..]);
    }
  }

  // ---------------------------------------------------------------- safety

  lemma SettledStays(o: Options, s: PollerState, step: Step, id: EventId)
    requires Inv(o, s) && Enabled(o, s, step)
    requires id in s.rows && !Pending(s.rows[id])
    ensures var t := Next(o, s, step);
      id in t.rows && t.rows[id] == s.rows[id] && multiset(t.bus)[id] == multiset(s.bus)[id]
  {
    hide RowsOk, TimesOk, BusOk, Pow2, IsFound;
    if step.StartEvent? {
      assert s.batch.queue[0] in s.batch.queue;
    }
  }

  /** A published or failed row never changes again, and its event never reaches the bus again. */
  lemma {:induction false} SettledForever(o: Options, s: PollerState, steps: seq<Step>, id: EventId)
    requires Inv(o, s) && CanRun(o, s, steps)
    requires id in s.rows && !Pending(s.rows[id])
    ensures var t := After(o, s, steps);
      id in t.rows && t.rows[id] == s.rows[id] && multiset(t.bus)[id] == multiset(s.bus)[id]
    decreases |steps|
  {
    hide Inv, Pending, Enabled, Next;
    if steps != [] {
      StepKeepsInv(o, s, steps[0]);
      SettledStays(o, s, steps[0], id);
      SettledForever(o, Next(o, s, steps[0]), steps[1..], id);
    }
  }

  /** From the empty table: no row is both published and failed, published events have reached the bus, and no
      event reaches it more often than the retry limit allows, restarts of the process aside. */
  lemma DeliveriesBounded(o: Options, s: PollerState, steps: seq<Step>, id: EventId)
    requires Initial(s) && CanRun(o, s, steps) && id in After(o, s, steps).rows
    ensures var t := After(o, s, steps); var r := t.rows[id];
      && !(r.publishedAt.Some? && r.failedAt.Some?)
      && (r.publishedAt.Some? ==> id in t.bus)
      && (r.failedAt.Some? ==> r.retryCount == MaxAttempts(o))
      && multiset(t.bus)[id] <= MaxAttempts(o) + t.restarts
  {
    RunsKeepInv(o, s, steps);
    hide After, CanRun;
    var t := After(o, s, steps);
    assert Delivered(t, id) && RowOk(o, t.rows[id], t.attempts[id]);
  }

  ghost function Releases(steps: seq<Step>): nat {
    if steps == [] then 0
    else (if steps[0].ReleaseBatch? || steps[0].Restart? then 1 else 0) + Releases(steps[1..])
  }

  function Free(s: PollerState): nat {
    if s.batch == NoBatch then 1 else 0
  }

  /** However calls of processBatch interleave, a new query needs the previous batch to have been released. */
  lemma {:induction false} SingleFlight(o: Options, s: PollerState, steps: seq<Step>)
    requires CanRun(o, s, steps)
    ensures After(o, s, steps).queries + Free(After(o, s, steps)) <= s.queries + Free(s) + Releases(steps)
    decreases |steps|
  {
    if steps != [] {
      SingleFlight(o, Next(o, s, steps[0]), steps[1..]);
    }
  }

  /** The rows the running batch has loaded and not yet settled. */
  predicate Loaded(s: PollerState, id: EventId) {
    match s.batch
    case Between(queue) => id in queue
    case Publishing(current, _, _, rest) => id == current || id in rest
    case _ => false
  }

  lemma ShutdownStep(o: Options, s: PollerState, step: Step)
    requires s.shuttingDown && Enabled(o, s, step) && step != Restart
    ensures var t := Next(o, s, step);
      && t.shuttingDown && t.queries == s.queries
      && (!s.batch.Querying? ==>
            && !t.batch.Querying?
            && (forall id :: Loaded(t, id) ==> Loaded(s, id))
            && (forall id :: id in s.rows && !Loaded(s, id) ==>
                  id in t.rows && t.rows[id] == s.rows[id] && multiset(t.bus)[id] == multiset(s.bus)[id]))
  {
    hide IsFound, Pow2;
    if step.StartEvent? {
      var queue := s.batch.queue;
      assert queue[0] in queue && forall id :: id in queue[1..] ==> id in queue;
    }
  }

  /** After shutdown begins no query is issued; unless one was already under way, the rows touched from then on
      are the rows that were loaded. */
  lemma {:induction false} NothingNewAfterShutdown(o: Options, s: PollerState, steps: seq<Step>)
    requires s.shuttingDown && CanRun(o, s, steps) && Restart !in steps
    ensures var t := After(o, s, steps);
      && t.queries == s.queries
      && (!s.batch.Querying? ==> forall id :: id in s.rows && !Loaded(s, id) ==>
            id in t.rows && t.rows[id] == s.rows[id] && multiset(t.bus)[id] == multiset(s.bus)[id])
    decreases |steps|
  {
    if steps != [] {
      ShutdownStep(o, s, steps[0]);
      hide Enabled, Next, Loaded;
      NothingNewAfterShutdown(o, Next(o, s, steps[0]), steps[1..]);
    }
  }

  /**
   A query already under way is the exception. Its answer loads new rows whenever a row that was there
   when it was issued is due, and only if some row is; when no row came in since, exactly then.
   */
  lemma QueryUnderWayLoads(o: Options, s: PollerState, found: seq<EventId>)
    requires o.batchSize > 0 && Enabled(o, s, RowsFound(found))
    ensures var loads := exists id :: Loaded(Next(o, s, RowsFound(found)), id) && !Loaded(s, id);
            var due := exists id :: id in s.rows && Due(s.rows[id], s.batch.queriedAt);
            var dueThen := exists id :: id in s.batch.known && id in s.rows && Due(s.rows[id], s.batch.queriedAt);
            && (dueThen ==> loads) && (loads ==> due)
            && (s.batch.known == s.rows.Keys ==> (loads <==> due))
  {
    var t := Next(o, s, RowsFound(found));
    if found != [] {
      assert found[0] in found && Loaded(t, found[0]) && !Loaded(s, found[0]);
    }
  }

  // ---------------------------------------------------------------- what the rows say

  /** A row is due exactly when it is neither published nor failed and the backoff after its last attempt is over. */
  lemma DueMeans(o: Options, s: PollerState, id: EventId, at: int)
    requires Inv(o, s) && id in s.rows
    ensures var r, tries := s.rows[id], AttemptsOf(s, id);
            Due(r, at) <==>
              && r.publishedAt.None? && r.failedAt.None?
              && (tries == [] || tries[|tries| - 1].settled + o.baseBackoffMs * Pow2(|tries| - 1) <= at)
  {
    assert RowOk(o, s.rows[id], s.attempts[id]);
    hide Pow2, RowOk, TimesOk, BusOk, BatchOk;
    assert s.rows[id].retryAfterAt == if Pending(s.rows[id]) then RetryAt(o, s.attempts[id]) else None by {
      BackoffStored(o, s, id);
    }
  }

  lemma BackoffStored(o: Options, s: PollerState, id: EventId)
    requires RowsOk(o, s) && id in s.rows
    ensures s.rows[id].retryAfterAt == if Pending(s.rows[id]) then RetryAt(o, s.attempts[id]) else None
  {
    assert RowOk(o, s.rows[id], s.attempts[id]);
  }

  /** When an event occurred, and the message of the last attempt at it, if that failed. */
  datatype Story = Story(occurredAt: int, lastError: Option<string>)

  function StoryOf(s: PollerState, id: EventId): Story {
    if id in s.rows then Story(s.rows[id].occurredAt, s.rows[id].lastError) else Story(0, None)
  }

  function NextStory(s: PollerState, step: Step, id: EventId, told: Story): Story {
    match step
    case Insert(other, occurredAt) => if other == id then Story(occurredAt, None) else told
    case PublishSucceeds => if InFlight(s, id) then told.(lastError := None) else told
    case PublishFails(message) => if InFlight(s, id) then told.(lastError := Some(message)) else told
    case _ => told
  }

  ghost function Told(o: Options, s: PollerState, steps: seq<Step>, id: EventId, told: Story): Story
    requires CanRun(o, s, steps)
    decreases |steps|
  {
    if steps == [] then told else Told(o, Next(o, s, steps[0]), steps[1..], id, NextStory(s, steps[0], id, told))
  }

  /**
   Over any run a row keeps when its event occurred and shows the message of its last failure until it is
   published.
   */
  lemma {:induction false} RowsTellTheirStory(o: Options, s: PollerState, steps: seq<Step>, id: EventId)
    requires CanRun(o, s, steps) && id in After(o, s, steps).rows
    ensures StoryOf(After(o, s, steps), id) == Told(o, s, steps, id, StoryOf(s, id))
    decreases |steps|
  {
    hide IsFound, Pow2, Next, Enabled, StoryOf, NextStory;
    if steps != [] {
      RowsTellTheirStory(o, Next(o, s, steps[0]), steps[1..], id);
      OneStepTold(o, s, steps[0], id);
    }
  }

  lemma OneStepTold(o: Options, s: PollerState, step: Step, id: EventId)
    requires Enabled(o, s, step)
    ensures StoryOf(Next(o, s, step), id) == NextStory(s, step, id, StoryOf(s, id))
  {
    hide IsFound, Pow2;
  }

  /** How often the bus is handed an event: once for each start whose payload deserializes. */
  ghost function Handed(o: Options, s: PollerState, steps: seq<Step>, id: EventId): nat
    requires CanRun(o, s, steps)
    decreases |steps|
  {
    if steps == [] then 0
    else
      (if steps[0].StartEvent? && steps[0].deserializes && s.batch.queue[0] == id then 1 else 0)
      + Handed(o, Next(o, s, steps[0]), steps[1..], id)
  }

  /** So an event whose payload never deserializes never reaches the bus. */
  lemma {:induction false} BusCounts(o: Options, s: PollerState, steps: seq<Step>, id: EventId)
    requires CanRun(o, s, steps)
    ensures multiset(After(o, s, steps).bus)[id] == multiset(s.bus)[id] + Handed(o, s, steps, id)
    decreases |steps|
  {
    hide Next, Enabled;
    if steps != [] {
      BusStep(o, s, steps[0], id);
      BusCounts(o, Next(o, s, steps[0]), steps[1..], id);
    }
  }

  lemma BusStep(o: Options, s: PollerState, step: Step, id: EventId)
    requires Enabled(o, s, step)
    ensures step.StartEvent? ==> s.batch.Between? && s.batch.queue != []
    ensures multiset(Next(o, s, step).bus)[id]
         == multiset(s.bus)[id] + if step.StartEvent? && step.deserializes && s.batch.queue[0] == id then 1 else 0
  {
    hide IsFound, Pow2;
  }

  /**
   A due row that was there for the query is overtaken by no younger one: it is left out only by a full batch of
   older rows.
   */
  lemma NoOvertaking(o: Options, s: PollerState, found: seq<EventId>, id: EventId)
    requires Enabled(o, s, RowsFound(found)) && id in s.batch.known && id in s.rows
             && Due(s.rows[id], s.batch.queriedAt)
    ensures var t := Next(o, s, RowsFound(found));
            !Loaded(t, id) ==>
              && InHand(t) == o.batchSize
              && forall other :: Loaded(t, other) ==>
                   other in t.rows && t.rows[other].occurredAt <= s.rows[id].occurredAt
  {
  }

  /** What callers notice: whether there is a batch to wait for, a shutdown, the clock, queries and restarts so far. */
  datatype Signs = Signs(held: bool, shuttingDown: bool, clock: int, queries: nat, restarts: nat)

  function SignsOf(s: PollerState): Signs {
    Signs(s.batch != NoBatch, s.shuttingDown, s.clock, s.queries, s.restarts)
  }

  function SignsAfter(x: Signs, steps: seq<Step>): Signs {
    if steps == [] then x
    else
      var init := SignsAfter(x, steps[..|steps| - 1]);
      match steps[|steps| - 1]
      case ProcessBatch =>
        if init.held then init
        else init.(held := true, queries := if init.shuttingDown then init.queries else init.queries + 1)
      case ReleaseBatch => init.(held := false)
      case Shutdown => init.(shuttingDown := true)
      case Restart => init.(held := false, shuttingDown := false, restarts := init.restarts + 1)
      case Tick(now) => init.(clock := now)
      case _ => init
  }

  lemma {:induction false} SignsCons(x: Signs, step: Step, steps: seq<Step>)
    ensures SignsAfter(x, [step] + steps) == SignsAfter(SignsAfter(x, [step]), steps)
    decreases |steps|
  {
    if steps == [] {
      assert [step] + steps == [step];
    } else {
      var all := [step] + steps;
      assert all[..|all| - 1] == [step] + steps[..|steps| - 1] && all[|all| - 1] == steps[|steps| - 1];
      SignsCons(x, step, steps[..|steps| - 1]);
    }
  }

  /**
   After any run the calls alone tell whether there is a batch to wait for: a call always leaves one, also during a
   shutdown, until it is released or the process restarts; a query is issued exactly by a call that finds none and no
   shutdown; and only a restart ends a shutdown.
   */
  lemma {:induction false} CallsTell(o: Options, s: PollerState, steps: seq<Step>)
    requires CanRun(o, s, steps)
    ensures SignsOf(After(o, s, steps)) == SignsAfter(SignsOf(s), steps)
    decreases |steps|
  {
    hide Next, Enabled, SignsOf, SignsAfter;
    if steps == [] {
      NoSigns(SignsOf(s));
    } else {
      OneSign(o, s, steps[0]);
      CallsTell(o, Next(o, s, steps[0]), steps[1..]);
      SignsCons(SignsOf(s), steps[0], steps[1..]);
      assert [steps[0]] + steps[1..] == steps;
    }
  }

  lemma NoSigns(x: Signs)
    ensures SignsAfter(x, []) == x
  {
  }

  lemma OneSign(o: Options, s: PollerState, step: Step)
    requires Enabled(o, s, step)
    ensures SignsOf(Next(o, s, step)) == SignsAfter(SignsOf(s), [step])
  {
    hide IsFound, Pow2;
    assert [step][..0] == [];
  }

  /** How many rows the running batch has still to settle. */
  function InHand(s: PollerState): nat {
    match s.batch
    case Between(queue) => |queue|
    case Publishing(_, _, _, rest) => 1 + |rest|
    case _ => 0
  }

  /** A batch never holds more than batchSize rows. */
  lemma {:induction false} BatchesAreBounded(o: Options, s: PollerState, steps: seq<Step>)
    requires CanRun(o, s, steps) && InHand(s) <= o.batchSize
    ensures InHand(After(o, s, steps)) <= o.batchSize
    decreases |steps|
  {
    hide Next, Enabled, InHand;
    if steps != [] {
      BatchStep(o, s, steps[0]);
      BatchesAreBounded(o, Next(o, s, steps[0]), steps[1..]);
    }
  }

  lemma BatchStep(o: Options, s: PollerState, step: Step)
    requires Enabled(o, s, step) && InHand(s) <= o.batchSize
    ensures InHand(Next(o, s, step)) <= o.batchSize
  {
    hide Pow2;
  }

  // ---------------------------------------------------------------- progress

  ghost function Left(o: Options): (EventId, Row) -> real {
    (id: EventId, r: Row) => if Pending(r) then (MaxAttempts(o) - r.retryCount) as real else 0.0
  }

  /** The attempts the pending rows may still use. */
  ghost function Work(o: Options, s: PollerState): real {
    Maps.SumOver(s.rows, Left(o))
  }

  predicate Settles(step: Step) {
    step.PublishSucceeds? || step.PublishFails?
  }

  ghost function Settled(steps: seq<Step>): nat {
    if steps == [] then 0 else (if Settles(steps[0]) then 1 else 0) + Settled(steps[1..])
  }

  ghost function Inserted(steps: seq<Step>): nat {
    if steps == [] then 0 else (if steps[0].Insert? then 1 else 0) + Inserted(steps[1..])
  }

  lemma SettleWork(o: Options, s: PollerState, id: EventId, r: Row)
    requires id in s.rows && Pending(s.rows[id]) && s.rows[id].retryCount < MaxAttempts(o)
    requires Pending(r) ==> r.retryCount == s.rows[id].retryCount + 1
    ensures Maps.SumOver(s.rows[id := r], Left(o)) <= Work(o, s) - 1.0
  {
    Maps.SumUpdate(s.rows, id, r, Left(o));
  }

  lemma CurrentIsPending(o: Options, s: PollerState)
    requires RowsOk(o, s) && BatchOk(s) && s.batch.Publishing?
    ensures s.batch.id in s.rows && Pending(s.rows[s.batch.id]) && s.rows[s.batch.id].retryCount < MaxAttempts(o)
  {
    assert RowOk(o, s.rows[s.batch.id], s.attempts[s.batch.id]);
  }

  /** Settling a row uses up at least one attempt; only new rows add any. */
  lemma StepWork(o: Options, s: PollerState, step: Step)
    requires Inv(o, s) && Enabled(o, s, step)
    ensures Work(o, Next(o, s, step)) + Settled([step]) as real
            <= Work(o, s) + (MaxAttempts(o) * Inserted([step])) as real
  {
    hide TimesOk, BusOk, IsFound, Pow2, RowsOk, BatchOk;
    var t := Next(o, s, step);
    if Settles(step) {
      CurrentIsPending(o, s);
      SettleWork(o, s, s.batch.id, t.rows[s.batch.id]);
    } else if step.Insert? {
      Maps.SumUpdate(s.rows, step.id, t.rows[step.id], Left(o));
    }
  }

  lemma {:induction false} RunWork(o: Options, s: PollerState, steps: seq<Step>)
    requires Inv(o, s) && CanRun(o, s, steps)
    ensures Work(o, After(o, s, steps)) + Settled(steps) as real
      <= Work(o, s) + (MaxAttempts(o) * Inserted(steps)) as real
    decreases |steps|
  {
    hide Inv, Enabled, Next, Work, MaxAttempts;
    if steps != [] {
      var max, first, rest := MaxAttempts(o), Inserted([steps[0]]), Inserted(steps[1..]);
      StepKeepsInv(o, s, steps[0]);
      StepWork(o, s, steps[0]);
      RunWork(o, Next(o, s, steps[0]), steps[1..]);
      assert max * (first + rest) == max * first + max * rest;
    }
  }

  lemma WorkNeverNegative(o: Options, s: PollerState)
    requires Inv(o, s)
    ensures Work(o, s) >= 0.0
    ensures forall id :: id in s.rows && Pending(s.rows[id]) ==> Work(o, s) >= 1.0
  {
    hide TimesOk, BusOk, BatchOk;
    forall id | id in s.rows
      ensures Left(o)(id, s.rows[id]) >= if Pending(s.rows[id]) then 1.0 else 0.0
    {
      assert RowOk(o, s.rows[id], s.attempts[id]);
    }
    Maps.SumAtLeast(s.rows, Left(o));
  }

  /** A run that inserts n rows settles at most n * maxRetryCount attempts, and once it has settled that many no
      row is pending. */
  lemma AttemptsSuffice(o: Options, s: PollerState, steps: seq<Step>)
    requires Initial(s) && CanRun(o, s, steps)
    ensures Settled(steps) <= MaxAttempts(o) * Inserted(steps)
    ensures Settled(steps) == MaxAttempts(o) * Inserted(steps) ==>
      forall id :: id in After(o, s, steps).rows ==> !Pending(After(o, s, steps).rows[id])
  {
    assert Inv(o, s);
    assert Work(o, s) == 0.0;
    RunsKeepInv(o, s, steps);
    RunWork(o, s, steps);
    WorkNeverNegative(o, After(o, s, steps));
  }

  // ---------------------------------------------------------------- backoff

  /** Attempt j starts no earlier than the backoffs ordered before it add up to. */
  lemma {:induction false} SpacingAddsUp(o: Options, attempts: seq<Attempt>, clock: int, j: nat)
    requires Spaced(o, attempts, clock) && 0 < j < |attempts|
    ensures attempts[j].start - attempts[0].settled >= o.baseBackoffMs * (Pow2(j) - 1)
  {
    var base, half := o.baseBackoffMs, Pow2(j - 1);
    assert attempts[j - 1].settled + base * half <= attempts[j].start;
    assert base * (Pow2(j) - 1) == base * half + base * (half - 1);
    if j > 1 {
      SpacingAddsUp(o, attempts, clock, j - 1);
    }
  }

  /** A permanently failed row was tried maxRetryCount times, over at least base * (2^(maxRetryCount-1) - 1) ms. */
  lemma FailureTakesTime(o: Options, s: PollerState, steps: seq<Step>, id: EventId)
    requires Initial(s) && CanRun(o, s, steps) && id in After(o, s, steps).rows
    requires After(o, s, steps).rows[id].failedAt.Some?
    ensures var tries := AttemptsOf(After(o, s, steps), id);
      && |tries| == MaxAttempts(o)
      && tries[|tries| - 1].start - tries[0].start >= o.baseBackoffMs * (Pow2(|tries| - 1) - 1)
  {
    RunsKeepInv(o, s, steps);
    hide After, CanRun;
    var t := After(o, s, steps);
    var tries := AttemptsOf(t, id);
    assert RowOk(o, t.rows[id], tries) && Spaced(o, tries, t.clock);
    if |tries| > 1 {
      SpacingAddsUp(o, tries, t.clock, |tries| - 1);
    } else {
      assert Pow2(0) == 1;
    }
  }
}
