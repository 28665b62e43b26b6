/**
 The outbox poller: a single-flight batch loop over stored events with retries and exponential
 backoff, as a state machine over the segments of code between two awaits.
 */
module Outbox {
  import opened Basics

  type EventId = string

  datatype Options = Options(baseBackoffMs: int, batchSize: nat, maxRetryCount: int)

  datatype Row = Row(
    occurredAt: int,
    publishedAt: Option<int>,
    failedAt: Option<int>,
    retryAfterAt: Option<int>,
    retryCount: nat,
    lastError: Option<string>)

  /** `activeBatch`, and how far the running batch has come. */
  datatype Batch =
    | NoBatch
    | Querying(queriedAt: int, known: set<EventId>)
    | Between(queue: seq<EventId>)
    | Publishing(id: EventId, startedAt: int, onBus: bool, rest: seq<EventId>)
    | Resolved

  /** One processing of one row: when it began and when its outcome was known. */
  datatype Attempt = Attempt(start: int, settled: int)

  /** The last four fields only record history: events handed to the bus, attempts per row, queries issued, restarts. */
  datatype PollerState = PollerState(
    rows: map<EventId, Row>,
    batch: Batch,
    shuttingDown: bool,
    clock: int,
    bus: seq<EventId>,
    attempts: map<EventId, seq<Attempt>>,
    queries: nat,
    restarts: nat)

  datatype Step =
    | Insert(id: EventId, occurredAt: int)
    | Tick(now: int)
    | ProcessBatch
    | RowsFound(found: seq<EventId>)
    | StartEvent(deserializes: bool)
    | PublishSucceeds
    | PublishFails(message: string)
    | FinishBatch
    | ReleaseBatch
    | Shutdown
    | Restart

  predicate Pending(r: Row) {
    r.publishedAt.None? && r.failedAt.None?
  }

  predicate Due(r: Row, at: int) {
    Pending(r) && (r.retryAfterAt.None? || r.retryAfterAt.value <= at)
  }

  function BackoffMs(o: Options, retryCount: int): int {
    o.baseBackoffMs * Pow2(if retryCount - 1 > 0 then retryCount - 1 else 0)
  }

  function PublishedRow(r: Row, now: int): Row {
    r.(publishedAt := Some(now), lastError := None, retryAfterAt := None)
  }

  function FailedRow(o: Options, r: Row, now: int, message: string): Row {
    var next := r.retryCount + 1;
    if next >= o.maxRetryCount then
      r.(retryCount := next, lastError := Some(message), failedAt := Some(now), retryAfterAt := None)
    else
      r.(retryCount := next, lastError := Some(message), retryAfterAt := Some(now + BackoffMs(o, next)))
  }

  predicate Distinct(ids: seq<EventId>) {
    forall i, j :: 0 <= i < j < |ids| ==> ids[i] != ids[j]
  }

  /**
   What `em.find` may return: due rows, oldest first, at most batchSize, and no older due row left out,
   of those that were there when the query was issued; later ones it may see or miss.
   */
  predicate IsFound(o: Options, rows: map<EventId, Row>, known: set<EventId>, at: int, found: seq<EventId>) {
    && Distinct(found) && |found| <= o.batchSize
    && (forall id :: id in found ==> id in rows && Due(rows[id], at))
    && (forall i, j :: 0 <= i < j < |found| ==> rows[found[i]].occurredAt <= rows[found[j]].occurredAt)
    && (forall id :: id in known && id in rows && Due(rows[id], at) && id !in found ==>
          |found| == o.batchSize && forall other :: other in found ==> rows[other].occurredAt <= rows[id].occurredAt)
  }

  /** Which steps can happen: the clock never runs back, ids of new rows are new, and code runs in its own order. */
  predicate Enabled(o: Options, s: PollerState, step: Step) {
    match step
    case Insert(id, _) => id !in s.rows
    case Tick(now) => now >= s.clock
    case ProcessBatch => true
    case RowsFound(found) => s.batch.Querying? && IsFound(o, s.rows, s.batch.known, s.batch.queriedAt, found)
    case StartEvent(_) => s.batch.Between? && s.batch.queue != []
    case PublishSucceeds => s.batch.Publishing? && s.batch.onBus && s.batch.id in s.rows
    case PublishFails(_) => s.batch.Publishing? && s.batch.id in s.rows
    case FinishBatch => s.batch.Between? && s.batch.queue == []
    case ReleaseBatch => s.batch.Resolved?
    case Shutdown => true
    case Restart => true
  }

  function AttemptsOf(s: PollerState, id: EventId): seq<Attempt> {
    if id in s.attempts then s.attempts[id] else []
  }

  function Settle(s: PollerState, r: Row): PollerState
    requires s.batch.Publishing?
  {
    var id := s.batch.id;
    s.(rows := s.rows[id := r],
       attempts := s.attempts[id := AttemptsOf(s, id) + [Attempt(s.batch.startedAt, s.clock)]],
       batch := Between(s.batch.rest))
  }

  function Next(o: Options, s: PollerState, step: Step): PollerState
    requires Enabled(o, s, step)
  {
    match step
    case Insert(id, occurredAt) =>
      s.(rows := s.rows[id := Row(occurredAt, None, None, None, 0, None)], attempts := s.attempts[id := []])
    case Tick(now) => s.(clock := now)
    case ProcessBatch =>
      if s.batch != NoBatch then s
      else if s.shuttingDown then s.(batch := Resolved)
      else s.(batch := Querying(s.clock, s.rows.Keys), queries := s.queries + 1)
    case RowsFound(found) => s.(batch := Between(found))
    case StartEvent(deserializes) =>
      var id := s.batch.queue[0];
      s.(batch := Publishing(id, s.clock, deserializes, s.batch.queue[1..]),
         bus := if deserializes then s.bus + [id] else s.bus)
    case PublishSucceeds => Settle(s, PublishedRow(s.rows[s.batch.id], s.clock))
    case PublishFails(message) => Settle(s, FailedRow(o, s.rows[s.batch.id], s.clock, message))
    case FinishBatch => s.(batch := Resolved)
    case ReleaseBatch => s.(batch := NoBatch)
    case Shutdown => s.(shuttingDown := true)
    case Restart => s.(batch := NoBatch, shuttingDown := false, restarts := s.restarts + 1)
  }

  // ---------------------------------------------------------------- the service object

  /** The poller; each method is one segment between awaits. The clock is read through a parameter. */
  class OutboxPoller {
    const options: Options
    var rows: map<EventId, Row>
    var activeBatch: Batch
    var shuttingDown: bool
    ghost var clock: int
    ghost var bus: seq<EventId>
    ghost var attempts: map<EventId, seq<Attempt>>
    ghost var queries: nat
    ghost var restarts: nat

    /** A poller over the rows an earlier one left behind, with the history they share. */
    constructor (options: Options, rows: map<EventId, Row>, ghost before: PollerState)
      requires rows == before.rows
      ensures State() == Next(options, before, Step.Restart) && this.options == options
    {
      this.options, this.rows, activeBatch, shuttingDown := options, rows, NoBatch, false;
      clock, bus, attempts, queries, restarts :=
        before.clock, before.bus, before.attempts, before.queries, before.restarts + 1;
    }

    ghost function State(): PollerState
      reads this
    {
      PollerState(rows, activeBatch, shuttingDown, clock, bus, attempts, queries, restarts)
    }

    /** `processBatch` up to the query of `runBatch`: share the running batch, or begin one. */
    method ProcessBatch(now: int)
      requires now == clock
      modifies this
      ensures State() == Next(options, old(State()), Step.ProcessBatch)
    {
      if activeBatch != NoBatch {
        return;
      }
      if shuttingDown {
        activeBatch := Resolved;
        return;
      }
      activeBatch := Querying(now, rows.Keys);
      queries := queries + 1;
    }

    /** The query returns; the loop over its rows begins. */
    method RowsFound(found: seq<EventId>)
      requires Enabled(options, State(), Step.RowsFound(found))
      modifies this
      ensures State() == Next(options, old(State()), Step.RowsFound(found))
    {
      activeBatch := Between(found);
    }

    /** `processEvent` up to the publish call, which reaches the bus if the payload deserializes. */
    method StartEvent(deserializes: bool, now: int)
      requires now == clock && Enabled(options, State(), Step.StartEvent(deserializes))
      modifies this
      ensures State() == Next(options, old(State()), Step.StartEvent(deserializes))
    {
      var id := activeBatch.queue[0];
      if deserializes {
        bus := bus + [id];
      }
      activeBatch := Publishing(id, now, deserializes, activeBatch.queue[1..]);
    }

    /** The rest of `processEvent` when publishing succeeds. */
    method PublishSucceeds(now: int)
      requires now == clock && Enabled(options, State(), Step.PublishSucceeds)
      modifies this
      ensures State() == Next(options, old(State()), Step.PublishSucceeds)
    {
      var id := activeBatch.id;
      var r := rows[id];
      attempts := attempts[id := AttemptsOf(State(), id) + [Attempt(activeBatch.startedAt, now)]];
      r := r.(publishedAt := Some(now));
      r := r.(lastError := None);
      r := r.(retryAfterAt := None);
      rows := rows[id := r];
      activeBatch := Between(activeBatch.rest);
    }

    /** `handlePublishError`. */
    method PublishFails(message: string, now: int)
      requires now == clock && Enabled(options, State(), Step.PublishFails(message))
      modifies this
      ensures State() == Next(options, old(State()), Step.PublishFails(message))
    {
      var id := activeBatch.id;
      var r := rows[id];
      attempts := attempts[id := AttemptsOf(State(), id) + [Attempt(activeBatch.startedAt, now)]];
      var nextRetryCount := r.retryCount + 1;
      r := r.(retryCount := nextRetryCount);
      r := r.(lastError := Some(message));
      if nextRetryCount >= options.maxRetryCount {
        r := r.(failedAt := Some(now));
        r := r.(retryAfterAt := None);
      } else {
        r := r.(retryAfterAt := Some(now + BackoffMs(options, nextRetryCount)));
      }
      rows := rows[id := r];
      activeBatch := Between(activeBatch.rest);
    }

    /** The loop is over: `runBatch` resolves. */
    method FinishBatch()
      requires Enabled(options, State(), Step.FinishBatch)
      modifies this
      ensures State() == Next(options, old(State()), Step.FinishBatch)
    {
      activeBatch := Resolved;
    }

    /** The `finally` callback. */
    method ReleaseBatch()
      requires Enabled(options, State(), Step.ReleaseBatch)
      modifies this
      ensures State() == Next(options, old(State()), Step.ReleaseBatch)
    {
      activeBatch := NoBatch;
    }

    method OnApplicationShutdown()
      modifies this
      ensures State() == Next(options, old(State()), Step.Shutdown)
    {
      shuttingDown := true;
    }
  }
}
