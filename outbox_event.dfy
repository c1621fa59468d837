/**
 * A row of the `cityos_outbox` table and its status lifecycle:
 * pending -> published, or pending -> failed -> ... -> dead_letter, with an
 * exponential retry delay of 10 * 2^n seconds after the n-th failure.
 * Timestamps are integer seconds; `now` is always a parameter.
 */
module Outbox {
  import opened Values

  const PENDING := "pending"
  const PUBLISHED := "published"
  const FAILED := "failed"
  const DEAD_LETTER := "dead_letter"

  /** Column default of `max_retries` in the outbox migration. */
  const DEFAULT_MAX_RETRIES := 5

  /** Base of the retry delay, in seconds. */
  const RETRY_BASE_SECONDS := 10

  /** The columns of one outbox row. `envelope` is the `payload` column, which holds the whole envelope. */
  datatype Row = Row(
    eventId: string,
    eventType: string,
    tenantId: Option<string>,
    envelope: map<string, Json>,
    correlationId: Json,
    nodeContext: map<string, Json>,
    status: string,
    retryCount: nat,
    maxRetries: int,
    errorMessage: Option<string>,
    publishedAt: Option<int>,
    nextRetryAt: Option<int>,
    createdAt: int)

  function Pow2(n: nat): (p: nat)
    ensures p >= 1
  {
    if n == 0 then 1 else 2 * Pow2(n - 1)
  }

  /** `pow(2, $retryCount) * 10` seconds. */
  function RetryDelay(retryCount: nat): nat
  {
    Pow2(retryCount) * RETRY_BASE_SECONDS
  }

  /** The retry delay doubles with every further failure, starting from 10 seconds. */
  lemma {:induction false} RetryDelayDoubles(n: nat)
    ensures RetryDelay(0) == 10
    ensures RetryDelay(n + 1) == 2 * RetryDelay(n)
  {
  }

  /** The columns that no status transition writes. */
  ghost predicate SameEvent(r: Row, r': Row)
  {
    && r'.eventId == r.eventId
    && r'.eventType == r.eventType
    && r'.tenantId == r.tenantId
    && r'.envelope == r.envelope
    && r'.correlationId == r.correlationId
    && r'.nodeContext == r.nodeContext
    && r'.maxRetries == r.maxRetries
    && r'.createdAt == r.createdAt
  }

  /**
   * The status invariant the transitions keep: a failed row still has retries
   * left and a retry time, a dead-lettered row has used them all and has no
   * retry time, a published row has its publication time.
   */
  ghost predicate Consistent(r: Row)
  {
    && (r.status == FAILED ==> r.retryCount < r.maxRetries && r.nextRetryAt.Some?)
    && (r.status == DEAD_LETTER ==> r.retryCount >= r.maxRetries && r.nextRetryAt.None?)
    && (r.status == PUBLISHED ==> r.publishedAt.Some?)
  }

  /** `markPublished`: only the status and the publication time change. */
  function Published(r: Row, now: int): (r': Row)
    ensures r'.status == PUBLISHED && r'.publishedAt == Some(now)
    ensures SameEvent(r, r')
    ensures r'.retryCount == r.retryCount && r'.errorMessage == r.errorMessage
    ensures r'.nextRetryAt == r.nextRetryAt
    ensures Consistent(r')
  {
    r.(status := PUBLISHED, publishedAt := Some(now))
  }

  /** `markFailed`: one more retry used, then dead letter once the ceiling is reached. */
  function Failed(r: Row, error: string, now: int): (r': Row)
    ensures r'.retryCount == r.retryCount + 1
    ensures r'.status == DEAD_LETTER <==> r'.retryCount >= r.maxRetries
    ensures r'.status == FAILED <==> r'.retryCount < r.maxRetries
    ensures r'.status == FAILED ==> r'.nextRetryAt == Some(now + 10 * Pow2(r'.retryCount))
    ensures r'.status == DEAD_LETTER ==> r'.nextRetryAt == None
    ensures r'.errorMessage == Some(error)
    ensures SameEvent(r, r') && r'.publishedAt == r.publishedAt
    ensures Consistent(r')
  {
    var retryCount := r.retryCount + 1;
    var status := if retryCount >= r.maxRetries then DEAD_LETTER else FAILED;
    var nextRetry := if status == FAILED then Some(now + RetryDelay(retryCount)) else None;
    r.(status := status, retryCount := retryCount, errorMessage := Some(error), nextRetryAt := nextRetry)
  }

  /** A row as `OutboxEvent::create` stores it, with the migration's defaults for the columns not given. */
  function Inserted(eventId: string, eventType: string, tenantId: Option<string>, envelope: map<string, Json>,
                    correlationId: Json, nodeContext: map<string, Json>, createdAt: int): (r: Row)
    ensures r.status == PENDING && r.retryCount == 0 && r.maxRetries == DEFAULT_MAX_RETRIES
    ensures r.errorMessage == None && r.publishedAt == None && r.nextRetryAt == None
    ensures r.eventId == eventId && r.eventType == eventType && r.tenantId == tenantId
    ensures r.envelope == envelope && r.correlationId == correlationId
    ensures r.nodeContext == nodeContext && r.createdAt == createdAt
    ensures Consistent(r)
  {
    Row(eventId, eventType, tenantId, envelope, correlationId, nodeContext, PENDING, 0, DEFAULT_MAX_RETRIES,
        None, None, None, createdAt)
  }

  /** Consecutive failed attempts, the i-th at time `times[i]`, all with the same error text. */
  function FailAll(r: Row, error: string, times: seq<int>): Row
    decreases |times|
  {
    if times == [] then r
    else Failed(FailAll(r, error, times[..|times| - 1]), error, times[|times| - 1])
  }

  /**
   * After k >= 1 consecutive failures a row has used exactly k more retries, it
   * is dead-lettered iff that reaches `max_retries`, and the envelope and the
   * other fixed columns never change.
   */
  lemma {:induction false} FailAllCounts(r: Row, error: string, times: seq<int>)
    requires |times| >= 1
    ensures FailAll(r, error, times).retryCount == r.retryCount + |times|
    ensures FailAll(r, error, times).status == DEAD_LETTER <==> r.retryCount + |times| >= r.maxRetries
    ensures FailAll(r, error, times).status == FAILED <==> r.retryCount + |times| < r.maxRetries
    ensures SameEvent(r, FailAll(r, error, times))
    decreases |times|
  {
    if |times| > 1 {
      FailAllCounts(r, error, times[..|times| - 1]);
    }
  }

  /**
   * From a freshly inserted row (retry_count 0, max_retries 5), failures at
   * t1 .. t5 schedule retries 20, 40, 80 and 160 seconds later and the fifth
   * failure dead-letters the row.
   */
  lemma DefaultRetrySchedule(r: Row, error: string, t1: int, t2: int, t3: int, t4: int, t5: int)
    requires r.retryCount == 0 && r.maxRetries == DEFAULT_MAX_RETRIES
    ensures FailAll(r, error, [t1]).nextRetryAt == Some(t1 + 20)
    ensures FailAll(r, error, [t1, t2]).nextRetryAt == Some(t2 + 40)
    ensures FailAll(r, error, [t1, t2, t3]).nextRetryAt == Some(t3 + 80)
    ensures FailAll(r, error, [t1, t2, t3, t4]).nextRetryAt == Some(t4 + 160)
    ensures FailAll(r, error, [t1, t2, t3, t4]).status == FAILED
    ensures FailAll(r, error, [t1, t2, t3, t4, t5]).status == DEAD_LETTER
    ensures FailAll(r, error, [t1, t2, t3, t4, t5]).nextRetryAt == None
  {
    assert [t1, t2, t3, t4, t5][..4] == [t1, t2, t3, t4];
    assert [t1, t2, t3, t4][..3] == [t1, t2, t3];
    assert [t1, t2, t3][..2] == [t1, t2];
    assert [t1, t2][..1] == [t1];
    assert [t1][..0] == [];
  }

  /** A row with four failures behind it dead-letters on the next one and loses its retry time. */
  lemma FifthFailureDeadLetters(r: Row, error: string, now: int)
    requires r.status == FAILED && r.retryCount == 4 && r.maxRetries == 5
    ensures Failed(r, error, now).status == DEAD_LETTER
    ensures Failed(r, error, now).retryCount == 5
    ensures Failed(r, error, now).nextRetryAt == None
  {
  }

  /**
   * A failed row that later succeeds keeps its old retry time, retry count and
   * error text: `markPublished` does not clear them.
   */
  lemma RecoveredRowKeepsRetryState(r: Row, now: int)
    requires r.status == FAILED && r.nextRetryAt.Some?
    ensures Published(r, now).nextRetryAt == r.nextRetryAt
    ensures Published(r, now).retryCount == r.retryCount
  {
  }

  /** The four status strings are distinct, so each status predicate holds for its own string only. */
  lemma StatusesDistinct()
    ensures PENDING != PUBLISHED && PENDING != FAILED && PENDING != DEAD_LETTER
    ensures PUBLISHED != FAILED && PUBLISHED != DEAD_LETTER && FAILED != DEAD_LETTER
  {
  }

  /** An outbox row as an Eloquent model: the status columns are updated in place. */
  class OutboxEvent {
    const eventId: string
    const eventType: string
    const tenantId: Option<string>
    const envelope: map<string, Json>
    const correlationId: Json
    const nodeContext: map<string, Json>
    const maxRetries: int
    const createdAt: int
    var status: string
    var retryCount: nat
    var errorMessage: Option<string>
    var publishedAt: Option<int>
    var nextRetryAt: Option<int>

    /** `OutboxEvent::create($attributes)`. */
    constructor (row: Row)
      ensures Snapshot() == row
    {
      eventId, eventType, tenantId := row.eventId, row.eventType, row.tenantId;
      envelope, correlationId, nodeContext := row.envelope, row.correlationId, row.nodeContext;
      maxRetries, createdAt := row.maxRetries, row.createdAt;
      status, retryCount, errorMessage := row.status, row.retryCount, row.errorMessage;
      publishedAt, nextRetryAt := row.publishedAt, row.nextRetryAt;
    }

    /** The row as the database holds it now. */
    function Snapshot(): Row
      reads this
    {
      Row(eventId, eventType, tenantId, envelope, correlationId, nodeContext, status, retryCount, maxRetries,
          errorMessage, publishedAt, nextRetryAt, createdAt)
    }

    predicate IsPending()
      reads this
      ensures IsPending() <==> Snapshot().status == PENDING
    {
      status == PENDING
    }

    predicate IsPublished()
      reads this
      ensures IsPublished() <==> Snapshot().status == PUBLISHED
    {
      status == PUBLISHED
    }

    predicate IsFailed()
      reads this
      ensures IsFailed() <==> Snapshot().status == FAILED
    {
      status == FAILED
    }

    predicate IsDeadLetter()
      reads this
      ensures IsDeadLetter() <==> Snapshot().status == DEAD_LETTER
    {
      status == DEAD_LETTER
    }

    method MarkPublished(now: int)
      modifies this
      ensures Snapshot() == Published(old(Snapshot()), now)
    {
      status := PUBLISHED;
      publishedAt := Some(now);
    }

    method MarkFailed(error: string, now: int)
      modifies this
      ensures Snapshot() == Failed(old(Snapshot()), error, now)
    {
      var newCount := retryCount + 1;
      var newStatus := if newCount >= maxRetries then DEAD_LETTER else FAILED;
      var nextRetry := if newStatus == FAILED then Some(now + Pow2(newCount) * 10) else None;
      status, retryCount, errorMessage, nextRetryAt := newStatus, newCount, Some(error), nextRetry;
    }
  }

  /** At most one of the four status predicates holds for any row. */
  lemma StatusPredicatesExclusive(e: OutboxEvent)
    ensures e.IsPending() ==> !e.IsPublished() && !e.IsFailed() && !e.IsDeadLetter()
    ensures e.IsPublished() ==> !e.IsFailed() && !e.IsDeadLetter()
    ensures e.IsFailed() ==> !e.IsDeadLetter()
  {
    StatusesDistinct();
  }

  /** The snapshots of a sequence of rows, index by index. */
  function SnapshotsOf(es: seq<OutboxEvent>): (rs: seq<Row>)
    reads es
    ensures |rs| == |es|
    ensures forall i :: 0 <= i < |es| ==> rs[i] == es[i].Snapshot()
  {
    if es == [] then [] else [es[0].Snapshot()] + SnapshotsOf(es[1..])
  }

  /** The `cityos_outbox` table: its rows, each a distinct model object, in insertion order. */
  class OutboxTable {
    var events: seq<OutboxEvent>

    constructor ()
      ensures events == []
    {
      events := [];
    }

    ghost predicate Valid()
      reads this
    {
      forall i, j :: 0 <= i < j < |events| ==> events[i] != events[j]
    }

    function Rows(): seq<Row>
      reads this, events
    {
      SnapshotsOf(events)
    }

    /** Inserts one row; nothing already stored changes. */
    method Insert(row: Row) returns (e: OutboxEvent)
      requires Valid()
      modifies this
      ensures Valid() && fresh(e)
      ensures events == old(events) + [e]
      ensures e.Snapshot() == row
    {
      e := new OutboxEvent(row);
      events := events + [e];
    }
  }
}
