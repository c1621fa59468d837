/**
 * `CityBusService`: the transactional outbox publisher, the dispatcher that
 * drains it and the router that sends each event to a workflow or to the
 * ledger. The clock is the `now` parameter, fresh uuids come from an
 * `IdSupply`, and whether routing throws is an oracle `raises`.
 */
module CityBus {
  import opened Values
  import opened Ids
  import opened Ordering
  import opened Outbox
  import opened IntegrationLogs
  import opened ERPNext

  const ENVELOPE_VERSION := "1.0"
  const SOURCE_SYSTEM := "fleetbase"
  const SOURCE_SERVICE := "cityos-api"

  /** `$m[$outer][$inner] ?? null`. */
  function Inner(m: map<string, Json>, outer: string, inner: string): Json
  {
    match Get(m, outer)
    case JObj(fields) => Get(fields, inner)
    case _ => JNull
  }

  /** `$payload['correlation_id'] ?? (string) Str::uuid()`, `freshId` standing for the uuid. */
  function CorrelationFor(payload: map<string, Json>, freshId: string): Json
  {
    if Supplied(payload, "correlation_id") then payload["correlation_id"] else JStr(freshId)
  }

  /** The versioned envelope `publish` stores in the `payload` column. */
  function Envelope(eventId: string, eventType: string, payload: map<string, Json>, nodeContext: map<string, Json>,
                    correlationId: Json, now: int): map<string, Json>
  {
    map[
      "event_id" := JStr(eventId),
      "event_type" := JStr(eventType),
      "version" := JStr(ENVELOPE_VERSION),
      "timestamp" := Timestamp(now),
      "source" := JObj(map["system" := JStr(SOURCE_SYSTEM), "service" := JStr(SOURCE_SERVICE)]),
      "node_context" := JObj(nodeContext),
      "correlation" := JObj(map["correlation_id" := correlationId, "causation_id" := Get(payload, "causation_id")]),
      "payload" := JObj(payload),
      "metadata" := JObj(map[
        "retry_count" := JInt(0),
        "first_published" := Timestamp(now),
        "idempotency_key" := Get(payload, "idempotency_key")])]
  }

  /**
   * The row `publish` inserts: pending, with no retries used, under the
   * caller's correlation id or else the fresh one.
   */
  function NewEventRow(eventType: string, payload: map<string, Json>, nodeContext: map<string, Json>,
                       tenantId: Option<string>, eventId: string, freshId: string, now: int): (r: Row)
    ensures r.status == PENDING && r.retryCount == 0 && r.maxRetries == DEFAULT_MAX_RETRIES && r.createdAt == now
    ensures r.eventId == eventId && r.eventType == eventType && r.tenantId == tenantId
    ensures r.correlationId == (if Supplied(payload, "correlation_id") then payload["correlation_id"] else JStr(freshId))
    ensures r.nodeContext == nodeContext
    ensures Consistent(r)
  {
    var correlationId := CorrelationFor(payload, freshId);
    Inserted(eventId, eventType, tenantId, Envelope(eventId, eventType, payload, nodeContext, correlationId, now),
             correlationId, nodeContext, now)
  }

  /**
   * The stored envelope agrees with the row's own columns: its event id,
   * version, correlation and node context, with the caller's payload
   * carried unchanged and retry count zero.
   */
  lemma NewEventEnvelope(eventType: string, payload: map<string, Json>, nodeContext: map<string, Json>,
                         tenantId: Option<string>, eventId: string, freshId: string, now: int)
    ensures var r := NewEventRow(eventType, payload, nodeContext, tenantId, eventId, freshId, now);
            && Get(r.envelope, "event_id") == JStr(r.eventId)
            && Get(r.envelope, "version") == JStr(ENVELOPE_VERSION)
            && Get(r.envelope, "payload") == JObj(payload)
            && Get(r.envelope, "node_context") == JObj(r.nodeContext)
            && Inner(r.envelope, "metadata", "retry_count") == JInt(r.retryCount)
  {
  }

  /** The envelope's correlation block holds the row's correlation id and the caller's causation id and idempotency key. */
  lemma NewEventCorrelation(eventType: string, payload: map<string, Json>, nodeContext: map<string, Json>,
                            tenantId: Option<string>, eventId: string, freshId: string, now: int)
    ensures var r := NewEventRow(eventType, payload, nodeContext, tenantId, eventId, freshId, now);
            && Inner(r.envelope, "correlation", "correlation_id") == r.correlationId
            && Inner(r.envelope, "correlation", "causation_id") == Get(payload, "causation_id")
            && Inner(r.envelope, "metadata", "idempotency_key") == Get(payload, "idempotency_key")
  {
  }

  /**
   * `publish` always stores the caller's array under the envelope's
   * `payload` key, so routing a row it wrote never raises a `TypeError`,
   * whatever the caller's payload holds.
   */
  lemma PublishedRowsAreRoutable(eventType: string, payload: map<string, Json>, nodeContext: map<string, Json>,
                                 tenantId: Option<string>, eventId: string, freshId: string, now: int)
    ensures Routable(NewEventRow(eventType, payload, nodeContext, tenantId, eventId, freshId, now))
  {
    NewEventEnvelope(eventType, payload, nodeContext, tenantId, eventId, freshId, now);
  }

  // ---------------------------------------------------------------- routing

  /** The workflow template `routeEvent` starts for an event type, if any. */
  function WorkflowFor(eventType: string): Option<string>
  {
    if eventType == "DELIVERY_CREATED" then Some("DeliveryDispatchOrchestration")
    else if eventType == "DELIVERY_DISPATCHED" then Some("DeliveryTrackingWorkflow")
    else if eventType == "DELIVERY_FAILED" then Some("DeliveryExceptionEscalation")
    else if eventType == "PROVIDER_REGISTERED" then Some("ProviderOnboardingApproval")
    else None
  }

  /** The ledger posting `routeEvent` calls for an event type, if any. */
  function LedgerFor(eventType: string): Option<LedgerOp>
  {
    if eventType == "DELIVERY_COMPLETED" then Some(DeliverySettlement)
    else if eventType == "COD_COLLECTED" then Some(CodCollection)
    else if eventType == "SLA_PENALTY" then Some(Penalty)
    else None
  }

  /**
   * `$event->payload['payload'] ?? $event->payload` as the array the ledger
   * method reads: the inner payload, or the whole envelope when that is
   * missing or null. A list has only integer keys, which no lookup by name
   * finds, so it reads as an empty array. A scalar would be a type error in
   * the ledger method; `Routable` excludes it.
   */
  function LedgerData(envelope: map<string, Json>): map<string, Json>
  {
    if !Supplied(envelope, "payload") then envelope
    else match envelope["payload"]
      case JObj(fields) => fields
      case _ => map[]
  }

  /** Routing this row raises no type error: a ledger event's inner payload, if any, is an array. */
  predicate Routable(r: Row)
  {
    LedgerFor(r.eventType).None? || !Supplied(r.envelope, "payload")
    || r.envelope["payload"].JObj? || r.envelope["payload"].JArr?
  }

  /** A downstream call `routeEvent` makes. */
  datatype Action =
    | StartWorkflow(workflowType: string, workflowId: string, input: map<string, Json>)
    | PostLedger(op: LedgerOp, data: map<string, Json>)

  /**
   * The downstream calls for one row: at most one, since no event type is in
   * both tables, and none for a type in neither.
   */
  function RouteActions(r: Row): (acts: seq<Action>)
    ensures |acts| <= 1
    ensures WorkflowFor(r.eventType).Some? ==>
      acts == [StartWorkflow(WorkflowFor(r.eventType).value, r.eventType + "-" + r.eventId, r.envelope)]
    ensures LedgerFor(r.eventType).Some? ==> acts == [PostLedger(LedgerFor(r.eventType).value, LedgerData(r.envelope))]
    ensures WorkflowFor(r.eventType).None? && LedgerFor(r.eventType).None? ==> acts == []
  {
    var t := r.eventType;
    (if WorkflowFor(t).Some? then [StartWorkflow(WorkflowFor(t).value, t + "-" + r.eventId, r.envelope)] else [])
    + (if LedgerFor(t).Some? then [PostLedger(LedgerFor(t).value, LedgerData(r.envelope))] else [])
  }

  /** The data of the `citybus` / `dispatch_event` log row. */
  function DispatchLogData(r: Row): map<string, Json>
  {
    map[
      "request_data" := JObj(map["event_type" := JStr(r.eventType), "event_id" := JStr(r.eventId)]),
      "status" := JStr(SUCCESS)]
  }

  /** The dispatch row carries no correlation id of its own, so `logRequest` draws one. */
  lemma DispatchDataDrawsId(r: Row)
    ensures NeedsCorrelationId(DispatchLogData(r))
  {
  }

  /** The row `routeEvent` logs last, under a fresh correlation id. */
  function DispatchLogRow(r: Row, freshId: string): (row: LogRow)
    ensures IsRowOf(row, "citybus", "dispatch_event")
    ensures "request_data" in row && "status" in row && "correlation_id" in row
    ensures row["request_data"] == JObj(map["event_type" := JStr(r.eventType), "event_id" := JStr(r.eventId)])
    ensures row["status"] == JStr(SUCCESS) && row["correlation_id"] == JStr(freshId)
  {
    LogRecord("citybus", "dispatch_event", DispatchLogData(r), freshId)
  }

  /** The log rows routing one row appends when nothing throws: the ledger's row first, if any. */
  function RouteLogs(r: Row, configured: bool, gen: nat -> string, issued: nat, now: int): seq<LogRow>
  {
    match LedgerFor(r.eventType)
    case Some(op) => [LedgerLogRow(op, configured, gen(issued), LedgerData(r.envelope), now), DispatchLogRow(r, gen(issued + 1))]
    case None => [DispatchLogRow(r, gen(issued))]
  }

  lemma RouteLogsWithLedger(r: Row, op: LedgerOp, configured: bool, gen: nat -> string, issued: nat, now: int)
    requires LedgerFor(r.eventType) == Some(op)
    ensures RouteLogs(r, configured, gen, issued, now)
         == [LedgerLogRow(op, configured, gen(issued), LedgerData(r.envelope), now), DispatchLogRow(r, gen(issued + 1))]
  {
  }

  lemma RouteLogsWithoutLedger(r: Row, configured: bool, gen: nat -> string, issued: nat, now: int)
    requires LedgerFor(r.eventType).None?
    ensures RouteLogs(r, configured, gen, issued, now) == [DispatchLogRow(r, gen(issued))]
  {
  }

  lemma AppendTwo(before: seq<LogRow>, a: LogRow, b: LogRow)
    ensures before + [a] + [b] == before + [a, b]
  {
  }

  /** The uuids routing one row draws: one for the ledger row, if any, and one for the dispatch row. */
  function RouteDraws(r: Row): nat
  {
    if LedgerFor(r.eventType).Some? then 2 else 1
  }

  /** Routing one row writes one log row per uuid drawn. */
  lemma RouteLogsLength(r: Row, configured: bool, gen: nat -> string, issued: nat, now: int)
    ensures |RouteLogs(r, configured, gen, issued, now)| == RouteDraws(r)
  {
  }

  /** Routing one row writes exactly one dispatch row. */
  lemma RouteLogsOneDispatchRow(r: Row, configured: bool, gen: nat -> string, issued: nat, now: int)
    ensures CountRows(RouteLogs(r, configured, gen, issued, now), "citybus", "dispatch_event") == 1
  {
    match LedgerFor(r.eventType) {
      case Some(op) =>
        var l := LedgerLogRow(op, configured, gen(issued), LedgerData(r.envelope), now);
        var d := DispatchLogRow(r, gen(issued + 1));
        RouteLogsWithLedger(r, op, configured, gen, issued, now);
        assert IsRowOf(l, "erpnext", LogOperation(op));
        CountRowsShort(l, d, "citybus", "dispatch_event");
      case None =>
        var d := DispatchLogRow(r, gen(issued));
        RouteLogsWithoutLedger(r, configured, gen, issued, now);
        CountRowsShort(d, d, "citybus", "dispatch_event");
    }
  }

  // -------------------------------------------------------------- selection

  /** The `where` clause of `dispatchPending`; a null `next_retry_at` compares as false. */
  predicate IsDue(r: Row, now: int)
  {
    r.status == PENDING
    || (r.status == FAILED && r.nextRetryAt.Some? && r.nextRetryAt.value <= now && r.retryCount < r.maxRetries)
  }

  /**
   * For rows the transitions can produce, the `retry_count < max_retries`
   * filter is redundant, and published or dead-lettered rows are never due.
   */
  lemma DueFilterRedundant(r: Row, now: int)
    requires Consistent(r)
    ensures IsDue(r, now) <==> r.status == PENDING || (r.status == FAILED && r.nextRetryAt.value <= now)
    ensures r.status == PUBLISHED || r.status == DEAD_LETTER ==> !IsDue(r, now)
  {
  }

  /** The indices of the due rows, in storage order. */
  function DueIndices(rows: seq<Row>, now: int): (s: seq<nat>)
    ensures forall x: nat :: x in s <==> x < |rows| && IsDue(rows[x], now)
    ensures forall p, q :: 0 <= p < q < |s| ==> s[p] < s[q]
  {
    if rows == [] then []
    else
      var n := |rows| - 1;
      var front := DueIndices(rows[..n], now);
      assert forall x: nat :: x < n ==> rows[..n][x] == rows[x];
      assert forall p :: 0 <= p < |front| ==> front[p] in front && front[p] < n;
      var s := front + (if IsDue(rows[n], now) then [n] else []);
      assert forall x: nat :: x in s <==> x in front || (x == n && IsDue(rows[n], now));
      s
  }

  /** With no row due there are no due indices. */
  lemma {:induction false} NoDueNoIndices(rows: seq<Row>, now: int)
    requires forall j :: 0 <= j < |rows| ==> !IsDue(rows[j], now)
    ensures DueIndices(rows, now) == []
    decreases |rows|
  {
    if rows != [] {
      var n := |rows| - 1;
      assert forall j :: 0 <= j < n ==> rows[..n][j] == rows[j];
      NoDueNoIndices(rows[..n], now);
      assert !IsDue(rows[n], now);
    }
  }

  /** The `created_at` column, as sort keys. */
  function CreatedKeys(rows: seq<Row>): (keys: seq<int>)
    ensures |keys| == |rows| && forall i :: 0 <= i < |rows| ==> keys[i] == rows[i].createdAt
  {
    seq(|rows|, i requires 0 <= i < |rows| => rows[i].createdAt)
  }

  /**
   * The rows `dispatchPending` loads: due rows only, each once, oldest first,
   * as many as `limit($batchSize)` lets through.
   */
  function SelectDue(rows: seq<Row>, now: int, batchSize: int): (sel: seq<nat>)
    ensures forall p :: 0 <= p < |sel| ==> sel[p] < |rows| && IsDue(rows[sel[p]], now)
    ensures Distinct(sel)
    ensures forall p, q :: 0 <= p < q < |sel| ==> rows[sel[p]].createdAt <= rows[sel[q]].createdAt
    ensures |sel| == LimitCount(|DueIndices(rows, now)|, batchSize)
  {
    var due := DueIndices(rows, now);
    var keys := CreatedKeys(rows);
    var sorted := SortBy(due, keys);
    LimitDistinct(sorted, batchSize);
    LimitSorted(sorted, batchSize, keys);
    var sel := Limit(sorted, batchSize);
    assert forall p :: 0 <= p < |sel| ==> sel[p] in due;
    sel
  }

  /** A due row left out of the batch is no older than any row in it. */
  lemma SelectOldestFirst(rows: seq<Row>, now: int, batchSize: int, x: nat, y: nat)
    requires x in SelectDue(rows, now, batchSize)
    requires y < |rows| && IsDue(rows[y], now) && y !in SelectDue(rows, now, batchSize)
    ensures rows[x].createdAt <= rows[y].createdAt
  {
    var due := DueIndices(rows, now);
    var keys := CreatedKeys(rows);
    var sorted := SortBy(due, keys);
    assert y in sorted;
    LimitKeepsSmallest(sorted, batchSize, keys, x, y);
    var p :| 0 <= p < |Limit(sorted, batchSize)| && Limit(sorted, batchSize)[p] == x;
    assert x < |rows|;
  }

  /** When the batch is large enough (or unlimited) every due row is selected. */
  lemma SelectAllWhenRoom(rows: seq<Row>, now: int, batchSize: int, j: nat)
    requires batchSize < 0 || batchSize >= |DueIndices(rows, now)|
    requires j < |rows| && IsDue(rows[j], now)
    ensures j in SelectDue(rows, now, batchSize)
  {
    var due := DueIndices(rows, now);
    var sorted := SortBy(due, CreatedKeys(rows));
    assert j in sorted;
    assert Limit(sorted, batchSize) == sorted;
  }

  // --------------------------------------------------------------- dispatch

  /**
   * What one `dispatchPending` run depends on besides the stored rows.
   * `catchAll` is false for the dispatcher as written, whose `catch
   * (\Exception)` lets a `TypeError` through; true for one that catches it.
   */
  datatype Env = Env(configured: bool, gen: nat -> string, now: int, raises: Row -> Option<string>, catchAll: bool)

  /**
   * The store, the log, the uuids drawn and the `$results` counters part way
   * through a run; `aborted` once a `TypeError` has escaped the loop.
   */
  /** The state a run of `dispatchPending` threads: rows, log, uuids drawn, counters, the downstream calls made, and whether a `TypeError` ended it. */
  datatype DispatchState = DispatchState(rows: seq<Row>, logs: seq<LogRow>, issued: nat, published: nat, failed: nat,
                                         actions: seq<Action>, aborted: bool)

  datatype Tally = Tally(published: nat, failed: nat, total: nat)

  function Start(rows: seq<Row>, logs: seq<LogRow>, issued: nat): DispatchState
  {
    DispatchState(rows, logs, issued, 0, 0, [], false)
  }

  /** The message of the `TypeError` a ledger method raises on a non-array argument. */
  const TYPE_ERROR := "Argument #1 must be of type array"

  /** Routing this row fails: with a `TypeError`, or with an exception `raises` names. */
  predicate Fails(r: Row, env: Env)
  {
    !Routable(r) || env.raises(r).Some?
  }

  /** The row after a caught attempt: `markFailed` with the error's message if routing failed, else `markPublished`. */
  function Attempt(r: Row, env: Env): Row
  {
    if !Routable(r) then Failed(r, TYPE_ERROR, env.now)
    else match env.raises(r)
      case Some(message) => Failed(r, message, env.now)
      case None => Published(r, env.now)
  }

  /**
   * One pass of the `foreach` body for the row at index `i`. An uncaught
   * `TypeError` ends the run before the row is marked; a run that has ended
   * does nothing more.
   */
  function Step(st: DispatchState, i: nat, env: Env): DispatchState
    requires i < |st.rows|
  {
    var r := st.rows[i];
    if st.aborted then st
    else if !Routable(r) && !env.catchAll then st.(aborted := true)
    else if Fails(r, env) then
      st.(rows := st.rows[i := Attempt(r, env)], failed := st.failed + 1)
    else
      st.(rows := st.rows[i := Attempt(r, env)],
          logs := st.logs + RouteLogs(r, env.configured, env.gen, st.issued, env.now),
          issued := st.issued + RouteDraws(r),
          published := st.published + 1,
          actions := st.actions + RouteActions(r))
  }

  /** The `foreach` over the selected indices, in order. */
  function RunBatch(st: DispatchState, sel: seq<nat>, env: Env): (fin: DispatchState)
    requires forall p :: 0 <= p < |sel| ==> sel[p] < |st.rows|
    ensures |fin.rows| == |st.rows|
    ensures fin.published >= st.published && fin.failed >= st.failed
    ensures st.aborted ==> fin == st
    ensures !fin.aborted ==> fin.published + fin.failed == st.published + st.failed + |sel|
    decreases |sel|
  {
    if sel == [] then st
    else Step(RunBatch(st, sel[..|sel| - 1], env), sel[|sel| - 1], env)
  }

  /** No selected row raises an uncaught `TypeError`: each is routable, or the dispatcher catches everything. */
  predicate Survives(rows: seq<Row>, sel: seq<nat>, env: Env)
    requires forall p :: 0 <= p < |sel| ==> sel[p] < |rows|
  {
    env.catchAll || forall p :: 0 <= p < |sel| ==> Routable(rows[sel[p]])
  }

  /**
   * When no selected row raises an uncaught `TypeError`, the run completes,
   * each selected row is attempted exactly once from its stored value, and
   * every other row is untouched.
   */
  lemma {:induction false} RunBatchRows(st: DispatchState, sel: seq<nat>, env: Env, j: nat)
    requires forall p :: 0 <= p < |sel| ==> sel[p] < |st.rows|
    requires Distinct(sel) && j < |st.rows| && !st.aborted
    requires Survives(st.rows, sel, env)
    ensures !RunBatch(st, sel, env).aborted
    ensures RunBatch(st, sel, env).rows[j] == if j in sel then Attempt(st.rows[j], env) else st.rows[j]
    decreases |sel|
  {
    if sel != [] {
      var front := sel[..|sel| - 1];
      var last := sel[|sel| - 1];
      assert forall p :: 0 <= p < |front| ==> front[p] == sel[p];
      assert last !in front;
      RunBatchRows(st, front, env, j);
      RunBatchRows(st, front, env, last);
      assert env.catchAll || Routable(st.rows[last]);
      if j == last {
        assert j !in front;
      } else {
        assert j in sel <==> j in front;
      }
    }
  }

  /** Whether or not the run completes, each row ends as it was stored or as its attempt left it. */
  lemma {:induction false} RunBatchRowOutcome(st: DispatchState, sel: seq<nat>, env: Env, j: nat)
    requires forall p :: 0 <= p < |sel| ==> sel[p] < |st.rows|
    requires Distinct(sel) && j < |st.rows|
    ensures RunBatch(st, sel, env).rows[j] == st.rows[j]
         || (j in sel && RunBatch(st, sel, env).rows[j] == Attempt(st.rows[j], env))
    decreases |sel|
  {
    if sel != [] {
      var front := sel[..|sel| - 1];
      var last := sel[|sel| - 1];
      assert forall p :: 0 <= p < |front| ==> front[p] == sel[p];
      RunBatchRowOutcome(st, front, env, j);
      if j == last {
        assert j !in front;
      } else {
        assert j in front ==> j in sel;
      }
    }
  }

  /**
   * The log only grows, and it gains exactly one `citybus` / `dispatch_event`
   * row per published event.
   */
  lemma {:induction false} RunBatchLogs(st: DispatchState, sel: seq<nat>, env: Env)
    requires forall p :: 0 <= p < |sel| ==> sel[p] < |st.rows|
    ensures st.logs <= RunBatch(st, sel, env).logs
    ensures CountRows(RunBatch(st, sel, env).logs, "citybus", "dispatch_event")
         == CountRows(st.logs, "citybus", "dispatch_event") + RunBatch(st, sel, env).published - st.published
    decreases |sel|
  {
    if sel != [] {
      var front := sel[..|sel| - 1];
      var last := sel[|sel| - 1];
      assert forall p :: 0 <= p < |front| ==> front[p] == sel[p];
      RunBatchLogs(st, front, env);
      var mid := RunBatch(st, front, env);
      if !mid.aborted && !Fails(mid.rows[last], env) {
        var added := RouteLogs(mid.rows[last], env.configured, env.gen, mid.issued, env.now);
        CountRowsAppend(mid.logs, added, "citybus", "dispatch_event");
        RouteLogsOneDispatchRow(mid.rows[last], env.configured, env.gen, mid.issued, env.now);
      }
    }
  }

  /**
   * The downstream calls only grow, and each published event adds at most
   * one: a workflow start or a ledger posting. A failed or aborted row adds
   * none.
   */
  lemma {:induction false} RunBatchActions(st: DispatchState, sel: seq<nat>, env: Env)
    requires forall p :: 0 <= p < |sel| ==> sel[p] < |st.rows|
    ensures st.actions <= RunBatch(st, sel, env).actions
    ensures |RunBatch(st, sel, env).actions| - |st.actions| <= RunBatch(st, sel, env).published - st.published
    decreases |sel|
  {
    if sel != [] {
      var front := sel[..|sel| - 1];
      assert forall p :: 0 <= p < |front| ==> front[p] == sel[p];
      RunBatchActions(st, front, env);
      StepActions(RunBatch(st, front, env), sel[|sel| - 1], env);
    }
  }

  /** One step adds at most one downstream call, and only when it publishes. */
  lemma StepActions(st: DispatchState, i: nat, env: Env)
    requires i < |st.rows|
    ensures st.actions <= Step(st, i, env).actions
    ensures |Step(st, i, env).actions| - |st.actions| <= Step(st, i, env).published - st.published
  {
    var r := st.rows[i];
    if !st.aborted && (Routable(r) || env.catchAll) && !Fails(r, env) {
      assert Step(st, i, env).actions == st.actions + RouteActions(r);
    }
  }

  /** A run keeps every row consistent: the status invariant of the transitions carries over. */
  lemma RunBatchConsistent(st: DispatchState, sel: seq<nat>, env: Env)
    requires forall p :: 0 <= p < |sel| ==> sel[p] < |st.rows|
    requires Distinct(sel)
    requires forall j :: 0 <= j < |st.rows| ==> Consistent(st.rows[j])
    ensures forall j :: 0 <= j < |st.rows| ==> Consistent(RunBatch(st, sel, env).rows[j])
  {
    forall j | 0 <= j < |st.rows|
      ensures Consistent(RunBatch(st, sel, env).rows[j])
    {
      RunBatchRowOutcome(st, sel, env, j);
    }
  }

  /** A run never rewrites an envelope or another fixed column. */
  lemma RunBatchKeepsEvents(st: DispatchState, sel: seq<nat>, env: Env, j: nat)
    requires forall p :: 0 <= p < |sel| ==> sel[p] < |st.rows|
    requires Distinct(sel) && j < |st.rows|
    ensures SameEvent(st.rows[j], RunBatch(st, sel, env).rows[j])
  {
    RunBatchRowOutcome(st, sel, env, j);
  }

  /** With nothing due the run selects nothing, changes nothing and reports zero everywhere. */
  lemma NothingDueNoChange(rows: seq<Row>, logs: seq<LogRow>, issued: nat, now: int, batchSize: int, env: Env)
    requires forall j :: 0 <= j < |rows| ==> !IsDue(rows[j], now)
    ensures SelectDue(rows, now, batchSize) == []
    ensures RunBatch(Start(rows, logs, issued), SelectDue(rows, now, batchSize), env) == Start(rows, logs, issued)
  {
    NoDueNoIndices(rows, now);
    assert |SelectDue(rows, now, batchSize)| == 0;
  }

  /** Extending the selection by one index runs one more `Step`. */
  lemma RunBatchSnoc(st: DispatchState, sel: seq<nat>, k: nat, env: Env)
    requires forall p :: 0 <= p < |sel| ==> sel[p] < |st.rows|
    requires k < |sel|
    ensures RunBatch(st, sel[..k + 1], env) == Step(RunBatch(st, sel[..k], env), sel[k], env)
  {
    assert sel[..k + 1][..k] == sel[..k];
  }

  /** Once a prefix of the selection has aborted the run, the rest of the selection changes nothing. */
  lemma {:induction false} RunBatchAbortedStays(st: DispatchState, sel: seq<nat>, k: nat, env: Env)
    requires forall p :: 0 <= p < |sel| ==> sel[p] < |st.rows|
    requires k <= |sel| && RunBatch(st, sel[..k], env).aborted
    ensures RunBatch(st, sel, env) == RunBatch(st, sel[..k], env)
    decreases |sel|
  {
    if k == |sel| {
      assert sel[..k] == sel;
    } else {
      var front := sel[..|sel| - 1];
      assert forall p :: 0 <= p < |front| ==> front[p] == sel[p];
      assert front[..k] == sel[..k];
      RunBatchAbortedStays(st, front, k, env);
    }
  }

  lemma DistinctPrefix(s: seq<nat>, k: nat)
    requires Distinct(s) && k <= |s|
    ensures Distinct(s[..k]) && (k < |s| ==> s[k] !in s[..k])
  {
  }

  /**
   * As written, the first selected row whose inner payload is not an array
   * ends the run: it stays as stored, and so does every row selected after
   * it, while the rows before it keep their marks.
   */
  lemma RunBatchStopsAt(st: DispatchState, sel: seq<nat>, env: Env, p: nat)
    requires forall q :: 0 <= q < |sel| ==> sel[q] < |st.rows|
    requires Distinct(sel) && !st.aborted && !env.catchAll
    requires p < |sel| && !Routable(st.rows[sel[p]])
    requires forall q :: 0 <= q < p ==> Routable(st.rows[sel[q]])
    ensures RunBatch(st, sel, env) == RunBatch(st, sel[..p], env).(aborted := true)
  {
    DistinctPrefix(sel, p);
    assert forall q :: 0 <= q < p ==> sel[..p][q] == sel[q];
    RunBatchRows(st, sel[..p], env, sel[p]);
    RunBatchSnoc(st, sel, p, env);
    RunBatchAbortedStays(st, sel, p + 1, env);
  }

  /**
   * As written, when the oldest due row has a non-array inner payload, a run
   * aborts without changing a row, writing a log row or drawing a uuid, so
   * the next run finds the same store and aborts the same way.
   */
  lemma StalledOutbox(rows: seq<Row>, logs: seq<LogRow>, issued: nat, now: int, batchSize: int, env: Env)
    requires !env.catchAll
    requires |SelectDue(rows, now, batchSize)| > 0 && !Routable(rows[SelectDue(rows, now, batchSize)[0]])
    ensures RunBatch(Start(rows, logs, issued), SelectDue(rows, now, batchSize), env)
         == Start(rows, logs, issued).(aborted := true)
  {
    var sel := SelectDue(rows, now, batchSize);
    RunBatchStopsAt(Start(rows, logs, issued), sel, env, 0);
    assert sel[..0] == [];
  }

  /**
   * Corrected: a dispatcher that catches the `TypeError` too completes the
   * run and marks the offending row failed, one retry more, so that it is
   * dead-lettered once its retries are used up and stops blocking the queue.
   */
  lemma CaughtTypeErrorMarksFailed(st: DispatchState, sel: seq<nat>, env: Env, p: nat)
    requires forall q :: 0 <= q < |sel| ==> sel[q] < |st.rows|
    requires Distinct(sel) && !st.aborted && env.catchAll
    requires p < |sel| && !Routable(st.rows[sel[p]])
    ensures !RunBatch(st, sel, env).aborted
    ensures RunBatch(st, sel, env).published + RunBatch(st, sel, env).failed == st.published + st.failed + |sel|
    ensures RunBatch(st, sel, env).rows[sel[p]] == Failed(st.rows[sel[p]], TYPE_ERROR, env.now)
    ensures RunBatch(st, sel, env).rows[sel[p]].retryCount == st.rows[sel[p]].retryCount + 1
    ensures RunBatch(st, sel, env).rows[sel[p]].status in {FAILED, DEAD_LETTER}
  {
    RunBatchRows(st, sel, env, sel[p]);
    assert sel[p] in sel;
  }

  // ------------------------------------------------------------ statistics

  /** How many rows have the given status. */
  function CountStatus(rows: seq<Row>, status: string): (n: nat)
    ensures n <= |rows|
  {
    if rows == [] then 0 else (if rows[0].status == status then 1 else 0) + CountStatus(rows[1..], status)
  }

  datatype Stats = Stats(pending: nat, published: nat, failed: nat, deadLetter: nat, total: nat)

  /** `getOutboxStats` over the stored rows. */
  function OutboxStats(rows: seq<Row>): (s: Stats)
    ensures s.pending <= s.total && s.published <= s.total && s.failed <= s.total && s.deadLetter <= s.total
    ensures s.total == |rows|
  {
    Stats(CountStatus(rows, PENDING), CountStatus(rows, PUBLISHED), CountStatus(rows, FAILED),
          CountStatus(rows, DEAD_LETTER), |rows|)
  }

  predicate KnownStatus(status: string)
  {
    status == PENDING || status == PUBLISHED || status == FAILED || status == DEAD_LETTER
  }

  /** When every status is one of the four, the four counts add up to the total. */
  lemma {:induction false} StatsAddUp(rows: seq<Row>)
    requires forall i :: 0 <= i < |rows| ==> KnownStatus(rows[i].status)
    ensures var s := OutboxStats(rows); s.pending + s.published + s.failed + s.deadLetter == s.total
  {
    if rows != [] {
      assert forall i :: 0 <= i < |rows[1..]| ==> rows[1..][i] == rows[i + 1];
      StatsAddUp(rows[1..]);
      StatusesDistinct();
    }
  }

  /** The row indices in storage order. */
  function AllIndices(n: nat): (s: seq<nat>)
    ensures |s| == n && forall i :: 0 <= i < n ==> s[i] == i
  {
    if n == 0 then [] else AllIndices(n - 1) + [n - 1]
  }

  /** `created_at`, negated, so that ascending order on the key is newest first. */
  function NewestFirstKeys(rows: seq<Row>): (keys: seq<int>)
    ensures |keys| == |rows| && forall i :: 0 <= i < |rows| ==> keys[i] == -rows[i].createdAt
  {
    seq(|rows|, i requires 0 <= i < |rows| => -rows[i].createdAt)
  }

  /** The rows `getRecentEvents($limit)` returns, as indices: newest first, each once, at most `limit`. */
  function RecentIndices(rows: seq<Row>, limit: int): (r: seq<nat>)
    ensures |r| == LimitCount(|rows|, limit)
    ensures Distinct(r) && forall p :: 0 <= p < |r| ==> r[p] < |rows|
    ensures forall p, q :: 0 <= p < q < |r| ==> rows[r[p]].createdAt >= rows[r[q]].createdAt
  {
    var all := AllIndices(|rows|);
    var keys := NewestFirstKeys(rows);
    var sorted := SortBy(all, keys);
    assert forall x :: x in sorted ==> x < |rows|;
    LimitDistinct(sorted, limit);
    LimitSorted(sorted, limit, keys);
    var r := Limit(sorted, limit);
    assert forall p :: 0 <= p < |r| ==> r[p] in sorted;
    r
  }

  /** A row left out of the recent list is no newer than any row in it. */
  lemma RecentAreNewest(rows: seq<Row>, limit: int, x: nat, y: nat)
    requires x in RecentIndices(rows, limit)
    requires y < |rows| && y !in RecentIndices(rows, limit)
    ensures rows[x].createdAt >= rows[y].createdAt
  {
    var all := AllIndices(|rows|);
    var keys := NewestFirstKeys(rows);
    var sorted := SortBy(all, keys);
    assert all[y] == y;
    LimitKeepsSmallest(sorted, limit, keys, x, y);
    var p :| 0 <= p < |Limit(sorted, limit)| && Limit(sorted, limit)[p] == x;
    assert x < |rows|;
  }

  /** The rows themselves, in that order. */
  function RecentEvents(rows: seq<Row>, limit: int): (es: seq<Row>)
    ensures |es| == |RecentIndices(rows, limit)|
    ensures forall p :: 0 <= p < |es| ==> es[p] == rows[RecentIndices(rows, limit)[p]]
  {
    var ix := RecentIndices(rows, limit);
    seq(|ix|, p requires 0 <= p < |ix| => rows[ix[p]])
  }

  // ---------------------------------------------------------------- service

  /** The business callback's outcome in `publishWithTransaction`. */
  datatype Outcome = Returned(value: Json) | Threw(message: string)

  /** `['result' => ..., 'event' => ...]`, or the callback's exception after the rollback. */
  datatype TxResult = Committed(result: Json, event: OutboxEvent) | RolledBack(message: string)

  /**
   * How routing one row ends: it returns, it throws an `\Exception` that
   * `dispatchPending` catches, or a ledger method raises a `TypeError`,
   * which that `catch` does not catch.
   */
  datatype RouteOutcome = Routed | Raised(message: string) | Crashed

  class CityBusService {
    const outbox: OutboxTable
    const logs: IntegrationLogTable
    const ids: IdSupply
    const erpnext: ERPNextService
    /** The downstream calls `routeEvent` has made, in order: workflow starts and ledger postings. */
    ghost var calls: seq<Action>

    constructor (outbox: OutboxTable, logs: IntegrationLogTable, ids: IdSupply, erpnext: ERPNextService)
      ensures this.outbox == outbox && this.logs == logs && this.ids == ids && this.erpnext == erpnext
      ensures calls == []
    {
      this.outbox, this.logs, this.ids, this.erpnext := outbox, logs, ids, erpnext;
      calls := [];
    }

    /** `publish`: draws the event id, then a correlation id if the payload has none, and inserts one pending row. */
    method Publish(eventType: string, payload: map<string, Json>, nodeContext: map<string, Json>,
                   tenantId: Option<string>, now: int) returns (e: OutboxEvent)
      requires outbox.Valid()
      modifies outbox, ids
      ensures outbox.Valid() && fresh(e)
      ensures outbox.events == old(outbox.events) + [e]
      ensures e.Snapshot() == NewEventRow(eventType, payload, nodeContext, tenantId,
                                          ids.gen(old(ids.issued)), ids.gen(old(ids.issued) + 1), now)
      ensures ids.issued == old(ids.issued) + (if NeedsCorrelationId(payload) then 2 else 1)
    {
      var eventId := ids.Next();
      var correlationId: Json;
      if Supplied(payload, "correlation_id") {
        correlationId := payload["correlation_id"];
      } else {
        var uuid := ids.Next();
        correlationId := JStr(uuid);
      }
      var envelope := Envelope(eventId, eventType, payload, nodeContext, correlationId, now);
      e := outbox.Insert(Inserted(eventId, eventType, tenantId, envelope, correlationId, nodeContext, now));
    }

    /**
     * `publishWithTransaction`: the callback runs first; if it throws, the
     * transaction rolls back and no outbox row exists.
     */
    method PublishWithTransaction(eventType: string, payload: map<string, Json>, business: Outcome,
                                  nodeContext: map<string, Json>, tenantId: Option<string>, now: int)
      returns (r: TxResult)
      requires outbox.Valid()
      modifies outbox, ids
      ensures outbox.Valid()
      ensures business.Threw? ==> r == RolledBack(business.message)
      ensures business.Threw? ==> outbox.events == old(outbox.events) && ids.issued == old(ids.issued)
      ensures business.Returned? ==> r.Committed? && r.result == business.value && fresh(r.event)
      ensures business.Returned? ==> outbox.events == old(outbox.events) + [r.event]
      ensures business.Returned? ==> r.event.Snapshot() == NewEventRow(eventType, payload, nodeContext, tenantId,
                                                                   ids.gen(old(ids.issued)), ids.gen(old(ids.issued) + 1), now)
      ensures business.Returned? ==> ids.issued == old(ids.issued) + (if NeedsCorrelationId(payload) then 2 else 1)
    {
      match business
      case Threw(message) =>
        r := RolledBack(message);
      case Returned(value) =>
        var e := Publish(eventType, payload, nodeContext, tenantId, now);
        r := Committed(value, e);
    }

    /**
     * `routeEvent`: the workflow start (whose reply is discarded), or the
     * ledger posting, then the dispatch log row. A ledger event whose inner
     * payload is not an array raises a `TypeError` when the ledger method is
     * called; when `raises` names an error, routing throws that. Either
     * way nothing is written and no call is made.
     */
    method RouteEvent(r: Row, now: int, raises: Row -> Option<string>, ghost issued: nat) returns (outcome: RouteOutcome)
      requires ids.issued == issued
      modifies this, logs, ids
      ensures !Routable(r) ==> outcome == Crashed
      ensures Routable(r) && raises(r).Some? ==> outcome == Raised(raises(r).value)
      ensures Routable(r) && raises(r).None? ==> outcome == Routed
      ensures !outcome.Routed? ==> logs.rows == old(logs.rows) && ids.issued == issued
      ensures outcome.Routed? ==> logs.rows == old(logs.rows) + RouteLogs(r, erpnext.IsConfigured(), ids.gen, issued, now)
      ensures outcome.Routed? ==> ids.issued == issued + RouteDraws(r)
      ensures calls == old(calls) + (if outcome.Routed? then RouteActions(r) else [])
    {
      if !Routable(r) {
        return Crashed;
      }
      if raises(r).Some? {
        return Raised(raises(r).value);
      }
      outcome := Routed;
      if WorkflowFor(r.eventType).Some? {
        StartTemporalWorkflow(WorkflowFor(r.eventType).value, r.eventType + "-" + r.eventId, r.envelope);
      }
      match LedgerFor(r.eventType) {
        case Some(op) => RouteToLedger(r, op, now, issued);
        case None => LogDispatch(r, issued);
      }
    }

    /** `$this->temporal->startWorkflow(...)`, whose reply `routeEvent` discards. */
    method StartTemporalWorkflow(workflowType: string, workflowId: string, input: map<string, Json>)
      modifies this
      ensures calls == old(calls) + [StartWorkflow(workflowType, workflowId, input)]
    {
      calls := calls + [StartWorkflow(workflowType, workflowId, input)];
    }

    /** The ledger branch of `routeEvent`: the posting's log row, then the dispatch row. */
    method RouteToLedger(r: Row, op: LedgerOp, now: int, ghost issued: nat)
      requires LedgerFor(r.eventType) == Some(op) && ids.issued == issued
      modifies this, logs, ids
      ensures logs.rows == old(logs.rows) + RouteLogs(r, erpnext.IsConfigured(), ids.gen, issued, now)
      ensures ids.issued == issued + 2
      ensures calls == old(calls) + RouteActions(r)
      ensures RouteActions(r) == [PostLedger(op, LedgerData(r.envelope))]
    {
      ghost var before := logs.rows;
      var data := LedgerData(r.envelope);
      RouteLogsWithLedger(r, op, erpnext.IsConfigured(), ids.gen, issued, now);
      PostToLedger(op, data, now, issued);
      LogDispatch(r, issued + 1);
      AppendTwo(before, LedgerLogRow(op, erpnext.IsConfigured(), ids.gen(issued), data, now),
                DispatchLogRow(r, ids.gen(issued + 1)));
    }

    /** The closing `IntegrationLog::logRequest('citybus', 'dispatch_event', ...)`. */
    method LogDispatch(r: Row, ghost issued: nat)
      requires ids.issued == issued
      modifies logs, ids
      ensures logs.rows == old(logs.rows) + [DispatchLogRow(r, ids.gen(issued))]
      ensures ids.issued == issued + 1
      ensures calls == old(calls)
    {
      DispatchDataDrawsId(r);
      var _ := logs.LogRequest("citybus", "dispatch_event", DispatchLogData(r), ids);
    }

    /** `$this->erpnext->$method(...)`, whose reply `routeEvent` discards. */
    method PostToLedger(op: LedgerOp, data: map<string, Json>, now: int, ghost issued: nat)
      requires ids.issued == issued
      modifies this, logs, ids
      ensures logs.rows == old(logs.rows) + [LedgerLogRow(op, erpnext.IsConfigured(), ids.gen(issued), data, now)]
      ensures ids.issued == issued + 1
      ensures calls == old(calls) + [PostLedger(op, data)]
    {
      calls := calls + [PostLedger(op, data)];
      var _ := erpnext.Post(op, data, now, logs, ids);
    }

    /**
     * `dispatchPending($batchSize)`: selects the due rows, routes each in
     * turn, marks it published or failed, and counts the outcomes. The new
     * store, log and counters are those of `RunBatch`. A `TypeError` ends
     * the run part way (`None`: the caller gets no counts, and the rows
     * already routed keep their marks).
     */
    method DispatchPending(batchSize: int, now: int, raises: Row -> Option<string>) returns (res: Option<Tally>)
      requires outbox.Valid()
      modifies this, outbox.events, logs, ids
      ensures var sel := SelectDue(old(outbox.Rows()), now, batchSize);
              var fin := RunBatch(Start(old(outbox.Rows()), old(logs.rows), old(ids.issued)), sel,
                                  Env(erpnext.IsConfigured(), ids.gen, now, raises, false));
              && outbox.Rows() == fin.rows && logs.rows == fin.logs && ids.issued == fin.issued
              && calls == old(calls) + fin.actions
              && res == if fin.aborted then None else Some(Tally(fin.published, fin.failed, |sel|))
    {
      var sel := SelectDue(outbox.Rows(), now, batchSize);
      res := DispatchSelected(sel, now, raises, outbox.Rows());
    }

    /** The `foreach` of `dispatchPending` over the selected rows, in the order selected. */
    method DispatchSelected(sel: seq<nat>, now: int, raises: Row -> Option<string>, ghost rows: seq<Row>)
      returns (res: Option<Tally>)
      requires outbox.Valid() && outbox.Rows() == rows
      requires forall p :: 0 <= p < |sel| ==> sel[p] < |rows|
      modifies this, outbox.events, logs, ids
      ensures var fin := RunBatch(Start(rows, old(logs.rows), old(ids.issued)), sel,
                                  Env(erpnext.IsConfigured(), ids.gen, now, raises, false));
              && outbox.Rows() == fin.rows && logs.rows == fin.logs && ids.issued == fin.issued
              && calls == old(calls) + fin.actions
              && res == if fin.aborted then None else Some(Tally(fin.published, fin.failed, |sel|))
    {
      ghost var env := Env(erpnext.IsConfigured(), ids.gen, now, raises, false);
      ghost var init := Start(rows, logs.rows, ids.issued);
      ghost var st := init;
      ghost var calls0 := calls;
      var published, failed := 0, 0;
      var crashed := false;
      var k := 0;
      while k < |sel| && !crashed
        invariant 0 <= k <= |sel|
        invariant st == RunBatch(init, sel[..k], env)
        invariant outbox.Valid() && Mirrors(st.rows)
        invariant logs.rows == st.logs && ids.issued == st.issued && calls == calls0 + st.actions
        invariant published == st.published && failed == st.failed && crashed == st.aborted
      {
        ghost var next;
        published, failed, crashed, next := DispatchOne(sel[k], now, raises, published, failed, st, env, calls0);
        RunBatchSnoc(init, sel, k, env);
        st := next;
        k := k + 1;
      }
      if crashed {
        RunBatchAbortedStays(init, sel, k, env);
        res := None;
      } else {
        assert sel[..k] == sel;
        res := Some(Tally(published, failed, |sel|));
      }
    }

    /** The model objects hold exactly the given rows, index by index. */
    ghost predicate Mirrors(rows: seq<Row>)
      reads outbox, outbox.events
    {
      |outbox.events| == |rows| && forall j :: 0 <= j < |rows| ==> outbox.events[j].Snapshot() == rows[j]
    }

    /** One pass of the `foreach` body: route the event, then mark it published or failed, unless a `TypeError` escapes. */
    method DispatchOne(i: nat, now: int, raises: Row -> Option<string>, published: nat, failed: nat,
                       ghost st: DispatchState, ghost env: Env, ghost calls0: seq<Action>)
      returns (published': nat, failed': nat, crashed: bool, ghost next: DispatchState)
      requires outbox.Valid() && Mirrors(st.rows) && !st.aborted
      requires i < |st.rows|
      requires logs.rows == st.logs && ids.issued == st.issued
      requires env == Env(erpnext.IsConfigured(), ids.gen, now, raises, false)
      requires published == st.published && failed == st.failed && calls == calls0 + st.actions
      modifies this, outbox.events[i], logs, ids
      ensures next == Step(st, i, env)
      ensures Mirrors(next.rows) && logs.rows == next.logs && ids.issued == next.issued
      ensures calls == calls0 + next.actions
      ensures published' == next.published && failed' == next.failed && crashed == next.aborted
    {
      next := Step(st, i, env);
      var e := outbox.events[i];
      var outcome := RouteEvent(e.Snapshot(), now, raises, st.issued);
      match outcome {
        case Crashed =>
          published', failed', crashed := published, failed, true;
        case Raised(message) =>
          e.MarkFailed(message, now);
          published', failed', crashed := published, failed + 1, false;
        case Routed =>
          e.MarkPublished(now);
          published', failed', crashed := published + 1, failed, false;
      }
    }

    /** `getOutboxStats`. */
    method GetOutboxStats() returns (s: Stats)
      ensures s == OutboxStats(outbox.Rows())
    {
      s := OutboxStats(outbox.Rows());
    }

    /** `getRecentEvents($limit)`. */
    method GetRecentEvents(limit: int) returns (es: seq<Row>)
      ensures es == RecentEvents(outbox.Rows(), limit)
    {
      es := RecentEvents(outbox.Rows(), limit);
    }
  }
}
