# CityOS outbox, dispatcher, node context and ledger adapter

This project models the event core of the CityOS package of the Dakkah CityOS
Fleetbase platform and proves properties of that model.

- **Transactional outbox.** `CityBusService::publish` wraps a business event in a
  versioned envelope and stores it as a pending row of `cityos_outbox`.
  `publishWithTransaction` does the same inside a database transaction, after a
  business callback.
- **Dispatcher.** `dispatchPending` loads the due rows (pending, or failed with
  the retry time passed), oldest first, at most a batch of them. It routes each
  row with `routeEvent` and marks it published, or failed with exponential
  back-off. After `max_retries` failures a row is dead-lettered.
- **Routing.** `routeEvent` starts a workflow for delivery and provider events.
  It posts ledger events for completed deliveries, COD collections and SLA
  penalties. Whenever routing does not fail, it writes a `citybus` /
  `dispatch_event` row to the integration log. A `TypeError` from a ledger
  method is not caught and ends the dispatcher's run.
- **`OutboxEvent`** holds the row's status lifecycle (`markPublished`,
  `markFailed`, the four status predicates).
- **`IntegrationLog::logRequest`** merges defaults with the caller's data; the
  data wins.
- **`ERPNextService`** builds settlement, COD, penalty and payout events. It
  fills in defaults, logs each event under `erpnext` and replies in `live` or
  `stub` mode. It makes no HTTP call.
- **`NodeContext`** carries fifteen tags through a request.
  - It is built from request signals (header, route, cookie, body) or from an
    array with defaults.
  - It can be filled in from the tenant it names; `Tenant::getNodeContext`
    supplies that tenant's context with fallbacks.
  - It validates its required fields.
  - The `ResolveNodeContext` middleware composes these steps.

## How the model is built

Files and modules:

| file | module | contents |
|---|---|---|
| `values.dfy` | `Values` | PHP values: `??`, `?:` and `empty()` |
| `values.dfy` | `Ids` | a supply of fresh uuids |
| `ordering.dfy` | `Ordering` | `orderBy` and `limit` over row indices |
| `outbox_event.dfy` | `Outbox` | the outbox row, its transitions, the `OutboxEvent` class and the table |
| `integration_log.dfy` | `IntegrationLogs` | the log table |
| `erpnext.dfy` | `ERPNext` | the ledger adapter |
| `tenant.dfy` | `Tenants` | the tenant and `getNodeContext` |
| `node_context.dfy` | `NodeContexts` | the node context and the middleware |
| `citybus.dfy` | `CityBus` | the bus service |

Code that updates objects in place is modelled by classes with `modifies`
frames. These are `OutboxEvent`, the two tables, `NodeContext` and
`CityBusService`.

Each class method is proved against a pure specification function, and the
lemmas are stated about those functions:

- `MarkPublished` and `MarkFailed` against `Published` and `Failed`;
- `DispatchPending` against `SelectDue` and `RunBatch`, a fold of one `Step`
  per selected row;
- `SetResolvedTenant` against `Enrich`;
- `IsValid` against `Present`.

External effects come in as parameters:

- the clock is a parameter `now`, in integer seconds;
- `Str::uuid()` is the next value of an `IdSupply`;
- whether routing an event throws is an oracle `raises`.
- the downstream calls `routeEvent` makes (workflow starts and ledger postings) are kept in order in a ghost trace `calls`.

The tenant table is a sequence that `resolveTenant` searches.

## Model

| member | source | states |
|---|---|---|
| `Outbox.Published` | api/packages/cityos/src/Models/OutboxEvent.php:53-59 | `markPublished` sets status `published` and the publication time. Retry count, error and retry time are kept, as are the fixed columns. The status invariant holds afterwards. |
| `Outbox.Failed` | api/packages/cityos/src/Models/OutboxEvent.php:61-73 | `markFailed` uses one more retry. The row is dead-lettered iff the new count reaches `max_retries`, otherwise failed with a retry time `now + 10 * 2^count`. A dead letter has no retry time. The error is recorded and the fixed columns are kept. |
| `Outbox.RetryDelayDoubles` | api/packages/cityos/src/Models/OutboxEvent.php:65 | The back-off doubles with each failure. |
| `Outbox.Inserted` | api/packages/cityos/migrations/2026_02_09_100001_create_cityos_outbox_table.php:19-24 | A created row is pending with 0 retries used, `max_retries` 5, and no error, publication or retry time. It keeps the given id, type, tenant, envelope, correlation, node context and creation time. It satisfies the status invariant. |
| `Outbox.FailAllCounts` | api/packages/cityos/src/Models/OutboxEvent.php:61-73 | After k consecutive failures the count has grown by exactly k. The row is dead iff the count reaches `max_retries` and failed otherwise. The envelope never changes. |
| `Outbox.DefaultRetrySchedule` | api/packages/cityos/src/Models/OutboxEvent.php:63-65 | From a fresh row, failures schedule retries 20, 40, 80 and 160 s later. The fifth failure dead-letters the row and clears its retry time. |
| `Outbox.FifthFailureDeadLetters` | api/packages/cityos/src/Models/OutboxEvent.php:63-64 | With four failures used out of five, the next failure dead-letters the row. |
| `Outbox.RecoveredRowKeepsRetryState` | api/packages/cityos/src/Models/OutboxEvent.php:53-59 | A failed row that is later published keeps its stale retry time and retry count. |
| `Outbox.StatusesDistinct` | api/packages/cityos/src/Models/OutboxEvent.php:33-51 | The four status strings differ pairwise. |
| `Outbox.OutboxEvent.IsPending` | api/packages/cityos/src/Models/OutboxEvent.php:33-36 | Holds iff the row's status is `pending`. |
| `Outbox.OutboxEvent.IsPublished` | api/packages/cityos/src/Models/OutboxEvent.php:38-41 | Holds iff the row's status is `published`. |
| `Outbox.OutboxEvent.IsFailed` | api/packages/cityos/src/Models/OutboxEvent.php:43-46 | Holds iff the row's status is `failed`. |
| `Outbox.OutboxEvent.IsDeadLetter` | api/packages/cityos/src/Models/OutboxEvent.php:48-51 | Holds iff the row's status is `dead_letter`. |
| `Outbox.StatusPredicatesExclusive` | api/packages/cityos/src/Models/OutboxEvent.php:33-51 | At most one status predicate holds. |
| `Outbox.OutboxEvent.MarkPublished` | api/packages/cityos/src/Models/OutboxEvent.php:53-59 | The object's new row is `Published` of its old row. |
| `Outbox.OutboxEvent.MarkFailed` | api/packages/cityos/src/Models/OutboxEvent.php:61-73 | The object's new row is `Failed` of its old row. |
| `Outbox.OutboxTable.Insert` | api/packages/cityos/src/Services/CityBusService.php:50-58 | `OutboxEvent::create` appends one fresh object holding the row. Stored rows stay distinct objects. |
| `IntegrationLogs.Fillable` | api/packages/cityos/src/Models/IntegrationLog.php:11-22 | Mass assignment keeps exactly the attributes that are fillable columns, unchanged. |
| `IntegrationLogs.LogRecord` | api/packages/cityos/src/Models/IntegrationLog.php:29-38 | The row has the five default keys plus the data's fillable keys, and nothing outside the fillable columns. Every fillable data entry wins. Each default applies only where the data lacks that key; the correlation id defaults to the fresh uuid. |
| `IntegrationLogs.UnknownKeyDropped` | api/packages/cityos/src/Models/IntegrationLog.php:11-22 | A data key that is no column, such as `foo`, is not stored: the row holds only the five defaults. |
| `IntegrationLogs.CorrelationIdFromData` | api/packages/cityos/src/Models/IntegrationLog.php:36-37 | A correlation id present in the data, even null, is the row's. |
| `IntegrationLogs.DataOverridesNames` | api/packages/cityos/src/Models/IntegrationLog.php:31-37 | The data can overwrite even the integration and operation names. |
| `IntegrationLogs.CountRowsAppend` | api/packages/cityos/src/Models/IntegrationLog.php:29-38 | Counting rows by integration and operation is additive over appended logs. |
| `IntegrationLogs.IntegrationLogTable.LogRequest` | api/packages/cityos/src/Models/IntegrationLog.php:29-38 | Appends exactly `LogRecord` of the names and data and returns it. It draws a uuid iff the data has no non-null correlation id. |
| `ERPNext.ERPNextService.GetStatus` | api/packages/cityos/src/Services/ERPNextService.php:147-160 | The status has exactly four keys: integration `erpnext`, `configured`, and the mode `live` when configured, `stub` otherwise. Its capabilities name the four posting operations. |
| `ERPNext.ConfiguredIgnoresSecret` | api/packages/cityos/src/Services/ERPNextService.php:21-24 | Only the base URL and the key decide whether the service is configured. |
| `ERPNext.FinancialsDefaults` | api/packages/cityos/src/Services/ERPNextService.php:36-44 | The financials block has exactly the four fee keys and the three optional ones. A missing or null fee is zero SAR; a missing optional figure is null. |
| `ERPNext.SettlementEventDefaults` | api/packages/cityos/src/Services/ERPNextService.php:30-47 | The settlement has exactly its eight keys. Ids default to `''`, arrays to `[]`, and the completion time to `now`. It holds the financials block. |
| `ERPNext.CodEventDefaults` | api/packages/cityos/src/Services/ERPNextService.php:67-91 | The COD event has exactly its five keys. Ids default to `''`, the amount to zero SAR, the time to `now`. |
| `ERPNext.PenaltyEventDefaults` | api/packages/cityos/src/Services/ERPNextService.php:93-118 | The penalty has exactly its six keys. Ids and reason default to `''`, the amount to zero SAR. |
| `ERPNext.PayoutEventDefaults` | api/packages/cityos/src/Services/ERPNextService.php:120-145 | The payout has exactly its six keys. Provider and period default to `''`, the total to zero SAR, the count to 0. |
| `ERPNext.LedgerEventType` | api/packages/cityos/src/Services/ERPNextService.php:30-31 | Every posting stamps its own event type, whatever the caller sent. |
| `ERPNext.LedgerCopiesDeliveryId` | api/packages/cityos/src/Services/ERPNextService.php:32 | A non-null delivery id reaches the settlement, COD and penalty events unchanged. |
| `ERPNext.LedgerLogData` | api/packages/cityos/src/Services/ERPNextService.php:49-54 | The log data holds the posting's correlation id, the event as request data, and status `success` or `stub`. Only the settlement adds response data. |
| `ERPNext.EventLogRow` | api/packages/cityos/src/Services/ERPNextService.php:49-54 | The log row is filed under `erpnext` and the method's operation name. |
| `ERPNext.EventLogRowFields` | api/packages/cityos/src/Services/ERPNextService.php:49-51 | The row carries the posting's correlation id and the event it built. |
| `ERPNext.EventLogRowStatus` | api/packages/cityos/src/Services/ERPNextService.php:49-54 | The row is outbound and its status is `stub` when the service is unconfigured. |
| `ERPNext.LedgerResponse` | api/packages/cityos/src/Services/ERPNextService.php:56-64 | The reply always says success and has mode `live` when configured, `stub` otherwise, plus the correlation id and the event. Only the settlement reply has a message. |
| `ERPNext.ModeMatchesLogStatus` | api/packages/cityos/src/Services/ERPNextService.php:53-58 | The reply is `live` iff the log row says `success`. |
| `ERPNext.ERPNextService.Post` | api/packages/cityos/src/Services/ERPNextService.php:26-145 | What the four posting methods share: draw one uuid, append exactly one log row for the event, and reply with that id and event. |
| `ERPNext.ERPNextService.PostDeliverySettlement` | api/packages/cityos/src/Services/ERPNextService.php:26-65 | The same for the settlement event. |
| `ERPNext.ERPNextService.PostCODCollection` | api/packages/cityos/src/Services/ERPNextService.php:67-91 | The same for the COD event. |
| `ERPNext.ERPNextService.PostPenalty` | api/packages/cityos/src/Services/ERPNextService.php:93-118 | The same for the penalty event. |
| `ERPNext.ERPNextService.RequestPayout` | api/packages/cityos/src/Services/ERPNextService.php:120-145 | The same for the payout event. |
| `Tenants.GetNodeContext` | api/packages/cityos/src/Models/Tenant.php:92-106 | Each entry is the relation's value, or `''`, or the fixed default (`ar-SA`, `me-central-1`, `sovereign`) when the country is missing. The subcategory is the slug only when the category has a parent. The tenant is the handle, else the uuid. The brand is the branding name, else the tenant name. |
| `Tenants.ToArray` | api/packages/cityos/src/Models/Tenant.php:94-105 | The array has exactly the ten context keys, so no channel, surface, persona, theme or version. |
| `Tenants.BareTenantContext` | api/packages/cityos/src/Models/Tenant.php:92-106 | A tenant with no relations gets `ar-SA`, `me-central-1` and `sovereign`. |
| `Tenants.FindTenant` | api/packages/cityos/src/Support/NodeContext.php:89-91 | Returns nothing iff no tenant has that handle or uuid; otherwise the first one that does. |
| `NodeContexts.WithDefaultsField` | api/packages/cityos/src/Support/NodeContext.php:28-45 | Each field is the array's entry unless it is missing or null; otherwise it is the field's default. |
| `NodeContexts.EmptyArrayDefaults` | api/packages/cityos/src/Support/NodeContext.php:36-44 | The defaults are `api`, `ops-dashboard`, `admin`, `ar-SA`, `me-central-1`, `sovereign` and `1`; empty elsewhere. |
| `NodeContexts.NullGetsDefaultEmptyIsKept` | api/packages/cityos/src/Support/NodeContext.php:36 | A null entry gets the default, while `''` is kept. |
| `NodeContexts.CitySignalKeys` | api/packages/cityos/src/Support/NodeContext.php:53-55 | The `City` signal is read from `X-CityOS-City` and `cityos_city`. |
| `NodeContexts.ResolveOrder` | api/packages/cityos/src/Support/NodeContext.php:52-58 | Header, then route, then cookie, then body, then `''`: the first source present decides. |
| `NodeContexts.HeaderWins` | api/packages/cityos/src/Support/NodeContext.php:53 | A header beats every other source. |
| `NodeContexts.SignalFollowsNamingRule` | api/packages/cityos/src/Support/NodeContext.php:60-76 | Each field reads its own name capitalised, except `cityOrTheme`, which reads `City`. |
| `NodeContexts.RequestData` | api/packages/cityos/src/Support/NodeContext.php:60-76 | The array holds every field, each with its resolved signal. |
| `NodeContexts.FromRequestIgnoresDefaults` | api/packages/cityos/src/Support/NodeContext.php:47-77 | A context from a request holds exactly the signals, with `''` where absent; the constructor defaults never apply. |
| `NodeContexts.SilentRequestIsEmpty` | api/packages/cityos/src/Support/NodeContext.php:47-77 | A request without signals gives every field `''`. |
| `NodeContexts.EnrichField` | api/packages/cityos/src/Support/NodeContext.php:100-107 | A merged field takes the tenant's value exactly when it is `''` or `'0'`. The other eight fields never change. |
| `NodeContexts.EnrichKeepsFilled` | api/packages/cityos/src/Support/NodeContext.php:101-107 | A non-empty value is never replaced. |
| `NodeContexts.EnrichIdempotent` | api/packages/cityos/src/Support/NodeContext.php:96-109 | Merging the same tenant twice is merging it once. |
| `NodeContexts.NameRoundTrip` | api/packages/cityos/src/Support/NodeContext.php:111-130 | Each property name maps back to its field. |
| `NodeContexts.ContextArray` | api/packages/cityos/src/Support/NodeContext.php:111-130 | The array keys are property names, and each field's name maps to its value. |
| `NodeContexts.DefaultRequiredFields` | api/packages/cityos/src/Support/NodeContext.php:132-141 | Under the default configuration a context is valid iff country and tenant are non-empty. |
| `NodeContexts.TenantFor` | api/packages/cityos/src/Support/NodeContext.php:79-94 | The memo wins. An empty tenant key gives null; otherwise the first match, which matches the key. |
| `NodeContexts.FoundTenantIsMemoised` | api/packages/cityos/src/Support/NodeContext.php:81-83 | Once a tenant is found, later calls do not query again. |
| `NodeContexts.MissIsNotMemoised` | api/packages/cityos/src/Support/NodeContext.php:89-93 | A miss holds nothing, so the next call queries again. |
| `NodeContexts.NodeContext.FromRequest` | api/packages/cityos/src/Support/NodeContext.php:47-77 | A fresh context holding the request's array with the defaults, and no tenant. |
| `NodeContexts.NodeContext.ResolveTenant` | api/packages/cityos/src/Support/NodeContext.php:79-94 | Returns and memoises `TenantFor` and leaves the fields unchanged. The table is queried once, exactly when it is needed. |
| `NodeContexts.NodeContext.SetResolvedTenant` | api/packages/cityos/src/Support/NodeContext.php:96-109 | Holds the tenant and, if there is one, merges its context into the fields. |
| `NodeContexts.NodeContext.ToArray` | api/packages/cityos/src/Support/NodeContext.php:111-130 | The fifteen properties by name. |
| `NodeContexts.NodeContext.IsValid` | api/packages/cityos/src/Support/NodeContext.php:132-141 | True iff every required property is filled in the `empty()` sense. The private `resolvedTenant` counts as filled iff a tenant is held. |
| `NodeContexts.HandleRequest` | api/packages/cityos/src/Http/Middleware/ResolveNodeContext.php:11-20 | The attached context is the request's, merged with its tenant if one is found. |
| `NodeContexts.RequestSignalsWin` | api/packages/cityos/src/Http/Middleware/ResolveNodeContext.php:13-20 | A value the request states explicitly survives the middleware's merge. |
| `NodeContexts.NoTenantNoMerge` | api/packages/cityos/src/Http/Middleware/ResolveNodeContext.php:15-20 | A request naming no tenant gets exactly its own signals. |
| `CityBus.NewEventRow` | api/packages/cityos/src/Services/CityBusService.php:25-58 | The new row is pending with no retries used, under the given event id, type, tenant and node context. Its correlation id is the payload's, else the fresh uuid. It satisfies the status invariant. |
| `CityBus.NewEventEnvelope` | api/packages/cityos/src/Services/CityBusService.php:28-48 | The envelope repeats the row's event id and node context. It has version `1.0`, carries the payload unchanged, and has retry count 0. |
| `CityBus.NewEventCorrelation` | api/packages/cityos/src/Services/CityBusService.php:38-47 | The envelope carries the row's correlation id and the payload's causation id and idempotency key. |
| `CityBus.PublishedRowsAreRoutable` | api/packages/cityos/src/Services/CityBusService.php:42 | The envelope of a published row holds the caller's array under `payload`, so routing that row never raises a `TypeError`. |
| `CityBus.CityBusService.Publish` | api/packages/cityos/src/Services/CityBusService.php:23-59 | Appends one fresh pending row, `NewEventRow`. It draws the event id and draws a correlation uuid only when the payload has none. |
| `CityBus.CityBusService.PublishWithTransaction` | api/packages/cityos/src/Services/CityBusService.php:61-68 | A throwing callback leaves no row and draws no id. Otherwise the result and the new row are returned together, with one or two uuids drawn as in `publish`. |
| `CityBus.RouteActions` | api/packages/cityos/src/Services/CityBusService.php:98-124 | Workflow events start their mapped workflow with id `type-event_id` and the envelope. Ledger events post the inner payload, else the envelope. Other types call nothing. At most one call. |
| `CityBus.DispatchDataDrawsId` | api/packages/cityos/src/Services/CityBusService.php:126-129 | The dispatch log data has no correlation id, so logging draws a uuid. |
| `CityBus.DispatchLogRow` | api/packages/cityos/src/Services/CityBusService.php:126-129 | The dispatch row is `citybus` / `dispatch_event` with the event's type and id, status `success` and the fresh id. |
| `CityBus.RouteLogsWithLedger` | api/packages/cityos/src/Services/CityBusService.php:115-129 | A ledger event logs the ledger row, then the dispatch row. |
| `CityBus.RouteLogsWithoutLedger` | api/packages/cityos/src/Services/CityBusService.php:102-113 | Any other event logs only the dispatch row. |
| `CityBus.RouteLogsLength` | api/packages/cityos/src/Services/CityBusService.php:115-129 | Routing writes one log row per uuid drawn. |
| `CityBus.RouteLogsOneDispatchRow` | api/packages/cityos/src/Services/CityBusService.php:126-129 | Routing one row writes exactly one dispatch row. |
| `CityBus.CityBusService.RouteEvent` | api/packages/cityos/src/Services/CityBusService.php:98-130 | A ledger event whose inner payload is not an array ends in a `TypeError`. An exception `raises` names is thrown. In both cases nothing is written. Otherwise the log gains exactly `RouteLogs`, one uuid is drawn per row written, and the downstream calls made are exactly `RouteActions`: a workflow start, a ledger posting, or none for another type. A crash or a thrown exception makes no call. |
| `CityBus.CityBusService.StartTemporalWorkflow` | api/packages/cityos/src/Services/CityBusService.php:110-112 | Records one workflow start with the given template, id and input. |
| `CityBus.CityBusService.RouteToLedger` | api/packages/cityos/src/Services/CityBusService.php:115-129 | The ledger branch appends the ledger row and the dispatch row and draws two uuids. Its one call is the posting `RouteActions` names, with the inner payload, else the envelope. |
| `CityBus.CityBusService.LogDispatch` | api/packages/cityos/src/Services/CityBusService.php:126-129 | Appends the dispatch row under one fresh uuid and makes no downstream call. |
| `CityBus.CityBusService.PostToLedger` | api/packages/cityos/src/Services/CityBusService.php:122-123 | Records the posting with the data given and appends that posting's log row; the reply is discarded. |
| `CityBus.DueFilterRedundant` | api/packages/cityos/src/Services/CityBusService.php:72-77 | For consistent rows the `retry_count < max_retries` filter is redundant. Published and dead-lettered rows are never due. |
| `CityBus.DueIndices` | api/packages/cityos/src/Services/CityBusService.php:72-77 | Exactly the due rows, in storage order. |
| `CityBus.NoDueNoIndices` | api/packages/cityos/src/Services/CityBusService.php:72-77 | With no row due, nothing is selected. |
| `CityBus.SelectDue` | api/packages/cityos/src/Services/CityBusService.php:72-80 | Due rows only, each once, oldest first, as many as `limit` allows. |
| `CityBus.SelectOldestFirst` | api/packages/cityos/src/Services/CityBusService.php:78-79 | A due row left out of the batch is no older than any row in it. |
| `CityBus.SelectAllWhenRoom` | api/packages/cityos/src/Services/CityBusService.php:79 | With room in the batch (or no limit), every due row is selected. |
| `CityBus.RunBatch` | api/packages/cityos/src/Services/CityBusService.php:82-93 | The counters only grow. A run that completes counts every selected row once, as published or failed. A run that has aborted stays as it is. |
| `CityBus.RunBatchRows` | api/packages/cityos/src/Services/CityBusService.php:84-93 | When no selected row raises an uncaught `TypeError`, the run completes. Each selected row is attempted exactly once from its stored value; the others are untouched. |
| `CityBus.RunBatchRowOutcome` | api/packages/cityos/src/Services/CityBusService.php:84-93 | Whether or not the run completes, each row ends as stored or as its one attempt left it, and only selected rows are attempted. |
| `CityBus.RunBatchAbortedStays` | api/packages/cityos/src/Services/CityBusService.php:84-93 | Once an escaping `TypeError` has ended the loop, the rest of the selection changes nothing. |
| `CityBus.RunBatchStopsAt` | api/packages/cityos/src/Services/CityBusService.php:84-93 | As written, the first selected row with a non-array inner payload ends the run. It stays as stored, and so does every row selected after it; the rows before it keep their marks. |
| `CityBus.StalledOutbox` | api/packages/cityos/src/Services/CityBusService.php:84-93 | As written, when the oldest due row has a non-array inner payload, a run aborts without changing the store, the log or the uuids, so the next run repeats it. |
| `CityBus.CaughtTypeErrorMarksFailed` | api/packages/cityos/src/Services/CityBusService.php:84-93 | With the `TypeError` caught as well, the run completes and counts every row. The offending row is marked failed with one more retry used, failed or dead-lettered. |
| `CityBus.RunBatchLogs` | api/packages/cityos/src/Services/CityBusService.php:84-93 | The log only grows, by exactly one dispatch row per published event. |
| `CityBus.RunBatchActions` | api/packages/cityos/src/Services/CityBusService.php:84-93 | The downstream calls only grow, by at most one per published event. Failed and skipped rows add none. |
| `CityBus.StepActions` | api/packages/cityos/src/Services/CityBusService.php:85-92 | One pass adds at most one downstream call, and only when it publishes the row. |
| `CityBus.RunBatchConsistent` | api/packages/cityos/src/Services/CityBusService.php:84-93 | A run keeps the status invariant of every row. |
| `CityBus.RunBatchKeepsEvents` | api/packages/cityos/src/Services/CityBusService.php:84-93 | A run never rewrites an envelope or another fixed column. |
| `CityBus.NothingDueNoChange` | api/packages/cityos/src/Services/CityBusService.php:70-96 | With nothing due, a run changes nothing and counts zero. |
| `CityBus.CityBusService.DispatchPending` | api/packages/cityos/src/Services/CityBusService.php:70-96 | The new rows, log, uuids drawn and downstream calls are those of `RunBatch` over `SelectDue`, as written. The counts are returned with total = the number of rows selected, or none when a `TypeError` aborted the run. Every store is accepted. |
| `CityBus.CityBusService.DispatchSelected` | api/packages/cityos/src/Services/CityBusService.php:82-95 | The loop over the selected rows, exited by an escaping `TypeError`, reaches `RunBatch`'s state. |
| `CityBus.CityBusService.DispatchOne` | api/packages/cityos/src/Services/CityBusService.php:85-92 | One pass routes the row, then marks it published or failed and counts the outcome, or reports the escaping `TypeError` and changes nothing. The calls made are those `Step` adds. |
| `CityBus.CountStatus` | api/packages/cityos/src/Services/CityBusService.php:135-138 | A count by status never exceeds the total. |
| `CityBus.OutboxStats` | api/packages/cityos/src/Services/CityBusService.php:132-141 | Each status count is at most the total, which is the number of rows. |
| `CityBus.StatsAddUp` | api/packages/cityos/src/Services/CityBusService.php:132-141 | When every status is one of the four, the counts add up to the total. |
| `CityBus.CityBusService.GetOutboxStats` | api/packages/cityos/src/Services/CityBusService.php:132-141 | The statistics of the stored rows. |
| `CityBus.RecentIndices` | api/packages/cityos/src/Services/CityBusService.php:143-149 | The newest first, each returned once, as many as `limit` allows. |
| `CityBus.RecentAreNewest` | api/packages/cityos/src/Services/CityBusService.php:145-146 | A row left out is no newer than any row returned. |
| `CityBus.RecentEvents` | api/packages/cityos/src/Services/CityBusService.php:143-149 | The rows at those indices, in that order. |
| `CityBus.CityBusService.GetRecentEvents` | api/packages/cityos/src/Services/CityBusService.php:143-149 | The recent rows of the store. |
| `Ordering.SortBy` | api/packages/cityos/src/Services/CityBusService.php:78 | `orderBy` gives a sorted result of the same length and elements, without repeats when the input has none. |
| `Ordering.InsertPermutes` | api/packages/cityos/src/Services/CityBusService.php:78 | Inserting adds exactly one occurrence of the index, as multisets. |
| `Ordering.SortByPermutes` | api/packages/cityos/src/Services/CityBusService.php:78 | The sort is a permutation: equal multisets. |
| `Ordering.LimitCount` | api/packages/cityos/src/Services/CityBusService.php:79 | `limit(n)` keeps `min(n, count)` rows; a negative `n` means no limit. |
| `Ordering.LimitKeepsSmallest` | api/packages/cityos/src/Services/CityBusService.php:78-79 | What `limit` keeps of a sorted result is no greater than anything it drops. |

## Left out

- I/O is not modelled: HTTP, the database driver, the clock and `Str::uuid()`. The clock is the parameter `now`; uuids come from an `IdSupply` generator.
- ISO-8601 timestamps are written as integer seconds.
- `duration_ms`, a float, is not modelled.
- Concurrency is not modelled: two dispatchers racing on the same rows, and transaction isolation. `publishWithTransaction` is modelled as all-or-nothing.
- `TemporalService::startWorkflow` is not part of this model. A workflow start is recorded in the service's ghost call trace, and `routeEvent` discards its reply. The `temporal` log rows and the uuid that service writes are not modelled.
- `PayloadCMSService` is not part of this model; `routeEvent` never calls it.
- The `raises` oracle stands for a failure before any write in `routeEvent`. These failures are not modelled:
  - a failure after the ledger has logged its row;
  - a failure of the dispatch-log insert itself.
- A `TypeError` escaping `dispatchPending` is modelled as the run ending with no counts returned. What the caller or the scheduler does next is not modelled.
- The call trace records a ledger posting only when the method is entered. A call that fails its `array` type check raises before it is recorded.
- `CityBus.CityBusService.DispatchPending`: one `now` serves the whole run. The source reads the clock again in each `markPublished` and `markFailed`, so later rows of a batch get later `published_at` and `next_retry_at`.
- A JSON list passed as ledger data reads as an array without named keys, so every lookup falls back to its default.
- `getRecentEvents` returns the model's row snapshots rather than Eloquent's array encoding of the models.
- `getOutboxStats` counts the rows of one snapshot; in the source, the five queries could see different states.
- Ties in `created_at` keep storage order. The database leaves their order unspecified.
- `Tenants.FindTenant`: `->first()` without an `orderBy` may return any matching tenant. When one tenant's handle equals another's uuid, the model returns the first match in storage order.
- `IntegrationLogs.LogRecord`: an attribute cast is not modelled. `request_data` and `response_data` are stored as the JSON values they are given.
- `publish` validates nothing, so the model has no error path for it.
- `Outbox.Row` represents only the column values `publish` and the status transitions write:
  - a negative `retry_count`: the column is signed, the model's count is a `nat`;
  - a null `created_at`;
  - a `payload` column holding a JSON scalar or list instead of an object.

  Such rows can exist only when written outside `publish`. A scalar `payload` column would also end the dispatcher's run with an uncaught `TypeError`. For the three ledger types it comes from the ledger method. For the four workflow types it comes from `TemporalService::startWorkflow`, whose input must be an array. The model's envelope is always an object, so neither trigger is modelled.
- HTTP header names are matched exactly; the model does not capture the way HTTP header lookup ignores case.
- The dot-notation lookup `node_context.<field>` in the request input (body and query string) is modelled as a flat map of that object's string entries. Input values that are not strings are not represented.
- Constructor array keys that name no field are never read, so they are not represented. The fifteen public properties are held as one record that each assignment updates.
- `NodeContexts.NodeContext.IsValid` takes the configured required fields as a parameter, and `NodeContexts.DefaultRequiredFields` proves the default list. A required name that is neither a field nor `resolvedTenant` reads as `''`, where PHP reads the undefined property as null; both count as empty.
- `ResolveNodeContext::handle` is modelled only up to attaching the context. The response headers it adds afterwards are left out.
- Other `ResolveNodeContext` work is left out: the rest of the middleware pipeline and the controllers.
- `markPublished` does not clear `next_retry_at`, `retry_count` or `error_message`. The model follows the code: `Outbox.RecoveredRowKeepsRetryState` states it, and the status invariant does not require a published row to have no retry time.
- `fromRequest` looks up route parameters and body keys by the capitalised signal name (`Country`, `City`), not by the property name. The model follows the code.
- A published row counts as routed even though the workflow start's reply may report a failure (`success => false`). The source ignores that reply, and the model does the same.

## Findings

| source | as written | input that shows it | evidently intended | confidence | as-written member | corrected member |
|---|---|---|---|---|---|---|
| api/packages/cityos/src/Services/CityBusService.php:84-93 | The loop catches only `\Exception`. A `TypeError` from a ledger method given a non-array inner payload escapes it: the row stays due and unmarked, and every row selected after it is skipped. When that row is the oldest due row, every run stops there. | A due `DELIVERY_COMPLETED` row whose envelope has `payload` = `"x"`. `publish` never writes such a row (`CityBus.PublishedRowsAreRoutable`); it needs a row written to `cityos_outbox` by other means. | Every routing failure marks its row failed, so the row is retried, then dead-lettered, and the rest of the batch is dispatched. | not executed; low, since only rows written outside `publish` trigger it | `CityBus.StalledOutbox` | `CityBus.CaughtTypeErrorMarksFailed` |

`CityBus.CityBusService.DispatchPending` follows the code as written: its environment has `catchAll` false. The corrected dispatcher is the same `RunBatch` with `catchAll` true. Every lemma about `RunBatch` that does not name `catchAll` holds for both.
