/**
 * `ERPNextService`: the ledger adapter. Each posting method fills defaults
 * into the caller's data, appends one `erpnext` log row and returns a reply
 * that always says `success => true`, configured or not. No HTTP call is made.
 */
module ERPNext {
  import opened Values
  import opened Ids
  import opened IntegrationLogs

  /** The four posting operations. */
  datatype LedgerOp = DeliverySettlement | CodCollection | Penalty | Payout

  const LEDGER_OPS: seq<LedgerOp> := [DeliverySettlement, CodCollection, Penalty, Payout]

  /** The `event_type` each posting method writes into its event. */
  function EventTypeOf(op: LedgerOp): string
  {
    match op
    case DeliverySettlement => "DELIVERY_SETTLEMENT"
    case CodCollection => "COD_COLLECTED"
    case Penalty => "PENALTY_APPLIED"
    case Payout => "PAYOUT_REQUESTED"
  }

  /** The `operation` name of each posting method's log row. */
  function LogOperation(op: LedgerOp): string
  {
    match op
    case DeliverySettlement => "delivery_settlement"
    case CodCollection => "cod_collection"
    case Penalty => "penalty_applied"
    case Payout => "payout_requested"
  }

  /** `'live'` when configured, else `'stub'`. */
  function ModeName(configured: bool): string
  {
    if configured then "live" else "stub"
  }

  /** The log row status: `'success'` when configured, else `'stub'`. */
  function LogStatus(configured: bool): string
  {
    if configured then SUCCESS else "stub"
  }

  const SETTLEMENT_IDS: set<string> := {"delivery_id", "tenant_id"}
  const SETTLEMENT_ARRAYS: set<string> := {"provider", "references", "node_context"}
  const SETTLEMENT_FEES: set<string> := {"delivery_fee", "service_fee", "provider_payout", "platform_fee"}
  const SETTLEMENT_OPTIONAL: set<string> := {"tip", "cod_collected", "penalties"}

  /** The `financials` block of a settlement. */
  function Financials(data: map<string, Json>): map<string, Json>
  {
    map[
      "delivery_fee" := Coalesce(data, "delivery_fee", ZERO_SAR),
      "service_fee" := Coalesce(data, "service_fee", ZERO_SAR),
      "provider_payout" := Coalesce(data, "provider_payout", ZERO_SAR),
      "platform_fee" := Coalesce(data, "platform_fee", ZERO_SAR),
      "tip" := Coalesce(data, "tip", JNull),
      "cod_collected" := Coalesce(data, "cod_collected", JNull),
      "penalties" := Coalesce(data, "penalties", JNull)]
  }

  /** The event `postDeliverySettlement` builds. */
  function SettlementEvent(data: map<string, Json>, now: int): (e: map<string, Json>)
    ensures "event_type" in e && e["event_type"] == JStr(EventTypeOf(DeliverySettlement))
  {
    map[
      "event_type" := JStr("DELIVERY_SETTLEMENT"),
      "delivery_id" := Coalesce(data, "delivery_id", JStr("")),
      "tenant_id" := Coalesce(data, "tenant_id", JStr("")),
      "completed_at" := Coalesce(data, "completed_at", Timestamp(now)),
      "provider" := Coalesce(data, "provider", EMPTY_ARRAY),
      "financials" := JObj(Financials(data)),
      "references" := Coalesce(data, "references", EMPTY_ARRAY),
      "node_context" := Coalesce(data, "node_context", EMPTY_ARRAY)]
  }

  /** Each fee defaults to zero riyals, each optional figure to null, when the caller leaves it out or sends null. */
  lemma FinancialsDefaults(data: map<string, Json>)
    ensures Financials(data).Keys == SETTLEMENT_FEES + SETTLEMENT_OPTIONAL
    ensures forall k :: k in SETTLEMENT_FEES ==> Financials(data)[k] == (if Supplied(data, k) then data[k] else ZERO_SAR)
    ensures forall k :: k in SETTLEMENT_OPTIONAL ==> Financials(data)[k] == (if Supplied(data, k) then data[k] else JNull)
  {
  }

  /** The settlement copies the caller's ids and arrays, defaulting to `''` and `[]`, and stamps `now` when no completion time is given. */
  lemma SettlementEventDefaults(data: map<string, Json>, now: int)
    ensures SettlementEvent(data, now).Keys
         == {"event_type", "delivery_id", "tenant_id", "completed_at", "provider", "financials", "references", "node_context"}
    ensures SettlementEvent(data, now)["financials"] == JObj(Financials(data))
    ensures forall k :: k in SETTLEMENT_IDS ==> SettlementEvent(data, now)[k] == (if Supplied(data, k) then data[k] else JStr(""))
    ensures forall k :: k in SETTLEMENT_ARRAYS ==> SettlementEvent(data, now)[k] == (if Supplied(data, k) then data[k] else EMPTY_ARRAY)
    ensures SettlementEvent(data, now)["completed_at"]
         == (if Supplied(data, "completed_at") then data["completed_at"] else Timestamp(now))
  {
  }

  /** The event `postCODCollection` builds. */
  function CodEvent(data: map<string, Json>, now: int): (e: map<string, Json>)
    ensures "event_type" in e && e["event_type"] == JStr(EventTypeOf(CodCollection))
  {
    map[
      "event_type" := JStr("COD_COLLECTED"),
      "delivery_id" := Coalesce(data, "delivery_id", JStr("")),
      "agent_id" := Coalesce(data, "agent_id", JStr("")),
      "amount" := Coalesce(data, "amount", ZERO_SAR),
      "collected_at" := Coalesce(data, "collected_at", Timestamp(now))]
  }

  /** The event `postPenalty` builds. */
  function PenaltyEvent(data: map<string, Json>): (e: map<string, Json>)
    ensures "event_type" in e && e["event_type"] == JStr(EventTypeOf(Penalty))
  {
    map[
      "event_type" := JStr("PENALTY_APPLIED"),
      "delivery_id" := Coalesce(data, "delivery_id", JStr("")),
      "provider_id" := Coalesce(data, "provider_id", JStr("")),
      "amount" := Coalesce(data, "amount", ZERO_SAR),
      "reason" := Coalesce(data, "reason", JStr("")),
      "sla_id" := Coalesce(data, "sla_id", JStr(""))]
  }

  /** The event `requestPayout` builds. */
  function PayoutEvent(data: map<string, Json>): (e: map<string, Json>)
    ensures "event_type" in e && e["event_type"] == JStr(EventTypeOf(Payout))
  {
    map[
      "event_type" := JStr("PAYOUT_REQUESTED"),
      "provider_id" := Coalesce(data, "provider_id", JStr("")),
      "period_start" := Coalesce(data, "period_start", JStr("")),
      "period_end" := Coalesce(data, "period_end", JStr("")),
      "total_amount" := Coalesce(data, "total_amount", ZERO_SAR),
      "delivery_count" := Coalesce(data, "delivery_count", JInt(0))]
  }

  /** A COD collection copies the caller's ids, amount and time, defaulting to `''`, zero riyals and `now`. */
  lemma CodEventDefaults(data: map<string, Json>, now: int)
    ensures CodEvent(data, now).Keys == {"event_type", "delivery_id", "agent_id", "amount", "collected_at"}
    ensures forall k :: k in {"delivery_id", "agent_id"} ==> CodEvent(data, now)[k] == (if Supplied(data, k) then data[k] else JStr(""))
    ensures CodEvent(data, now)["amount"] == (if Supplied(data, "amount") then data["amount"] else ZERO_SAR)
    ensures CodEvent(data, now)["collected_at"] == (if Supplied(data, "collected_at") then data["collected_at"] else Timestamp(now))
  {
  }

  /** A penalty copies the caller's ids, reason and amount, defaulting to `''` and zero riyals. */
  lemma PenaltyEventDefaults(data: map<string, Json>)
    ensures PenaltyEvent(data).Keys == {"event_type", "delivery_id", "provider_id", "amount", "reason", "sla_id"}
    ensures forall k :: k in {"delivery_id", "provider_id", "reason", "sla_id"} ==>
              PenaltyEvent(data)[k] == (if Supplied(data, k) then data[k] else JStr(""))
    ensures PenaltyEvent(data)["amount"] == (if Supplied(data, "amount") then data["amount"] else ZERO_SAR)
  {
  }

  /** A payout request copies the caller's provider, period and totals, defaulting to `''`, zero riyals and 0. */
  lemma PayoutEventDefaults(data: map<string, Json>)
    ensures PayoutEvent(data).Keys == {"event_type", "provider_id", "period_start", "period_end", "total_amount", "delivery_count"}
    ensures forall k :: k in {"provider_id", "period_start", "period_end"} ==>
              PayoutEvent(data)[k] == (if Supplied(data, k) then data[k] else JStr(""))
    ensures PayoutEvent(data)["total_amount"] == (if Supplied(data, "total_amount") then data["total_amount"] else ZERO_SAR)
    ensures PayoutEvent(data)["delivery_count"] == (if Supplied(data, "delivery_count") then data["delivery_count"] else JInt(0))
  {
  }

  function LedgerEvent(op: LedgerOp, data: map<string, Json>, now: int): map<string, Json>
  {
    match op
    case DeliverySettlement => SettlementEvent(data, now)
    case CodCollection => CodEvent(data, now)
    case Penalty => PenaltyEvent(data)
    case Payout => PayoutEvent(data)
  }

  /** Every posting method stamps its own event type, whatever the caller sent under `event_type`. */
  lemma LedgerEventType(op: LedgerOp, data: map<string, Json>, now: int)
    ensures "event_type" in LedgerEvent(op, data, now)
    ensures LedgerEvent(op, data, now)["event_type"] == JStr(EventTypeOf(op))
  {
  }

  /** A non-null `delivery_id` the caller supplies reaches the event unchanged, for the three methods that carry one. */
  lemma LedgerCopiesDeliveryId(op: LedgerOp, data: map<string, Json>, now: int)
    requires op != Payout && Supplied(data, "delivery_id")
    ensures LedgerEvent(op, data, now)["delivery_id"] == data["delivery_id"]
  {
    match op {
      case DeliverySettlement => SettlementEventDefaults(data, now);
      case CodCollection => CodEventDefaults(data, now);
      case Penalty => PenaltyEventDefaults(data);
    }
  }

  /** The data of the log row a posting method appends. */
  function LedgerLogData(op: LedgerOp, configured: bool, correlationId: string, event: map<string, Json>): (d: map<string, Json>)
    ensures d.Keys == {"correlation_id", "request_data", "status"} + (if op == DeliverySettlement then {"response_data"} else {})
    ensures d["correlation_id"] == JStr(correlationId)
    ensures d["request_data"] == JObj(event)
    ensures d["status"] == JStr(LogStatus(configured))
  {
    var base := map[
      "correlation_id" := JStr(correlationId),
      "request_data" := JObj(event),
      "status" := JStr(LogStatus(configured))];
    if op == DeliverySettlement then
      base["response_data" := JObj(map[
        "status" := JStr("queued"),
        "message" := JStr("Settlement event queued for ERPNext processing")])]
    else base
  }

  /** The log row a posting method appends for `event`: under `erpnext`, with the log data's keys. */
  function EventLogRow(op: LedgerOp, configured: bool, correlationId: string, event: map<string, Json>): (row: LogRow)
    ensures IsRowOf(row, "erpnext", LogOperation(op))
    ensures {"correlation_id", "request_data", "status", "direction"} <= row.Keys
  {
    var d := LedgerLogData(op, configured, correlationId, event);
    assert "integration" !in d && "operation" !in d;
    LogRecord("erpnext", LogOperation(op), d, correlationId)
  }

  /** The log row of a posting of `data`: the row for the event the method builds from it. */
  function LedgerLogRow(op: LedgerOp, configured: bool, correlationId: string, data: map<string, Json>, now: int): LogRow
  {
    EventLogRow(op, configured, correlationId, LedgerEvent(op, data, now))
  }

  /** The row carries the posting's own correlation id and the event it built. */
  lemma EventLogRowFields(op: LedgerOp, configured: bool, correlationId: string, event: map<string, Json>)
    ensures EventLogRow(op, configured, correlationId, event)["correlation_id"] == JStr(correlationId)
    ensures EventLogRow(op, configured, correlationId, event)["request_data"] == JObj(event)
  {
  }

  /** The row is outbound and says `stub` when the ledger is not configured. */
  lemma EventLogRowStatus(op: LedgerOp, configured: bool, correlationId: string, event: map<string, Json>)
    ensures EventLogRow(op, configured, correlationId, event)["status"] == JStr(LogStatus(configured))
    ensures EventLogRow(op, configured, correlationId, event)["direction"] == JStr(OUTBOUND)
  {
    assert "direction" !in LedgerLogData(op, configured, correlationId, event);
  }

  /** The reply of a posting method. */
  function LedgerResponse(op: LedgerOp, configured: bool, correlationId: string, event: map<string, Json>): (r: map<string, Json>)
    ensures {"success", "mode", "correlation_id", "event"} <= r.Keys
    ensures r["success"] == JBool(true)
    ensures configured ==> r["mode"] == JStr("live")
    ensures !configured ==> r["mode"] == JStr("stub")
    ensures r["correlation_id"] == JStr(correlationId) && r["event"] == JObj(event)
    ensures "message" in r <==> op == DeliverySettlement
  {
    var base := map[
      "success" := JBool(true),
      "mode" := JStr(ModeName(configured)),
      "correlation_id" := JStr(correlationId),
      "event" := JObj(event)];
    if op == DeliverySettlement then
      base["message" := JStr(
        if configured then "Settlement event posted to ERPNext"
        else "Settlement event logged (ERPNext not configured - stub mode)")]
    else base
  }

  /** The reply mode and the log row status agree: both say whether the ledger is configured. */
  lemma ModeMatchesLogStatus(op: LedgerOp, configured: bool, correlationId: string, data: map<string, Json>, now: int)
    ensures LedgerResponse(op, configured, correlationId, LedgerEvent(op, data, now))["mode"] == JStr("live")
        <==> LedgerLogRow(op, configured, correlationId, data, now)["status"] == JStr(SUCCESS)
  {
    EventLogRowStatus(op, configured, correlationId, LedgerEvent(op, data, now));
  }

  class ERPNextService {
    const baseUrl: string
    const apiKey: string
    const apiSecret: string

    /** The service as the container builds it from configuration. */
    constructor (baseUrl: string, apiKey: string, apiSecret: string)
      ensures this.baseUrl == baseUrl && this.apiKey == apiKey && this.apiSecret == apiSecret
    {
      this.baseUrl, this.apiKey, this.apiSecret := baseUrl, apiKey, apiSecret;
    }

    /** Configured iff the base URL and the API key are both non-empty; the secret is not consulted. */
    predicate IsConfigured()
    {
      !EmptyString(baseUrl) && !EmptyString(apiKey)
    }

    /** `getStatus`: the mode, and the four posting operations under their log names. */
    function GetStatus(): (r: map<string, Json>)
      ensures r.Keys == {"integration", "configured", "mode", "capabilities"}
      ensures r["integration"] == JStr("erpnext")
      ensures r["configured"] == JBool(IsConfigured())
      ensures IsConfigured() ==> r["mode"] == JStr("live")
      ensures !IsConfigured() ==> r["mode"] == JStr("stub")
      ensures r["capabilities"].JArr? && |r["capabilities"].items| == |LEDGER_OPS|
      ensures forall op: LedgerOp :: JStr(LogOperation(op)) in r["capabilities"].items
    {
      map[
        "integration" := JStr("erpnext"),
        "configured" := JBool(IsConfigured()),
        "mode" := JStr(ModeName(IsConfigured())),
        "capabilities" := JArr([
          JStr("delivery_settlement"),
          JStr("cod_collection"),
          JStr("penalty_applied"),
          JStr("payout_requested")])]
    }

    /** What all four posting methods do: draw a correlation id, build the event, log it, reply. */
    method Post(op: LedgerOp, data: map<string, Json>, now: int, logs: IntegrationLogTable, ids: IdSupply)
      returns (r: map<string, Json>)
      modifies logs, ids
      ensures r == LedgerResponse(op, IsConfigured(), ids.gen(old(ids.issued)), LedgerEvent(op, data, now))
      ensures logs.rows == old(logs.rows) + [LedgerLogRow(op, IsConfigured(), ids.gen(old(ids.issued)), data, now)]
      ensures ids.issued == old(ids.issued) + 1
    {
      var correlationId := ids.Next();
      var event := LedgerEvent(op, data, now);
      var logData := LedgerLogData(op, IsConfigured(), correlationId, event);
      var _ := logs.LogRequest("erpnext", LogOperation(op), logData, ids);
      r := LedgerResponse(op, IsConfigured(), correlationId, event);
    }

    method PostDeliverySettlement(data: map<string, Json>, now: int, logs: IntegrationLogTable, ids: IdSupply)
      returns (r: map<string, Json>)
      modifies logs, ids
      ensures r == LedgerResponse(DeliverySettlement, IsConfigured(), ids.gen(old(ids.issued)), SettlementEvent(data, now))
      ensures logs.rows == old(logs.rows) + [LedgerLogRow(DeliverySettlement, IsConfigured(), ids.gen(old(ids.issued)), data, now)]
      ensures ids.issued == old(ids.issued) + 1
    {
      r := Post(DeliverySettlement, data, now, logs, ids);
    }

    method PostCODCollection(data: map<string, Json>, now: int, logs: IntegrationLogTable, ids: IdSupply)
      returns (r: map<string, Json>)
      modifies logs, ids
      ensures r == LedgerResponse(CodCollection, IsConfigured(), ids.gen(old(ids.issued)), CodEvent(data, now))
      ensures logs.rows == old(logs.rows) + [LedgerLogRow(CodCollection, IsConfigured(), ids.gen(old(ids.issued)), data, now)]
      ensures ids.issued == old(ids.issued) + 1
    {
      r := Post(CodCollection, data, now, logs, ids);
    }

    method PostPenalty(data: map<string, Json>, now: int, logs: IntegrationLogTable, ids: IdSupply)
      returns (r: map<string, Json>)
      modifies logs, ids
      ensures r == LedgerResponse(Penalty, IsConfigured(), ids.gen(old(ids.issued)), PenaltyEvent(data))
      ensures logs.rows == old(logs.rows) + [LedgerLogRow(Penalty, IsConfigured(), ids.gen(old(ids.issued)), data, now)]
      ensures ids.issued == old(ids.issued) + 1
    {
      r := Post(Penalty, data, now, logs, ids);
    }

    method RequestPayout(data: map<string, Json>, now: int, logs: IntegrationLogTable, ids: IdSupply)
      returns (r: map<string, Json>)
      modifies logs, ids
      ensures r == LedgerResponse(Payout, IsConfigured(), ids.gen(old(ids.issued)), PayoutEvent(data))
      ensures logs.rows == old(logs.rows) + [LedgerLogRow(Payout, IsConfigured(), ids.gen(old(ids.issued)), data, now)]
      ensures ids.issued == old(ids.issued) + 1
    {
      r := Post(Payout, data, now, logs, ids);
    }
  }

  /** Whether the ledger counts as configured depends on the base URL and the key only. */
  lemma ConfiguredIgnoresSecret(a: ERPNextService, b: ERPNextService)
    requires a.baseUrl == b.baseUrl && a.apiKey == b.apiKey
    ensures a.IsConfigured() == b.IsConfigured()
  {
  }
}
