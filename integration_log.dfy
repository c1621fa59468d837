/**
 * The `cityos_integration_logs` table and `IntegrationLog::logRequest`:
 * defaults merged with the caller's data, the caller's keys winning, then one
 * row appended through mass assignment, which keeps only the fillable
 * columns. `duration_ms` (a float) is not modelled.
 */
module IntegrationLogs {
  import opened Values
  import opened Ids

  type LogRow = map<string, Json>

  const OUTBOUND := "outbound"
  const SUCCESS := "success"

  /** The keys `logRequest` always writes, whatever the data holds. */
  const DEFAULT_KEYS: set<string> := {"integration", "operation", "direction", "status", "correlation_id"}

  /** The model's `$fillable` columns. */
  const FILLABLE: set<string> := {"integration", "operation", "direction", "status", "correlation_id",
    "request_data", "response_data", "error_message", "response_code", "duration_ms"}

  /** `Model::create($attributes)`: attributes outside `$fillable` are dropped without an error. */
  function Fillable(attributes: map<string, Json>): (m: map<string, Json>)
    ensures m.Keys == attributes.Keys * FILLABLE
    ensures forall k :: k in m ==> m[k] == attributes[k]
  {
    map k | k in attributes && k in FILLABLE :: attributes[k]
  }

  /** True when `$data['correlation_id'] ?? Str::uuid()` has to draw a fresh id. */
  predicate NeedsCorrelationId(data: map<string, Json>)
  {
    !Supplied(data, "correlation_id")
  }

  /** The row `logRequest($integration, $operation, $data)` stores, `freshId` standing for the uuid it may draw. */
  function LogRecord(integration: string, operation: string, data: map<string, Json>, freshId: string): (row: LogRow)
    ensures row.Keys == DEFAULT_KEYS + data.Keys * FILLABLE && row.Keys <= FILLABLE
    ensures forall k :: k in data && k in FILLABLE ==> row[k] == data[k]
    ensures "integration" !in data ==> row["integration"] == JStr(integration)
    ensures "operation" !in data ==> row["operation"] == JStr(operation)
    ensures "direction" !in data ==> row["direction"] == JStr(OUTBOUND)
    ensures "status" !in data ==> row["status"] == JStr(SUCCESS)
    ensures "correlation_id" !in data ==> row["correlation_id"] == JStr(freshId)
  {
    var defaults := map[
      "integration" := JStr(integration),
      "operation" := JStr(operation),
      "direction" := JStr(OUTBOUND),
      "status" := JStr(SUCCESS),
      "correlation_id" := Coalesce(data, "correlation_id", JStr(freshId))];
    Fillable(defaults + data)
  }

  /** A key that is no column of the log, such as `foo`, never reaches the row. */
  lemma UnknownKeyDropped(integration: string, operation: string, freshId: string)
    ensures "foo" !in LogRecord(integration, operation, map["foo" := JInt(1)], freshId)
    ensures LogRecord(integration, operation, map["foo" := JInt(1)], freshId).Keys == DEFAULT_KEYS
  {
  }

  /**
   * A correlation id supplied by the caller ends up in the row, and so does an
   * explicit null one: the merge lets the data overwrite the fresh default.
   */
  lemma CorrelationIdFromData(integration: string, operation: string, data: map<string, Json>, freshId: string)
    requires "correlation_id" in data
    ensures LogRecord(integration, operation, data, freshId)["correlation_id"] == data["correlation_id"]
  {
  }

  /** The data can override even the integration and operation names. */
  lemma DataOverridesNames(integration: string, operation: string, data: map<string, Json>, freshId: string)
    requires "integration" in data && "operation" in data
    ensures LogRecord(integration, operation, data, freshId)["integration"] == data["integration"]
    ensures LogRecord(integration, operation, data, freshId)["operation"] == data["operation"]
  {
  }

  /** True for rows written under the given integration and operation names. */
  predicate IsRowOf(row: LogRow, integration: string, operation: string)
  {
    Get(row, "integration") == JStr(integration) && Get(row, "operation") == JStr(operation)
  }

  /** How many rows of the log were written under the given names. */
  function CountRows(rows: seq<LogRow>, integration: string, operation: string): (n: nat)
    ensures n <= |rows|
  {
    if rows == [] then 0
    else CountRows(rows[..|rows| - 1], integration, operation) + (if IsRowOf(rows[|rows| - 1], integration, operation) then 1 else 0)
  }

  lemma {:induction false} CountRowsAppend(a: seq<LogRow>, b: seq<LogRow>, integration: string, operation: string)
    ensures CountRows(a + b, integration, operation) == CountRows(a, integration, operation) + CountRows(b, integration, operation)
    decreases |b|
  {
    if b == [] {
      assert a + b == a;
    } else {
      assert (a + b)[..|a + b| - 1] == a + b[..|b| - 1];
      CountRowsAppend(a, b[..|b| - 1], integration, operation);
    }
  }

  /** A one- or two-row log counts its matching rows one by one. */
  lemma CountRowsShort(a: LogRow, b: LogRow, integration: string, operation: string)
    ensures CountRows([a], integration, operation) == (if IsRowOf(a, integration, operation) then 1 else 0)
    ensures CountRows([a, b], integration, operation)
         == (if IsRowOf(a, integration, operation) then 1 else 0) + (if IsRowOf(b, integration, operation) then 1 else 0)
  {
    assert [a, b][..1] == [a] && [a][..0] == [];
  }

  /** The log table; rows are only ever appended. */
  class IntegrationLogTable {
    var rows: seq<LogRow>

    constructor ()
      ensures rows == []
    {
      rows := [];
    }

    /** `IntegrationLog::logRequest`: appends exactly one row and returns it. */
    method LogRequest(integration: string, operation: string, data: map<string, Json>, ids: IdSupply)
      returns (row: LogRow)
      modifies this, ids
      ensures row == LogRecord(integration, operation, data, ids.gen(old(ids.issued)))
      ensures rows == old(rows) + [row]
      ensures ids.issued == old(ids.issued) + (if NeedsCorrelationId(data) then 1 else 0)
    {
      var correlationId: Json;
      if Supplied(data, "correlation_id") {
        correlationId := data["correlation_id"];
      } else {
        var uuid := ids.Next();
        correlationId := JStr(uuid);
      }
      row := Fillable(map[
        "integration" := JStr(integration),
        "operation" := JStr(operation),
        "direction" := JStr(OUTBOUND),
        "status" := JStr(SUCCESS),
        "correlation_id" := correlationId] + data);
      rows := rows + [row];
    }
  }
}
