/**
 * PHP values as the CityOS package handles them: decoded JSON / PHP arrays,
 * the null-coalescing operator `??`, the short ternary `?:` and `empty()`.
 * Associative arrays are maps from string keys; lists are sequences.
 */
module Values {

  datatype Option<T> = None | Some(value: T)

  /** A PHP value as it appears in a JSON column, a request or a log row. */
  datatype Json =
    | JNull
    | JBool(b: bool)
    | JInt(i: int)
    | JStr(s: string)
    | JArr(items: seq<Json>)
    | JObj(fields: map<string, Json>)

  /** `$m[$k] ?? null`: a missing key reads as null. */
  function Get(m: map<string, Json>, k: string): Json
  {
    if k in m then m[k] else JNull
  }

  /** True when `$m[$k] ?? $d` takes the entry rather than the default. */
  predicate Supplied(m: map<string, Json>, k: string)
  {
    k in m && m[k] != JNull
  }

  /** `$m[$k] ?? $d`: the entry when it exists and is not null, else `$d`. */
  function Coalesce(m: map<string, Json>, k: string, d: Json): Json
  {
    if Supplied(m, k) then m[k] else d
  }

  /** `empty($s)` for a string: PHP counts both "" and "0" as empty. */
  predicate EmptyString(s: string)
  {
    s == "" || s == "0"
  }

  /** `$a ?: $b` on strings: `$a` unless it is empty in the PHP sense. */
  function Elvis(a: string, b: string): string
  {
    if EmptyString(a) then b else a
  }

  /** `['amount' => 0, 'currency' => 'SAR']`, the money default used throughout. */
  const ZERO_SAR: Json := JObj(map["amount" := JInt(0), "currency" := JStr("SAR")])

  /** `now()->toIso8601String()`: timestamps are integer seconds in this model. */
  function Timestamp(t: int): Json
  {
    JInt(t)
  }

  /** PHP `[]` written as a default value. */
  const EMPTY_ARRAY: Json := JArr([])
}

/**
 * Fresh identifiers (`Str::uuid()`): the model takes the generator as a
 * parameter and counts how many identifiers it has handed out.
 */
module Ids {

  class IdSupply {
    const gen: nat -> string
    var issued: nat

    constructor (gen: nat -> string)
      ensures this.gen == gen && issued == 0
    {
      this.gen := gen;
      issued := 0;
    }

    /** Hands out the next identifier. */
    method Next() returns (id: string)
      modifies this
      ensures id == gen(old(issued))
      ensures issued == old(issued) + 1
    {
      id := gen(issued);
      issued := issued + 1;
    }
  }
}
