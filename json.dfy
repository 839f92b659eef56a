/** Decoded JSON values as the ETL scripts receive them from the history API. */
module Json {

  /** A decoded JSON value: `null`, a boolean, an integral number, a number with a
      fraction or exponent (a Python float; only its finite real value is kept), a string,
      an array or an object. */
  datatype JsonValue =
    | JNull
    | JBool(b: bool)
    | JInt(i: int)
    | JReal(x: real)
    | JStr(s: string)
    | JArray(items: seq<JsonValue>)
    | JObject(fields: map<string, JsonValue>)

  /** One raw API record: a JSON object. */
  type Record = map<string, JsonValue>

  /** `r.get(k)`: the field's value, or `None` when the key is absent. */
  function Get(r: Record, k: string): JsonValue {
    if k in r then r[k] else JNull
  }

  /** Python truthiness of a decoded JSON value (`if v:`). */
  predicate Truthy(v: JsonValue) {
    match v
    case JNull => false
    case JBool(b) => b
    case JInt(i) => i != 0
    case JReal(x) => x != 0.0
    case JStr(s) => s != []
    case JArray(items) => items != []
    case JObject(fields) => fields != map[]
  }

  /** What one call of the fetch function gives back: the record list (a body that is not a
      list has already become the empty list), a hard HTTP 400 rejection, or any other
      exception escaping the call (transport errors after the retries, bad JSON, ...). */
  datatype FetchResult = Ok(records: seq<Record>) | Rejected400 | Failed

  /** The two fetches made for one symbol: data type 0 (price history) and 1 (deal history). */
  datatype SymbolFetch = SymbolFetch(prices: FetchResult, deals: FetchResult)
}
