/** JSON values, as they arrive over the websocket and come out of the analysis plan. */
module Json {

  /** A decoded JSON document. Numbers are modelled as integers. */
  datatype Value =
    | JNull
    | JBool(b: bool)
    | JNumber(n: int)
    | JString(s: string)
    | JArray(items: seq<Value>)
    | JObject(fields: map<string, Value>)

  /** Python's truth value of the decoded document (`if value:`). */
  predicate Truthy(v: Value) {
    match v
    case JNull => false
    case JBool(b) => b
    case JNumber(n) => n != 0
    case JString(s) => s != []
    case JArray(items) => items != []
    case JObject(fields) => fields != map[]
  }

  /** Python's `d.get(key, default)` on a decoded object. */
  function Get(fields: map<string, Value>, key: string, default: Value): (r: Value)
    ensures key in fields ==> r == fields[key]
    ensures key !in fields ==> r == default
  {
    if key in fields then fields[key] else default
  }
}
