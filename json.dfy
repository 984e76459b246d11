/** Parsed JSON values, as the settings file and the settings API carry them, with the
    Python truthiness and `dict.get` / `or` the source applies to them. */
module Json {

  /** JSON objects are maps: the order of their keys is not kept. */
  datatype Json =
    | JNull
    | JBool(b: bool)
    | JNum(n: real)
    | JStr(s: string)
    | JArr(items: seq<Json>)
    | JObj(fields: map<string, Json>)

  /** Python's `bool(value)`. */
  predicate Truthy(j: Json) {
    match j
    case JNull => false
    case JBool(b) => b
    case JNum(n) => n != 0.0
    case JStr(s) => s != ""
    case JArr(items) => items != []
    case JObj(fields) => fields != map[]
  }

  /** Python's `a or b`. */
  function Or(a: Json, b: Json): Json {
    if Truthy(a) then a else b
  }

  /** Python's `d.get(key)`: `None` when the key is missing. */
  function Get(d: map<string, Json>, key: string): Json {
    if key in d then d[key] else JNull
  }

  /** Python's `d.get(key, default)`. */
  function GetOr(d: map<string, Json>, key: string, default: Json): Json {
    if key in d then d[key] else default
  }
}
