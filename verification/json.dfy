/**
 * JSON values as Python's `json` module decodes them (`None`, `bool`,
 * `int`/`float`, `str`, `list`, `dict`), with the truthiness Python gives them.
 */
module Json {

  /** A decoded JSON document. Integers and floats are both kept as `real`. */
  datatype Value =
    | JNull
    | JBool(b: bool)
    | JNum(n: real)
    | JString(s: string)
    | JArray(items: seq<Value>)
    | JObject(fields: map<string, Value>)

  /** Python truthiness: `None`, `False`, zero, and empty strings, lists and dicts are falsy. */
  predicate Truthy(v: Value) {
    match v
    case JNull => false
    case JBool(b) => b
    case JNum(n) => n != 0.0
    case JString(s) => s != ""
    case JArray(xs) => xs != []
    case JObject(m) => m != map[]
  }

  /** `len(v)` is defined: strings, lists and dicts have a length; `None`, booleans and numbers raise. */
  predicate Sized(v: Value) {
    v.JString? || v.JArray? || v.JObject?
  }

  /** `d.get(k)`: a missing key reads as `None`, just like a key bound to `None`. */
  function Get(m: map<string, Value>, k: string): Value {
    if k in m then m[k] else JNull
  }

  /** The empty JSON list `[]`. */
  const EmptyList: Value := JArray([])
}
