/** A parsed JSON value and the two JavaScript operations the pipeline
    applies to it: truthiness and property access. `JSON.parse` itself is
    not modelled: callers receive it as a partial function. */
module Json {
  import opened Wrappers

  datatype JsonValue =
    | JNull
    | JBool(b: bool)
    | JNum(n: real)
    | JStr(s: string)
    | JArr(items: seq<JsonValue>)
    | JObj(fields: map<string, JsonValue>)

  /** `JSON.parse`: `None` where it would throw. */
  type Parser = string -> Option<JsonValue>

  /** JavaScript truthiness of a parsed value. */
  predicate Truthy(v: JsonValue) {
    match v
    case JNull => false
    case JBool(b) => b
    case JNum(n) => n != 0.0
    case JStr(s) => s != ""
    case _ => true
  }

  /** `v[key]`: an own field of an object, `None` for `undefined`. */
  function Get(v: JsonValue, key: string): Option<JsonValue> {
    if v.JObj? && key in v.fields then Some(v.fields[key]) else None
  }
}
