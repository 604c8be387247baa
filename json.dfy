/**
 * JSON values as they travel in request bodies, response bodies and store rows,
 * together with the JavaScript truthiness the source relies on (`if (x)`, `a || b`).
 */
module Json {

  import opened Wrappers

  datatype Json =
    | JNull
    | JBool(b: bool)
    | JNum(n: real)
    | JStr(s: string)
    | JArr(items: seq<Json>)
    | JObj(fields: map<string, Json>)

  /** JavaScript truthiness of a JSON value: null, false, 0 and "" are falsy; objects and arrays are truthy. */
  predicate Truthy(j: Json) {
    match j
    case JNull => false
    case JBool(b) => b
    case JNum(n) => n != 0.0
    case JStr(s) => s != ""
    case JArr(_) => true
    case JObj(_) => true
  }

  /**
   * `a || b` on JSON values: the left operand when it is truthy, otherwise the right one.
   */
  function Or(a: Json, b: Json): Json
  {
    if Truthy(a) then a else b
  }

  /**
   * Optional-chained property access `j?.key` on a value known not to be null:
   * a missing key and a non-object value both read as `undefined` (None).
   */
  function Field(j: Json, key: string): Option<Json>
  {
    if j.JObj? && key in j.fields then Some(j.fields[key]) else None
  }

  /** `undefined` is falsy, like null. */
  predicate TruthyOpt(o: Option<Json>) {
    o.Some? && Truthy(o.value)
  }
}
