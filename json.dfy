/**
 * Parsed JSON documents as the webhook handler sees them, with the two
 * JavaScript operations its expressions rely on: truthiness and property
 * reads (plain `.` and optional `?.`) combined with `||`.
 */
module JsonValue {
  import opened Wrappers

  /** A value produced by JSON.parse. Numbers are restricted to integers. */
  datatype Json =
    | JNull
    | JBool(b: bool)
    | JNum(n: int)
    | JStr(s: string)
    | JArr(items: seq<Json>)
    | JObj(fields: map<string, Json>)

  /** JavaScript truthiness: false, 0, "" and null are falsy; every array and object is truthy. */
  predicate Truthy(v: Json) {
    match v
    case JNull => false
    case JBool(b) => b
    case JNum(n) => n != 0
    case JStr(s) => s != ""
    case JArr(_) => true
    case JObj(_) => true
  }

  /** Truthiness of a property read; `undefined` (None) is falsy. */
  predicate TruthyOpt(o: Option<Json>) {
    o.Some? && Truthy(o.value)
  }

  /**
   * `v.key` on a value that is not null (reading a property of null throws).
   * Only own properties of objects are found: none of the keys the handler
   * reads exists on the prototypes of arrays, strings, numbers or booleans.
   */
  function Prop(v: Json, key: string): Option<Json>
    requires v != JNull
  {
    if v.JObj? && key in v.fields then Some(v.fields[key]) else None
  }

  /** `v?.key`: undefined when v is undefined or null, otherwise `v.key`. */
  function OptProp(v: Option<Json>, key: string): Option<Json> {
    if v.None? || v.value == JNull then None else Prop(v.value, key)
  }

  /** JavaScript `a || b` where `a` is a property read. */
  function Or(a: Option<Json>, b: Json): (r: Json)
    ensures Some(r) == a || r == b
    ensures Truthy(r) <==> TruthyOpt(a) || Truthy(b)
  {
    if TruthyOpt(a) then a.value else b
  }
}
