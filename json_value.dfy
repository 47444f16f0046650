/** The values that `json.load`, `json.loads` and the extraction branches produce and cache. */
module JsonValue {

  /** A decoded JSON value. Numbers are kept as reals; NaN and infinities are not modelled. */
  datatype Json =
    | JNull
    | JBool(b: bool)
    | JNum(n: real)
    | JStr(s: string)
    | JArr(items: seq<Json>)
    | JObj(fields: map<string, Json>)

  /** Python's `bool(v)`: empty containers, the empty string, zero, `False` and `None` are false. */
  predicate Truthy(v: Json) {
    match v
    case JNull => false
    case JBool(b) => b
    case JNum(n) => n != 0.0
    case JStr(s) => s != []
    case JArr(items) => items != []
    case JObj(fields) => fields != map[]
  }

  /**
   * Whether `enumerate(v)` works on the decoded value: strings, lists and
   * dicts are iterable; `None`, booleans and numbers raise `TypeError`.
   */
  predicate Listable(v: Json) {
    v.JStr? || v.JArr? || v.JObj?
  }

  /** A list of strings, as `json.load` gives it back after `json.dump` of a Python list of str. */
  function StringList(xs: seq<string>): (v: Json)
    ensures v.JArr? && |v.items| == |xs|
    ensures forall i :: 0 <= i < |xs| ==> v.items[i] == JStr(xs[i])
  {
    JArr(seq(|xs|, i requires 0 <= i < |xs| => JStr(xs[i])))
  }
}
