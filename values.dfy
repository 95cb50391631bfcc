/**
 * Decoded JSON documents, as the HTTP client hands them to the script, and the
 * two Python conversions the script applies to them: truthiness (`if not x`)
 * and `isinstance(x, int)`.
 */
module Values {
  import opened Wrappers

  /** A decoded JSON value. Numbers with a fraction or exponent decode to floats. */
  datatype Json =
    | JNull
    | JBool(b: bool)
    | JInt(i: int)
    | JFloat(x: real)
    | JString(s: string)
    | JArray(items: seq<Json>)
    | JObject(fields: map<string, Json>)

  /** Python truthiness of a decoded value: empty containers, zero, "" and null are false. */
  predicate Truthy(j: Json) {
    match j
    case JNull => false
    case JBool(b) => b
    case JInt(i) => i != 0
    case JFloat(x) => x != 0.0
    case JString(s) => s != ""
    case JArray(items) => |items| > 0
    case JObject(fields) => |fields| > 0
  }

  /**
   * The integer a value stands for when `isinstance(value, int)` holds.
   * In Python `bool` is a subclass of `int`, so `true` and `false` pass as 1 and 0.
   */
  function AsInt(j: Json): (r: Option<int>)
    ensures r.Some? <==> j.JInt? || j.JBool?
    ensures j.JInt? ==> r == Some(j.i)
  {
    match j
    case JInt(i) => Some(i)
    case JBool(b) => Some(if b then 1 else 0)
    case _ => None
  }

  /** The number a value stands for when Python can compare it with an int (int, bool or float). */
  function AsNumber(j: Json): (r: Option<real>)
    ensures r.Some? <==> j.JInt? || j.JBool? || j.JFloat?
    ensures AsInt(j).Some? ==> r == Some(AsInt(j).value as real)
  {
    match j
    case JInt(i) => Some(i as real)
    case JBool(b) => Some(if b then 1.0 else 0.0)
    case JFloat(x) => Some(x)
    case _ => None
  }

  /** `value[key]` on a decoded document: defined only when the value is an object holding the key. */
  function Member(j: Json, key: string): Option<Json> {
    if j.JObject? && key in j.fields then Some(j.fields[key]) else None
  }
}
