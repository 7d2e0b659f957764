/** The values that `json.loads` produces and that the request body carries. */
module JsonValue {

  /**
   * A decoded JSON document. A number written with a fraction or an exponent
   * is kept as its decimal mantissa and exponent (mantissa * 10^exponent),
   * e.g. 0.95 as JFloat(95, -2); the client never computes with these values.
   * `json.loads` also accepts the non-finite literals NaN, Infinity and -Infinity.
   */
  datatype Json =
    | JNull
    | JBool(b: bool)
    | JInt(i: int)
    | JFloat(mantissa: int, exponent: int)
    | JNaN
    | JInfinity(negative: bool)
    | JString(s: string)
    | JArray(items: seq<Json>)
    | JObject(fields: map<string, Json>)

  /**
   * Python's truth value of the object a JSON value decodes to: every value
   * is true except None, False, a zero number and an empty string, list or dict.
   */
  predicate Truthy(v: Json)
    ensures Truthy(v) <==>
      && v != JNull && v != JBool(false) && v != JInt(0) && !(v.JFloat? && v.mantissa == 0)
      && v != JString("") && v != JArray([]) && v != JObject(map[])
  {
    match v
    case JNull => false
    case JBool(b) => b
    case JInt(i) => i != 0
    case JFloat(m, _) => m != 0
    case JNaN => true
    case JInfinity(_) => true
    case JString(s) => s != ""
    case JArray(items) => items != []
    case JObject(fields) => fields != map[]
  }
}
