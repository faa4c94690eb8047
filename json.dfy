/** JSON values as request bodies and provider replies carry them, and JavaScript's `Number(...)`. */
module Json {
  import opened Wrappers

  /** A parsed JSON value. JSON numbers are finite, so a real number stands for each. */
  datatype Json =
    | JNull
    | JBool(b: bool)
    | JNumber(n: real)
    | JString(s: string)
    | JArray(elems: seq<Json>)
    | JObject(fields: map<string, Json>)

  /** What JavaScript's `Number(...)` conversion can yield. */
  datatype JsNumber = Finite(value: real) | NaN | PositiveInfinity | NegativeInfinity

  /** `Number.isInteger(n)`: finite and without a fractional part. */
  predicate IsInteger(n: JsNumber) {
    n.Finite? && n.value == n.value.Floor as real
  }

  /** `obj[key]` on a parsed object: None when the key is missing. */
  function Member(obj: map<string, Json>, key: string): (v: Option<Json>)
    ensures v.Some? <==> key in obj
    ensures v.Some? ==> v.value == obj[key]
  {
    if key in obj then Some(obj[key]) else None
  }
}
