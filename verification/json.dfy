/**
 * The JSON values a preset document parses into. Parsing itself is done by a
 * library outside this model; its outcome is given as an `Option<Json>`.
 */
module Json {
  import opened Wrappers
  import opened Ints

  /**
   * A JSON value. A number written as an integer in the range of u64 or i64 is
   * an integer (`JInt`), except `-0`, which is the float -0.0; every other
   * number is a float, kept as its bits.
   */
  datatype Json =
    | JNull
    | JBool(b: bool)
    | JInt(n: int)
    | JFloat(bits: bv64)
    | JString(text: string)
    | JArray(items: seq<Json>)
    | JObject(fields: map<string, Json>)

  predicate FitsI64(n: int) {
    -0x8000_0000_0000_0000 <= n < 0x8000_0000_0000_0000
  }

  /** `Value::as_str`. */
  function AsStr(v: Json): (r: Option<string>)
    ensures r.Some? <==> v.JString?
    ensures r.Some? ==> r.value == v.text
  {
    if v.JString? then Some(v.text) else None
  }

  /** `Value::as_object`. */
  function AsObject(v: Json): (r: Option<map<string, Json>>)
    ensures r.Some? <==> v.JObject?
    ensures r.Some? ==> r.value == v.fields
  {
    if v.JObject? then Some(v.fields) else None
  }

  /** `Value::as_i64`: only integers that fit in an i64. */
  function AsI64(v: Json): (r: Option<I64>)
    ensures r.Some? <==> v.JInt? && FitsI64(v.n)
    ensures r.Some? ==> r.value as int == v.n
  {
    if v.JInt? && FitsI64(v.n) then Some(v.n as I64) else None
  }
}
