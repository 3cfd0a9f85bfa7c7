/** JSON values as `serde_json::Value` holds them. */
module JsonValues {
  import opened Wrappers
  import opened Assoc

  /** A JSON value; integers and other numbers apart. */
  datatype Json =
    | JNull
    | JBool(b: bool)
    | JInt(i: int)
    | JFloat(text: string)
    | JString(s: string)
    | JArray(items: seq<Json>)
    | JObject(fields: Entries<Json>)

  /** `Value::as_str`: the text of a string value. */
  function AsStr(j: Json): (r: Option<string>)
    ensures r.Some? <==> j.JString?
    ensures r.Some? ==> j == JString(r.value)
  {
    if j.JString? then Some(j.s) else None
  }

  /** `Value::as_bool`: the value of a boolean. */
  function AsBool(j: Json): (r: Option<bool>)
    ensures r.Some? <==> j.JBool?
    ensures r.Some? ==> j == JBool(r.value)
  {
    if j.JBool? then Some(j.b) else None
  }
}
