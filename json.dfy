/**
 * The structured payload of a server-pushed frame, as `JSON.parse` produces it, and the
 * optional-chaining property access (`data?.ticket?.id`) the store applies to it.
 */
module Json {
  import opened Wrappers

  /** Numbers are kept as integers: the filters compare only strings. */
  datatype Json =
    | JNull
    | JBool(b: bool)
    | JNumber(n: int)
    | JString(s: string)
    | JArray(items: seq<Json>)
    | JObject(fields: map<string, Json>)

  /** `v?.key`: the member named `key` of an object, and undefined (None) for an undefined
      value, null, and every non-object value. */
  function Member(v: Option<Json>, key: string): (r: Option<Json>)
    ensures r.Some? <==> v.Some? && v.value.JObject? && key in v.value.fields
    ensures r.Some? ==> r.value == v.value.fields[key]
  {
    match v
    case Some(JObject(fields)) => if key in fields then Some(fields[key]) else None
    case _ => None
  }

  /** `v === s` for a string `s`: strict equality holds only for the same string. */
  predicate IsString(v: Option<Json>, s: string) {
    v == Some(JString(s))
  }
}
