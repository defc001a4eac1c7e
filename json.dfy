/** An abstract JSON value standing for what JSONSerialization and JSONDecoder see,
    and the outcome of reading a file and parsing it as JSON. */
module Json {
  import opened Wrappers

  datatype Json =
    | JNull
    | JBool(b: bool)
    | JNumber(n: real)
    | JString(s: string)
    | JArray(items: seq<Json>)
    | JObject(fields: map<string, Json>)

  /** Reading a file: absent (or unreadable), present but not JSON, or parsed. */
  datatype FileRead = NoFile | NotJson | JsonFile(value: Json)

  /** `(json as? [String: Any])?[key]`. */
  function Member(j: Json, key: string): (r: Option<Json>)
    ensures r.Some? <==> j.JObject? && key in j.fields
  {
    if j.JObject? && key in j.fields then Some(j.fields[key]) else None
  }

  /** `value as? Int` on a bridged NSNumber: only numbers with an integral value. */
  function AsInt(j: Json): (r: Option<int>)
    ensures r.Some? ==> j.JNumber? && j.n == r.value as real
  {
    if j.JNumber? && j.n == j.n.Floor as real then Some(j.n.Floor) else None
  }
}
