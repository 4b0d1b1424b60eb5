/** The values `JSON.parse` can produce. */
module Json {
  import opened Wrappers

  /** A parsed JSON value. JSON numbers are doubles in JavaScript; a finite double is a real here. */
  datatype Json =
    | JNull
    | JBool(b: bool)
    | JNumber(n: real)
    | JString(s: string)
    | JArray(items: seq<Json>)
    | JObject(members: map<string, Json>)

  /** `obj.key` on a parsed value: the member if the object has that key, `undefined` (None) otherwise.
      Parsed objects inherit from Object.prototype, which has none of the keys this model asks about. */
  function Property(j: Json, key: string): (r: Option<Json>)
    ensures r.Some? <==> j.JObject? && key in j.members
    ensures r.Some? ==> r.value == j.members[key]
  {
    if j.JObject? && key in j.members then Some(j.members[key]) else None
  }
}
