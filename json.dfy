/** JSON values as `JSON.parse` produces them, with JavaScript truthiness and
    property access. Parsing and serialising themselves are never modelled:
    wherever the code calls `JSON.parse` or `JSON.stringify`, the model takes
    the function as a parameter. */
module Json {
  import opened Common

  datatype JsonValue =
    | JNull
    | JBool(b: bool)
    | JNumber(n: real)
    | JString(s: string)
    | JArray(items: seq<JsonValue>)
    | JObject(fields: map<string, JsonValue>)

  /** `JSON.parse`: `None` when it throws. */
  type Parser = string -> Option<JsonValue>

  /** JavaScript truthiness of a parsed value (JSON has no NaN or -0). */
  predicate Truthy(v: JsonValue) {
    match v
    case JNull => false
    case JBool(b) => b
    case JNumber(n) => n != 0.0
    case JString(s) => s != ""
    case JArray(_) => true
    case JObject(_) => true
  }

  /** `v[key]` for a value that is not `null`: the field of an object, and
      `undefined` (None) for every other kind of value. */
  function Member(v: JsonValue, key: string): (r: Option<JsonValue>)
    requires !v.JNull?
    ensures r.Some? <==> v.JObject? && key in v.fields
    ensures r.Some? ==> r.value == v.fields[key]
  {
    if v.JObject? && key in v.fields then Some(v.fields[key]) else None
  }

  /** `typeof v[key] === "string"`, giving the string. */
  function StringMember(v: JsonValue, key: string): (r: Option<string>)
    requires !v.JNull?
    ensures r.Some? <==> v.JObject? && key in v.fields && v.fields[key].JString?
    ensures r.Some? ==> v.fields[key] == JString(r.value)
  {
    match Member(v, key)
    case Some(JString(s)) => Some(s)
    case _ => None
  }
}
