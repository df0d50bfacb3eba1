/**
 * JSON values as `JSON.parse` produces them, with JavaScript's truthiness and
 * property reads on them. Parsing and serialising text are not modelled here:
 * the modules that need them take `JSON.parse` and `JSON.stringify` as
 * parameters (`Parser`, `Stringifier`).
 */
module Json {
  import opened Wrappers

  datatype JsonValue =
    | JNull
    | JBool(b: bool)
    | JNumber(n: real)
    | JString(s: string)
    | JArray(items: seq<JsonValue>)
    | JObject(fields: map<string, JsonValue>)

  /** `JSON.parse`: a value, or the message of the `SyntaxError` it throws. */
  type Parser = string -> Result<JsonValue, string>

  /** `JSON.stringify` applied to a parsed value. */
  type Stringifier = JsonValue -> string

  /** JavaScript's `ToBoolean` on a JSON value (no JSON number is NaN). */
  predicate Truthy(v: JsonValue) {
    match v
    case JNull => false
    case JBool(b) => b
    case JNumber(n) => n != 0.0
    case JString(s) => s != ""
    case JArray(_) => true
    case JObject(_) => true
  }

  /** `o.key`, where `None` is `undefined`; only objects carry the keys this application reads. */
  function Member(v: JsonValue, key: string): (r: Option<JsonValue>)
    ensures r.Some? <==> v.JObject? && key in v.fields
    ensures r.Some? ==> r.value == v.fields[key]
  {
    if v.JObject? && key in v.fields then Some(v.fields[key]) else None
  }

  /** Truthiness of a property read that may be `undefined`. */
  predicate TruthyMember(v: JsonValue, key: string) {
    Member(v, key).Some? && Truthy(Member(v, key).value)
  }
}
