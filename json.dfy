/** Parsed JSON values as the CLI's JavaScript sees them after `JSON.parse`. */
module JsonValue {
  import opened Wrappers

  /** A parsed JSON value; numbers keep only what truthiness needs. */
  datatype Json =
    | JNull
    | JBool(b: bool)
    | JNumber(n: real)
    | JString(s: string)
    | JArray(items: seq<Json>)
    | JObject(fields: map<string, Json>)

  /** JavaScript truthiness of a JSON value. */
  predicate Truthy(j: Json) {
    match j
    case JNull => false
    case JBool(b) => b
    case JNumber(n) => n != 0.0
    case JString(s) => s != ""
    case JArray(_) => true
    case JObject(_) => true
  }

  /** `j[key]`, `None` standing for `undefined`. */
  function Field(j: Json, key: string): Option<Json> {
    if j.JObject? && key in j.fields then Some(j.fields[key]) else None
  }

  predicate TruthyField(j: Json, key: string) {
    Field(j, key).Some? && Truthy(Field(j, key).value)
  }
}
