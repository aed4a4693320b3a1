/**
 * The slice of serde_json's `Value` that the log prettifier touches. Parsing
 * is outside the model: values arrive already built.
 */
module JsonValue {
  import opened Wrappers

  /** A JSON value. Numbers keep their textual form; nothing here reads them. */
  datatype Json =
    | JNull
    | JBool(b: bool)
    | JNumber(text: string)
    | JString(str: string)
    | JArray(items: seq<Json>)
    | JObject(fields: map<string, Json>)

  /** `Value::get` with a string key: an object's field, and nothing for every other kind of value. */
  function Get(v: Json, key: string): Option<Json> {
    match v
    case JObject(fields) => if key in fields then Some(fields[key]) else None
    case _ => None
  }

  /** `Value::as_str`: the text of a JSON string, and nothing for every other kind of value. */
  function AsStr(v: Json): Option<string> {
    match v
    case JString(s) => Some(s)
    case _ => None
  }
}
