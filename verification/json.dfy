/** The request bodies the handlers receive, as parsed JSON. Only the top level
    is structured: field values are scalars, and nested arrays or objects are
    kept as tags because no schema of the application accepts them. */
module Json {
  import opened Wrappers

  datatype Value = JNull | JBool(b: bool) | JNum(n: int) | JStr(s: string) | JArray | JObject

  /** A parsed body: an object with its keys, or any other JSON value. */
  datatype Payload = Object(fields: map<string, Value>) | NotAnObject(received: Value)

  /** `body[key]`: `None` when the key is absent (JavaScript's `undefined`). */
  function Get(fields: map<string, Value>, key: string): Option<Value> {
    if key in fields then Some(fields[key]) else None
  }

  /** The name `typeof`-style checks report for a value. */
  function TypeName(v: Value): string {
    match v
    case JNull => "null"
    case JBool(_) => "boolean"
    case JNum(_) => "number"
    case JStr(_) => "string"
    case JArray => "array"
    case JObject => "object"
  }

  /** `JSON.stringify` of an optional string: `null` when there is none. */
  function StringOrNull(o: Option<string>): Value {
    match o
    case Some(s) => JStr(s)
    case None => JNull
  }
}
