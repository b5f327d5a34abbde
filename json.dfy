/**
 * Values produced by `json.loads`, and the outcome of trying to decode a frame.
 * Object keys are always strings in JSON; numbers are kept as their literal
 * text, since nothing here computes with them.
 */
module Json {
  datatype JsonValue =
    | JNull
    | JBool(b: bool)
    | JNumber(literal: string)
    | JString(s: string)
    | JArray(items: seq<JsonValue>)
    | JObject(fields: map<string, JsonValue>)

  /** `json.loads(frame)` either raises a decode error or yields a value. */
  datatype ParseResult = ParseError | Parsed(value: JsonValue)

  /** A Python dict built by the server: string keys, JSON values. */
  type Record = map<string, JsonValue>
}
