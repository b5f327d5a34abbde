/**
 * The frame normalisation inside `WebSocketServer.handle_connection`: every
 * inbound frame becomes a dict with a "text" and a "timestamp" entry.
 */
module Normalizer {
  import opened Json

  /** A decoded value is a task when it is a JSON object with a "text" key. */
  predicate IsTaskObject(v: JsonValue) {
    v.JObject? && "text" in v.fields
  }

  /**
   * `raw` is the frame as received, `parsed` what `json.loads(raw)` gives,
   * `nowIso` the value of `datetime.now().isoformat()` while the frame is handled.
   * The name `message` is rebound to the decoded value before the format check
   * raises, so a value that decodes but is not a task object becomes the text,
   * and only a decode error keeps the raw frame as the text.
   */
  function Normalize(raw: string, parsed: ParseResult, nowIso: string): (r: Record)
    // every record carries both keys, whatever the frame
    ensures "text" in r && "timestamp" in r
    // a task object keeps all its entries; "timestamp" is only added when absent
    ensures parsed.Parsed? && IsTaskObject(parsed.value) ==>
      var fields := parsed.value.fields;
      && r.Keys == fields.Keys + {"timestamp"}
      && (forall k :: k in fields ==> r[k] == fields[k])
      && ("timestamp" !in fields ==> r["timestamp"] == JString(nowIso))
    // a frame that does not decode becomes the raw text, stamped now
    ensures parsed.ParseError? ==>
      r == map["text" := JString(raw), "timestamp" := JString(nowIso)]
    // a decoded value that is not a task object becomes the text itself, stamped now
    ensures parsed.Parsed? && !IsTaskObject(parsed.value) ==>
      r == map["text" := parsed.value, "timestamp" := JString(nowIso)]
  {
    match parsed
    case ParseError =>
      map["text" := JString(raw), "timestamp" := JString(nowIso)]
    case Parsed(v) =>
      if !IsTaskObject(v) then
        map["text" := v, "timestamp" := JString(nowIso)]
      else if "timestamp" in v.fields then
        v.fields
      else
        v.fields["timestamp" := JString(nowIso)]
  }

  /** A client-supplied timestamp in a task object is never overwritten. */
  lemma KeepsClientTimestamp(raw: string, fields: map<string, JsonValue>, nowIso: string)
    requires "text" in fields && "timestamp" in fields
    ensures Normalize(raw, Parsed(JObject(fields)), nowIso) == fields
  {
  }

  /**
   * A record, sent back as a JSON object, comes through unchanged: it is a
   * task object that already has a timestamp.
   */
  lemma NormalizeIdempotent(raw: string, parsed: ParseResult, nowIso: string, raw2: string, nowIso2: string)
    ensures var r := Normalize(raw, parsed, nowIso);
      Normalize(raw2, Parsed(JObject(r)), nowIso2) == r
  {
  }
}
