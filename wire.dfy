/**
 * What the worker puts on the wire for one message: the `"Events"` payload
 * and the request headers. `ReadPayload` is the receiving side's reading of
 * such a payload and is the inverse of `BuildPayload`.
 */
module Wire {
  import opened Wrappers
  import opened Json
  import opened Messages

  const ContentType := "Content-Type"
  const JsonMediaType := "application/json"
  const ApiKeyHeader := "X-Seq-ApiKey"

  /** The JSON value of `Properties`: a nil map encodes as `null`, any other map as that object. */
  function PropertiesValue(f: Fields): (v: Value)
    ensures ReadProperties(v) == Some(f)
  {
    match f
    case None => Null
    case Some(members) => Object(members)
  }

  /** The one event object, with the message's four parts under their wire names. */
  function EventValue(m: LogMessage): Value {
    Object(map[
      "Timestamp" := Str(m.timestamp),
      "Level" := Str(m.level),
      "MessageTemplate" := Str(m.messageTemplate),
      "Properties" := PropertiesValue(m.fields)])
  }

  /** The payload sent for `m`: an `"Events"` array holding the one event for `m`. */
  function BuildPayload(m: LogMessage): Value {
    Object(map["Events" := Array([EventValue(m)])])
  }

  /** The payload is an object whose only key is `"Events"`, an array of exactly one event. */
  lemma PayloadHasOneEvent(m: LogMessage)
    ensures var p := BuildPayload(m);
            && p.Object? && p.members.Keys == {"Events"}
            && p.members["Events"].Array? && |p.members["Events"].items| == 1
  {
  }

  /** The payload is lossless: reading it back gives the message it was built from. */
  lemma PayloadRoundTrip(m: LogMessage)
    ensures ReadPayload(BuildPayload(m)) == Some(m)
  {
    assert ReadEvent(EventValue(m)) == Some(m);
  }

  /** Reads the fields back from a `Properties` value; anything but null or an object is refused. */
  function ReadProperties(v: Value): Option<Fields> {
    match v
    case Null => Some(None)
    case Object(members) => Some(Some(members))
    case _ => None
  }

  /** Reads an event object with exactly the four keys and string-valued required parts. */
  function ReadEvent(e: Value): Option<LogMessage> {
    if e.Object? && e.members.Keys == {"Timestamp", "Level", "MessageTemplate", "Properties"} then
      var ts, lv, mt, pr := e.members["Timestamp"], e.members["Level"],
                            e.members["MessageTemplate"], e.members["Properties"];
      if ts.Str? && lv.Str? && mt.Str? && ReadProperties(pr).Some? then
        Some(LogMessage(ts.s, lv.s, mt.s, ReadProperties(pr).value))
      else None
    else None
  }

  /** Reads a payload holding an `"Events"` array of exactly one event. */
  function ReadPayload(p: Value): Option<LogMessage> {
    if p.Object? && p.members.Keys == {"Events"} && p.members["Events"].Array?
       && |p.members["Events"].items| == 1
    then ReadEvent(p.members["Events"].items[0])
    else None
  }

  /** Only payloads built by `BuildPayload` read back, each to the message it was built from. */
  lemma ReadPayloadOnlyBuilt(p: Value, m: LogMessage)
    ensures ReadPayload(p) == Some(m) <==> p == BuildPayload(m)
  {
    PayloadRoundTrip(m);
    if ReadPayload(p) == Some(m) {
      var e := p.members["Events"].items[0];
      assert e.members == EventValue(m).members;
      assert p.members["Events"].items == [EventValue(m)];
      assert p.members == BuildPayload(m).members;
    }
  }

  /**
   * The request headers: `Content-Type: application/json` always, and the
   * API key header exactly when the key is non-empty, carrying that key.
   */
  function Headers(apiKey: string): (h: map<string, string>)
    ensures ContentType in h && h[ContentType] == JsonMediaType
    ensures ApiKeyHeader in h <==> apiKey != ""
    ensures ApiKeyHeader in h ==> h[ApiKeyHeader] == apiKey
    ensures h.Keys <= {ContentType, ApiKeyHeader}
  {
    var h := map[ContentType := JsonMediaType];
    if apiKey != "" then h[ApiKeyHeader := apiKey] else h
  }

  /** An HTTP request as handed to the transport; `body` is the payload before encoding. */
  datatype Request = Request(verb: string, url: string, headers: map<string, string>, body: Value)

  /**
   * The POST the worker sends for `m` to `url`: its body reads back as `m`,
   * it is JSON, and it carries the API key exactly when there is one.
   */
  function BuildRequest(url: string, apiKey: string, m: LogMessage): (r: Request)
    ensures r.verb == "POST" && r.url == url
    ensures ReadPayload(r.body) == Some(m)
    ensures ContentType in r.headers && r.headers[ContentType] == JsonMediaType
    ensures ApiKeyHeader in r.headers <==> apiKey != ""
    ensures ApiKeyHeader in r.headers ==> r.headers[ApiKeyHeader] == apiKey
    ensures r.headers.Keys <= {ContentType, ApiKeyHeader}
  {
    PayloadRoundTrip(m);
    Request("POST", url, Headers(apiKey), BuildPayload(m))
  }

  /** `Log("Information", "Application started", {"version": "1.0.0"})` at time `now`. */
  lemma ApplicationStartedPayload(now: string)
    ensures BuildPayload(LogMessage(now, "Information", "Application started",
                                    Some(map["version" := Str("1.0.0")])))
         == Object(map["Events" := Array([Object(map[
              "Timestamp" := Str(now),
              "Level" := Str("Information"),
              "MessageTemplate" := Str("Application started"),
              "Properties" := Object(map["version" := Str("1.0.0")])])])])
  {
  }
}
