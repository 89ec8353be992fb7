/**
 * The log entry, its validation, and the lines the logger writes to its
 * local console.
 */
module Messages {
  import opened Wrappers
  import opened Json

  /** A message's property bag. `None` is Go's nil map, `Some(map[])` an empty one. */
  type Fields = Option<map<string, Value>>

  /** One log event, as the producer's `Log` call builds it. */
  datatype LogMessage = LogMessage(
    timestamp: string,
    level: string,
    messageTemplate: string,
    fields: Fields)

  /** The one error `validateLogMessage` reports. */
  datatype ValidationError = MissingRequiredFields

  /**
   * A message is accepted exactly when none of its three required string
   * fields is empty; its fields play no part.
   */
  function Validate(m: LogMessage): (err: Option<ValidationError>)
    ensures err.Some? <==> "" in [m.timestamp, m.level, m.messageTemplate]
  {
    if m.timestamp == "" || m.level == "" || m.messageTemplate == "" then
      Some(MissingRequiredFields)
    else
      None
  }

  predicate IsValid(m: LogMessage) {
    Validate(m).None?
  }

  /** Whatever the fields hold (nil, empty or populated), validation decides the same. */
  lemma ValidateIgnoresFields(m: LogMessage, f: Fields)
    ensures Validate(m.(fields := f)) == Validate(m)
  {
  }

  /**
   * A line of the logger's local console output, carrying the values the
   * line prints. Every failure is followed by a `LocalLog` line naming the
   * lost message by level and message template.
   */
  datatype Diagnostic =
    | ValidationFailed(error: ValidationError)
    | MarshalFailed(reason: string)
    | RequestFailed(reason: string)
    | SendFailed(reason: string)
    | Rejected(status: int, body: string)
    | LocalLog(level: string, messageTemplate: string)

  /** The "Local log: level - message" line for `m`. */
  function LocalLine(m: LogMessage): Diagnostic {
    LocalLog(m.level, m.messageTemplate)
  }

  /** The `LocalLog` lines of a console, in the order they were written. */
  function LocalLogs(console: seq<Diagnostic>): (r: seq<Diagnostic>)
    decreases |console|
  {
    if console == [] then []
    else (if console[0].LocalLog? then [console[0]] else []) + LocalLogs(console[1..])
  }

  lemma {:induction false} LocalLogsAppend(a: seq<Diagnostic>, b: seq<Diagnostic>)
    ensures LocalLogs(a + b) == LocalLogs(a) + LocalLogs(b)
    decreases |a|
  {
    if a == [] {
      assert a + b == b;
    } else {
      var head := if a[0].LocalLog? then [a[0]] else [];
      assert (a + b)[0] == a[0];
      assert (a + b)[1..] == a[1..] + b;
      assert LocalLogs(a + b) == head + LocalLogs(a[1..] + b);
      LocalLogsAppend(a[1..], b);
      assert head + (LocalLogs(a[1..]) + LocalLogs(b)) == (head + LocalLogs(a[1..])) + LocalLogs(b);
    }
  }
}
