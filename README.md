# SEQ logger: a Dafny model

This project models the core of a small Go client that forwards structured
log events to a SEQ server's raw-events HTTP endpoint (`main.go`). Producers
call `Log(level, message, fields)`. The logger stamps the message with the
current time and validates it. It drops an invalid message after writing a
local console line. It puts a valid message on a buffered channel. A single
worker goroutine takes messages off the channel one at a time. For each one
it builds an `"Events"` payload and the request headers, and it POSTs them.
Whatever fails (marshalling, request construction, transport, a non-200
response), the worker writes a "Local log: level - message" line and goes on
with the next message.

Layout, one module per component:

- `wrappers.dfy` (`Wrappers`): `Option`.
- `json.dfy` (`Json`): the values a message's fields can hold.
- `messages.dfy` (`Messages`): the `LogMessage` record, `validateLogMessage`,
  and the console lines (`Diagnostic`).
- `wire.dfy` (`Wire`): the payload built for a message and its reading back,
  the headers, and the request.
- `worker.dfy` (`Worker`): one pass of the worker loop (`Handle`) for a given
  `Outcome` of the foreign calls, and its fold over a run of messages
  (`Drain`), with the properties of a run.
- `logger.dfy` (`Logging`): the `SeqLogger` class. It holds the configuration
  and the channel as a bounded `seq`. Three ghost sequences record what was
  written to the console, handed to the transport, and accepted by the
  server. Its methods are `Log`, `ProcessOne` (one pass of the loop) and
  `ProcessLogs` (the loop).

Modelling choices:

- The channel is a FIFO `seq` bounded by `capacity`. Go blocks a send on a
  full channel, so `Log` requires a free slot, but only for a message that
  passes validation. An invalid message is never sent, so it never blocks.
  `ProcessOne` requires a non-empty channel, because `range` blocks on an
  empty one.
- The clock reading is the parameter `now` of `Log`.
- `json.Marshal`, `http.NewRequest` and `client.Do` are foreign code. What
  they did for a message is the parameter `Outcome`: `MarshalFail`,
  `RequestFail`, `TransportFail` or `Response(status, body)`.
- The payload is a JSON value tree, the way the source builds a
  `map[string]interface{}`. A nil `Fields` map is `None` and goes on the wire
  as `null`. An empty or populated map is `Some(map)` and goes on the wire as
  an object. `Wire.ReadPayload` is the receiving side's reading of a payload.
  It is the partner that shows the payload is lossless.
- Console output is a sequence of `Diagnostic` values. Each one carries the
  values its `log.Printf` line prints.

## Model

| member | source | states |
|---|---|---|
| `Messages.Validate` | main.go:41-46 | reports `MissingRequiredFields` exactly when at least one of timestamp, level and message template is empty; otherwise no error |
| `Messages.ValidateIgnoresFields` | main.go:41-46 | replacing the fields (nil, empty or populated) never changes the validation result |
| `Wire.PropertiesValue` | main.go:60 | `Properties` on the wire reads back as exactly the message's fields: `null` for a nil field map, the map itself otherwise |
| `Wire.PayloadHasOneEvent` | main.go:54-63 | `BuildPayload`: the payload is an object whose only key is `"Events"`, an array of exactly one event |
| `Wire.PayloadRoundTrip` | main.go:54-63 | `BuildPayload` and `EventValue`, the payload built for a message: reading it back gives exactly the message's timestamp, level, message template and fields |
| `Wire.ReadPayloadOnlyBuilt` | main.go:54-63 | a payload reads back as message `m` if and only if it is the payload built for `m` |
| `Wire.Headers` | main.go:78-82 | `Content-Type: application/json` is always present; the API-key header is present exactly when the key is non-empty and then holds the key; no other header is set |
| `Wire.BuildRequest` | main.go:72-82 | the request is a POST to the configured URL; its body reads back as exactly the message; it is marked `application/json` and carries the API key exactly when the key is non-empty, and no other header |
| `Wire.ApplicationStartedPayload` | main.go:125-127 | the payload for `Log("Information", "Application started", {"version": "1.0.0"})` is the expected `"Events"` object |
| `Worker.HandleOutcome` | main.go:65-97 | `Handle`, one pass of the loop: a 200 response delivers the message's request and writes nothing; a marshal, request-construction or transport failure writes that failure with its reason, and a non-200 response writes its status and body; each is followed by the "Local log" line naming the message by level and message template; the request reaches the transport exactly on a transport failure or a response |
| `Worker.HandleLocalLogs` | main.go:66-97 | one message's handling writes one "Local log" line when it is not delivered and none when it is |
| `Worker.DrainAppend` | main.go:52-98 | `Drain`, the loop over a run of messages: running it over two batches in turn leaves the same trace as running it over their concatenation |
| `Worker.DrainSnoc` | main.go:52-98 | handling one more message extends the trace by exactly that message's handling |
| `Worker.DrainSplit` | main.go:52-98 | a run's trace is the trace of the messages before position `i`, then message `i`'s handling, then the trace of the messages after it |
| `Worker.FailureIsolation` | main.go:66-89 | `Drain`: whatever the outcome of message `i`, the messages before and after it are handled exactly as otherwise; nothing is retried or re-queued |
| `Worker.DeliveredInOrder` | main.go:52-98 | the requests the server accepted are those of exactly the messages that got status 200, each once, in channel order |
| `Worker.LostReportedInOrder` | main.go:66-97 | the "Local log" lines name exactly the messages that were not delivered, each once, in channel order |
| `Worker.AllDelivered` | main.go:84-97 | if every response is 200, every message's request is delivered in channel order and the console stays empty |
| `Logging.SeqLogger.constructor` | main.go:28-38 | a new logger has the given URL, key and buffer size, an empty channel and no output |
| `Logging.SeqLogger.Log` | main.go:102-117 | an invalid message leaves the channel unchanged and writes the validation failure and its "Local log" line; a valid one, stamped with the clock reading and with the caller's level, message and fields, is appended at the tail; the channel stays within its buffer size and never holds an invalid message |
| `Logging.SeqLogger.ProcessOne` | main.go:52-98 | removes exactly the head of the channel, leaves the rest for the next pass, and adds exactly that message's handling to the trace; everything offered to the network carries a valid message |
| `Logging.EmptyMessageScenario` | main.go:102-114 | `Log("Error", "", …)` leaves the channel empty, writes the validation failure and the "Local log" line for level "Error", and hands no request to the transport |
| `Logging.FifoScenario` | main.go:52-98 | two messages logged in turn are taken off the channel in that order; the first fails in transport and is reported with its failure line and its "Local log" line; only the second is delivered |
| `Logging.SeqLogger.ProcessLogs` | main.go:49-99 | handles the oldest messages one at a time in channel order; the trace it adds is `Drain` of those messages |

## Left out

- HTTP transport (`http.Client`, `client.Do`, reading the response body): this is network I/O. It is modelled only as the `Outcome` parameter.
- `encoding/json` marshalling is a foreign library. The payload is a JSON value tree, and a marshal failure is an `Outcome`. The model's values (no floats, channels or functions) could always be marshalled, so in the model `MarshalFail` stands in for the foreign call's failure. The struct's `json:"@timestamp"`-style tags are never used on the wire, because the payload is rebuilt as a map.
- Floating-point field values are not modelled.
- Aliasing of the fields map: `Log` stores the caller's map by reference (main.go:107), and the worker puts that same map into the payload and marshals it later (main.go:60, main.go:65). A caller that changes the map after `Log` returns changes what is sent, and doing so while the worker reads it is a concurrent map access that can crash the process. The model captures the fields by value when `Log` is called, so "the payload mirrors the queued message" holds in the source only if callers leave the map alone.
- Byte-level encoding: Go strings are bytes, and `json.Marshal` replaces invalid UTF-8 with U+FFFD. `Wire.PayloadRoundTrip` and `Wire.ReadPayloadOnlyBuilt` are about the value tree before encoding, so they promise a lossless wire payload only for strings that are valid UTF-8.
- Goroutines and channel concurrency: interleavings are modelled as sequences of `Log` and `ProcessOne` calls. Blocking is modelled as a precondition.
- Logging.SeqLogger.Log: with `bufferSize` 0 the Go channel is unbuffered, and a send completes by hand-off to the waiting worker. The model has no hand-off, so a valid message needs a buffer size of at least 1.
- Logging.SeqLogger.constructor: a negative buffer size makes Go's `make` panic. The model requires a buffer size of at least 0.
- The clock (`time.Now().UTC().Format(time.RFC3339)`) is read outside the model. The timestamp is the parameter `now`. In the source it is never empty; in the model it may be, and then validation fails.
- `defer resp.Body.Close()` inside the loop is a resource-lifetime issue. It has no behaviour the model can state.
- `main` is demo wiring with hardcoded configuration and a `time.Sleep`. Only its first call appears, as the payload scenario `Wire.ApplicationStartedPayload`.
- Console text: each `log.Printf` line is a `Diagnostic` value that carries what the line prints, not its formatted text. For a rejected response, the model records the numeric status, where the source prints `resp.Status` (for example "500 Internal Server Error").
- Header names are kept as written in the source. Go's `Header.Set` canonicalises `X-Seq-ApiKey` to `X-Seq-Apikey`, and that is not modelled. HTTP header names are case-insensitive.
- The worker loop never ends in the source. `ProcessLogs` runs it for as many messages as it is given outcomes.
