/**
 * The logger object: its configuration, the bounded FIFO channel between
 * producers and the worker, and what it has written to the console and sent
 * over the network so far. Interleavings of producers and the worker are
 * modelled as a sequence of `Log` and `ProcessOne` calls.
 */
module Logging {
  import opened Wrappers
  import opened Messages
  import opened Wire
  import opened Worker

  class SeqLogger {
    const seqUrl: string
    const apiKey: string
    /** The channel's buffer size. */
    const capacity: nat
    /** Messages sent on the channel and not yet taken by the worker, oldest first. */
    var queue: seq<LogMessage>
    /** Lines written to the local console. */
    ghost var console: seq<Diagnostic>
    /** Requests handed to the HTTP transport. */
    ghost var attempts: seq<Request>
    /** Requests the server answered with 200. */
    ghost var delivered: seq<Request>

    /**
     * The channel stays within its buffer size, holds only valid messages,
     * and everything offered to the network carries a valid message.
     */
    ghost predicate Valid()
      reads this
    {
      && |queue| <= capacity
      && (forall i :: 0 <= i < |queue| ==> IsValid(queue[i]))
      && (forall i :: 0 <= i < |attempts| ==> CarriesValidMessage(attempts[i]))
    }

    ghost predicate CarriesValidMessage(r: Request) {
      ReadPayload(r.body).Some? && IsValid(ReadPayload(r.body).value)
    }

    ghost function Observed(): Trace
      reads this
    {
      Trace(console, attempts, delivered)
    }

    /** `NewSEQLogger`: an empty channel of the given buffer size, nothing logged or sent yet. */
    constructor (seqUrl: string, apiKey: string, bufferSize: int)
      requires bufferSize >= 0
      ensures Valid()
      ensures this.seqUrl == seqUrl && this.apiKey == apiKey && capacity == bufferSize
      ensures queue == [] && Observed() == Quiet
    {
      this.seqUrl, this.apiKey, capacity := seqUrl, apiKey, bufferSize;
      queue := [];
      console, attempts, delivered := [], [], [];
    }

    /**
     * `Log(level, message, fields)` at clock reading `now`. A message that
     * fails validation is reported on the console and dropped; a valid one
     * joins the tail of the channel. The send blocks while the channel is
     * full, so a valid message needs a free slot.
     */
    method Log(level: string, message: string, fields: Fields, now: string)
      requires Valid()
      requires IsValid(LogMessage(now, level, message, fields)) ==> |queue| < capacity
      modifies this
      ensures Valid()
      ensures var m := LogMessage(now, level, message, fields);
              if IsValid(m) then
                && queue == old(queue) + [m]
                && console == old(console)
              else
                && queue == old(queue)
                && console == old(console) + [ValidationFailed(MissingRequiredFields), LocalLine(m)]
      ensures attempts == old(attempts) && delivered == old(delivered)
    {
      var m := LogMessage(now, level, message, fields);
      var err := Validate(m);
      if err.Some? {
        console := console + [ValidationFailed(err.value), LocalLine(m)];
        return;
      }
      queue := queue + [m];
    }

    /**
     * One pass of the worker loop: takes the oldest message off the channel
     * and handles it with the given outcome of marshalling, request
     * construction and sending. The rest of the channel is left for the
     * next pass; the message is never put back.
     */
    method ProcessOne(o: Outcome)
      requires Valid()
      requires queue != []
      modifies this
      ensures Valid()
      ensures queue == old(queue)[1..]
      ensures Observed() == old(Observed()).Then(Handle(seqUrl, apiKey, old(queue)[0], o))
    {
      var m := queue[0];
      queue := queue[1..];
      var req := BuildRequest(seqUrl, apiKey, m);
      match o {
        case MarshalFail(e) =>
          console := console + [MarshalFailed(e), LocalLine(m)];
        case RequestFail(e) =>
          console := console + [RequestFailed(e), LocalLine(m)];
        case TransportFail(e) =>
          attempts := attempts + [req];
          console := console + [SendFailed(e), LocalLine(m)];
        case Response(status, body) =>
          attempts := attempts + [req];
          if status != StatusOK {
            console := console + [Rejected(status, body), LocalLine(m)];
          } else {
            delivered := delivered + [req];
          }
      }
    }

    /**
     * The worker loop `for logMessage := range logChan`, run for as many
     * messages as there are outcomes: it handles the oldest messages in
     * order, one at a time, and the trace it adds is that of `Drain`.
     */
    method ProcessLogs(outcomes: seq<Outcome>)
      requires Valid()
      requires |outcomes| <= |queue|
      modifies this
      ensures Valid()
      ensures queue == old(queue)[|outcomes|..]
      ensures Observed()
           == old(Observed()).Then(Drain(seqUrl, apiKey, old(queue)[..|outcomes|], outcomes))
    {
      var i := 0;
      while i < |outcomes|
        invariant 0 <= i <= |outcomes|
        invariant Valid()
        invariant queue == old(queue)[i..]
        invariant Observed()
               == old(Observed()).Then(Drain(seqUrl, apiKey, old(queue)[..i], outcomes[..i]))
      {
        ProcessOne(outcomes[i]);
        DrainPrefixStep(seqUrl, apiKey, old(Observed()), old(queue)[..|outcomes|], outcomes, i);
        assert old(queue)[..|outcomes|][..i] == old(queue)[..i];
        assert old(queue)[..|outcomes|][..i + 1] == old(queue)[..i + 1];
        i := i + 1;
      }
      assert outcomes[..i] == outcomes;
    }
  }

  /**
   * An empty message template never reaches the channel: it is reported with
   * its "Local log" line and dropped, and nothing is sent.
   */
  method EmptyMessageScenario(now: string)
    returns (queued: seq<LogMessage>, ghost reported: seq<Diagnostic>, ghost sent: seq<Request>)
    ensures queued == []
    ensures reported == [ValidationFailed(MissingRequiredFields), LocalLog("Error", "")]
    ensures sent == []
  {
    var logger := new SeqLogger("http://localhost:5341/api/events/raw", "key", 1);
    logger.Log("Error", "", None, now);
    queued, reported, sent := logger.queue, logger.console, logger.attempts;
  }

  /**
   * Two messages sent in turn leave the channel in order; the first fails in
   * transport and is reported, the second is delivered.
   */
  method FifoScenario(now: string) returns (taken: seq<LogMessage>, left: seq<LogMessage>,
                                            ghost reported: seq<Diagnostic>, ghost delivered: seq<Request>)
    requires now != ""
    ensures taken == [LogMessage(now, "Information", "first", None),
                      LogMessage(now, "Information", "second", None)]
    ensures left == []
    ensures reported == [SendFailed("connection refused"), LocalLog("Information", "first")]
    ensures delivered == [BuildRequest("http://localhost:5341/api/events/raw", "",
                                       LogMessage(now, "Information", "second", None))]
  {
    var logger := new SeqLogger("http://localhost:5341/api/events/raw", "", 2);
    logger.Log("Information", "first", None, now);
    logger.Log("Information", "second", None, now);
    taken := [logger.queue[0]];
    logger.ProcessOne(TransportFail("connection refused"));
    assert logger.console == [SendFailed("connection refused"), LocalLine(taken[0])];
    taken := taken + [logger.queue[0]];
    logger.ProcessOne(Response(200, ""));
    left, reported, delivered := logger.queue, logger.console, logger.delivered;
  }
}
