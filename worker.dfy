/**
 * One iteration of the worker loop and its fold over a run of messages.
 * The marshalling, request construction and transport are foreign code, so
 * what they did for a message is given as an `Outcome`.
 */
module Worker {
  import opened Wrappers
  import opened Messages
  import opened Wire

  const StatusOK := 200

  /** How far a message got: which foreign call failed, or the server's response. */
  datatype Outcome =
    | MarshalFail(reason: string)
    | RequestFail(reason: string)
    | TransportFail(reason: string)
    | Response(status: int, body: string)

  /** The message reached the server and the server answered 200. */
  predicate Delivered(o: Outcome) {
    o.Response? && o.status == StatusOK
  }

  /** The request was built and handed to the transport. */
  predicate Attempted(o: Outcome) {
    o.TransportFail? || o.Response?
  }

  /**
   * What the outside world observes: console lines, requests handed to the
   * transport, and requests the server accepted.
   */
  datatype Trace = Trace(console: seq<Diagnostic>, attempts: seq<Request>, delivered: seq<Request>)
  {
    function Then(next: Trace): Trace {
      Trace(console + next.console, attempts + next.attempts, delivered + next.delivered)
    }
  }

  const Quiet := Trace([], [], [])

  lemma ThenAssociative(x: Trace, y: Trace, z: Trace)
    ensures x.Then(y.Then(z)) == x.Then(y).Then(z)
  {
    assert x.console + (y.console + z.console) == (x.console + y.console) + z.console;
    assert x.attempts + (y.attempts + z.attempts) == (x.attempts + y.attempts) + z.attempts;
    assert x.delivered + (y.delivered + z.delivered) == (x.delivered + y.delivered) + z.delivered;
  }

  /** The loop body for message `m`, given what marshalling, request construction and sending did. */
  function Handle(url: string, apiKey: string, m: LogMessage, o: Outcome): Trace {
    var req := BuildRequest(url, apiKey, m);
    match o
    case MarshalFail(e) => Trace([MarshalFailed(e), LocalLine(m)], [], [])
    case RequestFail(e) => Trace([RequestFailed(e), LocalLine(m)], [], [])
    case TransportFail(e) => Trace([SendFailed(e), LocalLine(m)], [req], [])
    case Response(status, body) =>
      if status == StatusOK then Trace([], [req], [req])
      else Trace([Rejected(status, body), LocalLine(m)], [req], [])
  }

  /**
   * A delivered message writes nothing to the console; every other outcome
   * writes its failure line and then the message's "Local log" line. A
   * request reaches the transport exactly when marshalling and request
   * construction succeed, and it is the POST built for `m`; it counts as
   * delivered exactly when the server answered 200.
   */
  lemma HandleOutcome(url: string, apiKey: string, m: LogMessage, o: Outcome)
    ensures var t := Handle(url, apiKey, m, o);
            && t.delivered == (if Delivered(o) then [BuildRequest(url, apiKey, m)] else [])
            && t.attempts == (if Attempted(o) then [BuildRequest(url, apiKey, m)] else [])
            && (Delivered(o) ==> t.console == [])
            && (!Delivered(o) ==> |t.console| == 2 && !t.console[0].LocalLog? && t.console[1] == LocalLine(m))
            && (o.MarshalFail? ==> t.console[0] == MarshalFailed(o.reason))
            && (o.RequestFail? ==> t.console[0] == RequestFailed(o.reason))
            && (o.TransportFail? ==> t.console[0] == SendFailed(o.reason))
            && (o.Response? && !Delivered(o) ==> t.console[0] == Rejected(o.status, o.body))
  {
  }

  /** The worker's loop over messages `q`, in order, with `os[i]` the outcome for `q[i]`. */
  function Drain(url: string, apiKey: string, q: seq<LogMessage>, os: seq<Outcome>): Trace
    requires |os| == |q|
    decreases |q|
  {
    if q == [] then Quiet
    else Handle(url, apiKey, q[0], os[0]).Then(Drain(url, apiKey, q[1..], os[1..]))
  }

  /** Draining a run whose first batch is non-empty starts with that batch's first message. */
  lemma DrainAppendHead(url: string, apiKey: string,
                        q1: seq<LogMessage>, os1: seq<Outcome>,
                        q2: seq<LogMessage>, os2: seq<Outcome>)
    requires |os1| == |q1| && |os2| == |q2| && q1 != []
    ensures Drain(url, apiKey, q1 + q2, os1 + os2)
         == Handle(url, apiKey, q1[0], os1[0]).Then(Drain(url, apiKey, q1[1..] + q2, os1[1..] + os2))
  {
    assert (q1 + q2)[0] == q1[0] && (os1 + os2)[0] == os1[0];
    assert (q1 + q2)[1..] == q1[1..] + q2;
    assert (os1 + os2)[1..] == os1[1..] + os2;
  }

  /** Draining two runs one after the other is draining their concatenation. */
  lemma {:induction false} DrainAppend(url: string, apiKey: string,
                                       q1: seq<LogMessage>, os1: seq<Outcome>,
                                       q2: seq<LogMessage>, os2: seq<Outcome>)
    requires |os1| == |q1| && |os2| == |q2|
    ensures Drain(url, apiKey, q1 + q2, os1 + os2)
         == Drain(url, apiKey, q1, os1).Then(Drain(url, apiKey, q2, os2))
    decreases |q1|
  {
    if q1 == [] {
      assert q1 + q2 == q2 && os1 + os2 == os2;
    } else {
      DrainAppendHead(url, apiKey, q1, os1, q2, os2);
      DrainAppend(url, apiKey, q1[1..], os1[1..], q2, os2);
      ThenAssociative(Handle(url, apiKey, q1[0], os1[0]), Drain(url, apiKey, q1[1..], os1[1..]),
                      Drain(url, apiKey, q2, os2));
    }
  }

  /** Handling one more message extends the run's trace by that message's handling. */
  lemma DrainSnoc(url: string, apiKey: string, q: seq<LogMessage>, os: seq<Outcome>,
                  m: LogMessage, o: Outcome)
    requires |os| == |q|
    ensures Drain(url, apiKey, q + [m], os + [o])
         == Drain(url, apiKey, q, os).Then(Handle(url, apiKey, m, o))
  {
    DrainAppend(url, apiKey, q, os, [m], [o]);
    assert Drain(url, apiKey, [m], [o]) == Handle(url, apiKey, m, o).Then(Quiet);
  }

  /** Extending a recorded history by one more pass of the loop over a run `q`, `os`. */
  lemma DrainPrefixStep(url: string, apiKey: string, history: Trace,
                        q: seq<LogMessage>, os: seq<Outcome>, i: nat)
    requires |os| == |q| && i < |q|
    ensures history.Then(Drain(url, apiKey, q[..i + 1], os[..i + 1]))
         == history.Then(Drain(url, apiKey, q[..i], os[..i])).Then(Handle(url, apiKey, q[i], os[i]))
  {
    assert q[..i + 1] == q[..i] + [q[i]];
    assert os[..i + 1] == os[..i] + [os[i]];
    DrainSnoc(url, apiKey, q[..i], os[..i], q[i], os[i]);
    ThenAssociative(history, Drain(url, apiKey, q[..i], os[..i]), Handle(url, apiKey, q[i], os[i]));
  }

  /** A run splits around position `i` into the run before it, `q[i]`'s handling, and the run after it. */
  lemma DrainSplit(url: string, apiKey: string, q: seq<LogMessage>, os: seq<Outcome>, i: nat)
    requires |os| == |q| && i < |q|
    ensures Drain(url, apiKey, q, os)
         == Drain(url, apiKey, q[..i], os[..i]).Then(Handle(url, apiKey, q[i], os[i]))
              .Then(Drain(url, apiKey, q[i + 1..], os[i + 1..]))
  {
    var before := Drain(url, apiKey, q[..i], os[..i]);
    var h := Handle(url, apiKey, q[i], os[i]);
    var after := Drain(url, apiKey, q[i + 1..], os[i + 1..]);
    assert q == q[..i] + q[i..] && os == os[..i] + os[i..];
    DrainAppend(url, apiKey, q[..i], os[..i], q[i..], os[i..]);
    assert q[i..][1..] == q[i + 1..] && os[i..][1..] == os[i + 1..];
    assert Drain(url, apiKey, q[i..], os[i..]) == h.Then(after);
    ThenAssociative(before, h, after);
  }

  /**
   * Failure isolation: whatever happens to `q[i]`, the messages before and
   * after it are handled exactly as they would be otherwise.
   */
  lemma FailureIsolation(url: string, apiKey: string, q: seq<LogMessage>, os: seq<Outcome>,
                         i: nat, other: Outcome)
    requires |os| == |q| && i < |q|
    ensures var before := Drain(url, apiKey, q[..i], os[..i]);
            var after := Drain(url, apiKey, q[i + 1..], os[i + 1..]);
            && Drain(url, apiKey, q, os)
               == before.Then(Handle(url, apiKey, q[i], os[i])).Then(after)
            && Drain(url, apiKey, q, os[i := other])
               == before.Then(Handle(url, apiKey, q[i], other)).Then(after)
  {
    var os' := os[i := other];
    DrainSplit(url, apiKey, q, os, i);
    DrainSplit(url, apiKey, q, os', i);
    assert os'[..i] == os[..i] && os'[i + 1..] == os[i + 1..] && os'[i] == other;
  }

  ghost predicate Ascending(idx: seq<nat>) {
    forall j, k :: 0 <= j < k < |idx| ==> idx[j] < idx[k]
  }

  /**
   * `idx` lists, in increasing order, exactly the positions `i` of `os` whose
   * outcome is a delivery when `delivered`, and a failure otherwise.
   */
  ghost predicate Selects(idx: seq<nat>, os: seq<Outcome>, delivered: bool) {
    && Ascending(idx)
    && (forall k :: 0 <= k < |idx| ==> idx[k] < |os| && Delivered(os[idx[k]]) == delivered)
    && (forall i :: 0 <= i < |os| && Delivered(os[i]) == delivered ==> i in idx)
  }

  /** Moves an index list for `os[1..]` to positions in `os`, adding position 0 when `first`. */
  function Shift(idx: seq<nat>, first: bool): seq<nat> {
    (if first then [0] else []) + seq(|idx|, k requires 0 <= k < |idx| => idx[k] + 1)
  }

  lemma ShiftElements(idx: seq<nat>, first: bool)
    ensures var r := Shift(idx, first);
            && |r| == |idx| + (if first then 1 else 0)
            && (first ==> r[0] == 0)
            && forall k :: |r| - |idx| <= k < |r| ==> r[k] == idx[k - (|r| - |idx|)] + 1
  {
  }

  lemma ShiftAscending(idx: seq<nat>, first: bool)
    requires Ascending(idx)
    ensures Ascending(Shift(idx, first))
  {
    ShiftElements(idx, first);
    var r := Shift(idx, first);
    var d := |r| - |idx|;
    forall j, k | 0 <= j < k < |r| ensures r[j] < r[k] {
      assert r[k] == idx[k - d] + 1;
      if j >= d {
        assert r[j] == idx[j - d] + 1;
        assert idx[j - d] < idx[k - d];
      }
    }
  }

  lemma ShiftPositions(idx: seq<nat>, os: seq<Outcome>, delivered: bool)
    requires os != [] && Selects(idx, os[1..], delivered)
    ensures var r := Shift(idx, Delivered(os[0]) == delivered);
            forall k :: 0 <= k < |r| ==> r[k] < |os| && Delivered(os[r[k]]) == delivered
  {
    ShiftElements(idx, Delivered(os[0]) == delivered);
    var r := Shift(idx, Delivered(os[0]) == delivered);
    var d := |r| - |idx|;
    forall k | d <= k < |r| ensures r[k] < |os| && Delivered(os[r[k]]) == delivered {
      assert r[k] == idx[k - d] + 1;
      assert os[1..][idx[k - d]] == os[r[k]];
    }
  }

  lemma ShiftMember(idx: seq<nat>, first: bool, j: nat)
    requires j in idx
    ensures j + 1 in Shift(idx, first)
  {
    ShiftElements(idx, first);
    var r := Shift(idx, first);
    var k :| 0 <= k < |idx| && idx[k] == j;
    assert r[k + |r| - |idx|] == j + 1;
  }

  lemma ShiftCovers(idx: seq<nat>, os: seq<Outcome>, delivered: bool)
    requires os != [] && Selects(idx, os[1..], delivered)
    ensures var r := Shift(idx, Delivered(os[0]) == delivered);
            forall i :: 0 <= i < |os| && Delivered(os[i]) == delivered ==> i in r
  {
    var first := Delivered(os[0]) == delivered;
    ShiftElements(idx, first);
    forall i | 0 < i < |os| && Delivered(os[i]) == delivered ensures i in Shift(idx, first) {
      assert os[1..][i - 1] == os[i];
      ShiftMember(idx, first, i - 1);
    }
  }

  lemma ShiftSelects(idx: seq<nat>, os: seq<Outcome>, delivered: bool)
    requires os != [] && Selects(idx, os[1..], delivered)
    ensures Selects(Shift(idx, Delivered(os[0]) == delivered), os, delivered)
  {
    ShiftAscending(idx, Delivered(os[0]) == delivered);
    ShiftPositions(idx, os, delivered);
    ShiftCovers(idx, os, delivered);
  }

  /** `r` lists the elements of `src` at the positions `idx`, in that order. */
  ghost predicate Picks<T>(r: seq<T>, src: seq<T>, idx: seq<nat>) {
    |r| == |idx| && forall k :: 0 <= k < |idx| ==> idx[k] < |src| && r[k] == src[idx[k]]
  }

  lemma ShiftPicks<T>(r: seq<T>, src: seq<T>, idx: seq<nat>, first: bool)
    requires src != [] && Picks(r, src[1..], idx)
    ensures Picks((if first then [src[0]] else []) + r, src, Shift(idx, first))
  {
    ShiftElements(idx, first);
    var r' := (if first then [src[0]] else []) + r;
    var idx' := Shift(idx, first);
    var d := |idx'| - |idx|;
    forall k | d <= k < |idx'| ensures idx'[k] < |src| && r'[k] == src[idx'[k]] {
      assert idx'[k] == idx[k - d] + 1;
      assert r'[k] == r[k - d];
      assert src[1..][idx[k - d]] == src[idx'[k]];
    }
  }

  /** The request the worker would send for each message of `q`, in order. */
  function Requests(url: string, apiKey: string, q: seq<LogMessage>): (rs: seq<Request>)
    ensures |rs| == |q|
  {
    seq(|q|, i requires 0 <= i < |q| => BuildRequest(url, apiKey, q[i]))
  }

  lemma RequestsCons(url: string, apiKey: string, q: seq<LogMessage>)
    requires q != []
    ensures Requests(url, apiKey, q) == [BuildRequest(url, apiKey, q[0])] + Requests(url, apiKey, q[1..])
  {
    var rs, rest := Requests(url, apiKey, q), Requests(url, apiKey, q[1..]);
    forall k | 0 <= k < |rest| ensures rs[k + 1] == rest[k] {
      assert q[1..][k] == q[k + 1];
    }
    assert rs == [rs[0]] + rest;
  }

  /** The "Local log" line that would report each message of `q`, in order. */
  function LocalLines(q: seq<LogMessage>): (ls: seq<Diagnostic>)
    ensures |ls| == |q|
  {
    seq(|q|, i requires 0 <= i < |q| => LocalLine(q[i]))
  }

  /**
   * FIFO delivery: the requests the server accepted are those of the
   * messages whose outcome was 200, each exactly once, in queue order.
   */
  lemma {:induction false} DeliveredInOrder(url: string, apiKey: string,
                                            q: seq<LogMessage>, os: seq<Outcome>)
    returns (idx: seq<nat>)
    requires |os| == |q|
    ensures Selects(idx, os, true)
    ensures Picks(Drain(url, apiKey, q, os).delivered, Requests(url, apiKey, q), idx)
    decreases |q|
  {
    if q == [] {
      idx := [];
    } else {
      var rest := DeliveredInOrder(url, apiKey, q[1..], os[1..]);
      ShiftSelects(rest, os, true);
      idx := Shift(rest, Delivered(os[0]));
      HandleOutcome(url, apiKey, q[0], os[0]);
      var src := Requests(url, apiKey, q);
      RequestsCons(url, apiKey, q);
      assert src[1..] == Requests(url, apiKey, q[1..]);
      ShiftPicks(Drain(url, apiKey, q[1..], os[1..]).delivered, src, rest, Delivered(os[0]));
    }
  }

  /** The "Local log" lines of one message's handling: one for a failure, none for a delivery. */
  lemma HandleLocalLogs(url: string, apiKey: string, m: LogMessage, o: Outcome)
    ensures LocalLogs(Handle(url, apiKey, m, o).console)
         == (if Delivered(o) then [] else [LocalLine(m)])
  {
    var c := Handle(url, apiKey, m, o).console;
    HandleOutcome(url, apiKey, m, o);
    if !Delivered(o) {
      assert c == [c[0]] + [LocalLine(m)];
      LocalLogsAppend([c[0]], [LocalLine(m)]);
    }
  }

  /**
   * Every lost message is reported: the console's "Local log" lines name,
   * in queue order and once each, exactly the messages not delivered.
   */
  lemma {:induction false} LostReportedInOrder(url: string, apiKey: string,
                                               q: seq<LogMessage>, os: seq<Outcome>)
    returns (idx: seq<nat>)
    requires |os| == |q|
    ensures Selects(idx, os, false)
    ensures Picks(LocalLogs(Drain(url, apiKey, q, os).console), LocalLines(q), idx)
    decreases |q|
  {
    if q == [] {
      idx := [];
    } else {
      var rest := LostReportedInOrder(url, apiKey, q[1..], os[1..]);
      ShiftSelects(rest, os, false);
      idx := Shift(rest, !Delivered(os[0]));
      var h := Handle(url, apiKey, q[0], os[0]);
      var tail := Drain(url, apiKey, q[1..], os[1..]);
      LocalLogsAppend(h.console, tail.console);
      HandleLocalLogs(url, apiKey, q[0], os[0]);
      var src := LocalLines(q);
      assert src[1..] == LocalLines(q[1..]);
      ShiftPicks(LocalLogs(tail.console), src, rest, !Delivered(os[0]));
    }
  }

  /** With every outcome 200, all messages are delivered in queue order and the console stays empty. */
  lemma {:induction false} AllDelivered(url: string, apiKey: string, q: seq<LogMessage>, os: seq<Outcome>)
    requires |os| == |q|
    requires forall i :: 0 <= i < |os| ==> Delivered(os[i])
    ensures var t := Drain(url, apiKey, q, os);
            && t.console == []
            && t.delivered == t.attempts
            && t.delivered == Requests(url, apiKey, q)
    decreases |q|
  {
    if q != [] {
      var h := Handle(url, apiKey, q[0], os[0]);
      var tail := Drain(url, apiKey, q[1..], os[1..]);
      AllDelivered(url, apiKey, q[1..], os[1..]);
      HandleOutcome(url, apiKey, q[0], os[0]);
      RequestsCons(url, apiKey, q);
      assert Drain(url, apiKey, q, os) == h.Then(tail);
      assert h.delivered == h.attempts == [BuildRequest(url, apiKey, q[0])] && h.console == [];
    }
  }
}
