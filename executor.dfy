/** The instrumented executor `do`: one round trip through the transport,
    bracketed by two clock readings, followed by draining the request and the
    response bodies to count bytes. */
module Executor {
  import opened Results
  import opened Requests

  /** The statistics record filled in by `do`. */
  datatype ConnStats = ConnStats(latency: int, bytesSent: int, bytesReceived: int, respStatus: int)

  /** A read-once body stream: its contents, a read position that only moves
      forward, and the error reading fails with, if it does. */
  class Reader {
    const data: string
    const fault: Option<Error>
    var pos: nat

    ghost predicate Valid()
      reads this
    {
      pos <= |data|
    }

    /** The bytes not read yet. */
    function Remaining(): string
      reads this
      requires Valid()
    {
      data[pos..]
    }

    /** `strings.NewReader(data)` when `fault` is None. */
    constructor (data: string, fault: Option<Error>)
      ensures Valid() && this.data == data && this.fault == fault && pos == 0
    {
      this.data := data;
      this.fault := fault;
      pos := 0;
    }

    /** Reads and discards up to `n` bytes, as a sender does. */
    method Consume(n: nat)
      requires Valid()
      modifies this
      ensures Valid()
      ensures pos == if old(pos) + n <= |data| then old(pos) + n else |data|
      ensures Remaining() == old(Remaining())[|old(Remaining())| - |Remaining()|..]
    {
      pos := if pos + n <= |data| then pos + n else |data|;
    }

    /** `io.ReadAll`: drains the stream; yields what was still unread, or the
        stream's error. */
    method ReadAll() returns (r: Result<string>)
      requires Valid()
      modifies this
      ensures Valid() && pos == |data| && Remaining() == []
      ensures fault.Some? ==> r == Err(fault.value)
      ensures fault.None? ==> r == Ok(old(Remaining()))
    {
      var rest := data[pos..];
      pos := |data|;
      if fault.Some? {
        r := Err(fault.value);
      } else {
        r := Ok(rest);
      }
    }
  }

  /** A response body as the cluster sends it, and whether reading it fails. */
  datatype Payload = Payload(content: string, fault: Option<Error>)

  /** What the cluster does with a request: the call fails, or it answers with
      a status code (any code, 2xx or not) and perhaps a body. */
  datatype Outcome =
    | NetworkError(err: Error)
    | Answered(status: int, payload: Option<Payload>)

  /** A response: its status code and its body stream (null: no body). */
  datatype Response = Response(status: int, body: Reader?)

  /** The non-decreasing clock `time.Now().UnixNano()`: before each reading it
      advances by an arbitrary non-negative amount `tick(k)`. */
  class Clock {
    const tick: nat -> nat
    var now: int
    var readCount: nat
    ghost var readings: seq<int>

    ghost predicate Valid()
      reads this
    {
      && (forall i, j :: 0 <= i < j < |readings| ==> readings[i] <= readings[j])
      && (forall i :: 0 <= i < |readings| ==> readings[i] <= now)
    }

    constructor (tick: nat -> nat, start: int)
      ensures Valid() && this.tick == tick && now == start && readCount == 0 && readings == []
    {
      this.tick := tick;
      now := start;
      readCount := 0;
      readings := [];
    }

    /** The time between the last two readings, 0 before there are two. */
    ghost function Elapsed(): int
      reads this
    {
      if |readings| < 2 then 0 else readings[|readings| - 1] - readings[|readings| - 2]
    }

    method Now() returns (t: int)
      requires Valid()
      modifies this
      ensures Valid()
      ensures t >= old(now) && readings == old(readings) + [t]
    {
      t := now + tick(readCount);
      now, readCount := t, readCount + 1;
      readings := readings + [t];
    }
  }

  lemma ElapsedNonNegative(clock: Clock)
    requires clock.Valid()
    ensures clock.Elapsed() >= 0
  {
  }

  /** The client handle as `do` sees it: one round-trip capability whose
      behaviour is fixed by three parameters, and a log of the requests it was
      given. The handle itself never changes. */
  class Client {
    /** How the cluster answers. */
    const outcome: Outcome
    /** How many request-body bytes the round trip reads while sending. */
    const uploads: nat
    /** The error `req.GetRequest()` fails with when `do` asks for the request again. */
    const rebuildFault: Option<Error>
    /** Every request handed to `client.Do`, oldest first. */
    ghost var requests: seq<Descriptor>
    /** For each of those requests, how many readings the clock had produced
        when it was handed over. */
    ghost var sentAfter: seq<nat>

    constructor (outcome: Outcome, uploads: nat, rebuildFault: Option<Error>)
      ensures this.outcome == outcome && this.uploads == uploads && this.rebuildFault == rebuildFault
      ensures requests == [] && sentAfter == []
    {
      this.outcome := outcome;
      this.uploads := uploads;
      this.rebuildFault := rebuildFault;
      requests := [];
      sentAfter := [];
    }

    /** `client.Do(ctx, req, nil)`: sends the request, reading up to `uploads`
        bytes of its body, and returns the cluster's answer. The `clock` is only
        consulted, to log when the request went out. */
    method Perform(req: Descriptor, body: Reader?, ghost clock: Clock) returns (r: Result<Response>)
      requires body != null ==> body.Valid()
      modifies this, body
      ensures requests == old(requests) + [req]
      ensures sentAfter == old(sentAfter) + [|clock.readings|]
      ensures body != null ==> body.Valid() && body.pos == if old(body.pos) + uploads <= |body.data| then old(body.pos) + uploads else |body.data|
      ensures outcome.NetworkError? ==> r == Err(outcome.err)
      ensures outcome.Answered? ==> r.Ok? && r.value.status == outcome.status
      ensures outcome.Answered? && outcome.payload.None? ==> r.value.body == null
      ensures outcome.Answered? && outcome.payload.Some? ==>
                var b := r.value.body;
                b != null && fresh(b) && b.Valid() && b.pos == 0
                && b.data == outcome.payload.value.content && b.fault == outcome.payload.value.fault
    {
      requests := requests + [req];
      sentAfter := sentAfter + [|clock.readings|];
      if body != null {
        body.Consume(uploads);
      }
      match outcome
      case NetworkError(e) =>
        r := Err(e);
      case Answered(status, payload) =>
        var b: Reader? := null;
        if payload.Some? {
          b := new Reader(payload.value.content, payload.value.fault);
        }
        r := Ok(Response(status, b));
    }
  }

  /** How many bytes of the request body are still unread after the round trip
      read `uploads` of the `remaining` ones. */
  function Unsent(remaining: nat, uploads: nat): (n: nat)
    ensures n <= remaining
    ensures n == 0 <==> uploads >= remaining
    ensures n > 0 ==> n + uploads == remaining
  {
    if uploads >= remaining then 0 else remaining - uploads
  }

  /** What `do` returns, given the cluster's answer, the request builder's
      failure, the request body stream's failure, the byte count it took for
      bytes sent and the measured latency. */
  function Reported(outcome: Outcome, rebuildFault: Option<Error>, bodyFault: Option<Error>,
                    sent: int, latency: int): (r: Result<ConnStats>)
    ensures r.Ok? <==> && outcome.Answered? && rebuildFault.None? && bodyFault.None?
                       && (outcome.payload.Some? ==> outcome.payload.value.fault.None?)
    ensures outcome.NetworkError? ==> r == Err(outcome.err)
    ensures outcome.Answered? && rebuildFault.Some? ==> r == Err(rebuildFault.value)
    ensures outcome.Answered? && rebuildFault.None? && bodyFault.Some? ==> r == Err(bodyFault.value)
    ensures (outcome.Answered? && rebuildFault.None? && bodyFault.None? && outcome.payload.Some?
             && outcome.payload.value.fault.Some?) ==> r == Err(outcome.payload.value.fault.value)
    ensures r.Ok? ==> r.value.latency == latency && r.value.bytesSent == sent
                      && r.value.respStatus == outcome.status
                      && r.value.bytesReceived == if outcome.payload.None? then 0 else |outcome.payload.value.content|
  {
    match outcome
    case NetworkError(e) => Err(e)
    case Answered(status, payload) =>
      if rebuildFault.Some? then Err(rebuildFault.value)
      else if bodyFault.Some? then Err(bodyFault.value)
      else match payload
        case None => Ok(ConnStats(latency, sent, 0, status))
        case Some(p) =>
          if p.fault.Some? then Err(p.fault.value)
          else Ok(ConnStats(latency, sent, |p.content|, status))
  }

  /** `do`: times the round trip, then re-reads the request's body stream (the
      one the transport already read from) for bytes sent and drains the
      response body for bytes received. Any failure returns the error and no
      record. */
  method Do(client: Client, clock: Clock, req: Descriptor, body: Reader?) returns (r: Result<ConnStats>)
    requires clock.Valid()
    requires body != null ==> body.Valid()
    modifies client, clock, body
    ensures clock.Valid()
    ensures body != null ==> body.Valid()
    ensures body != null && client.outcome.Answered? && client.rebuildFault.None? ==> body.pos == |body.data|
    ensures body != null && !(client.outcome.Answered? && client.rebuildFault.None?) ==>
              body.pos == if old(body.pos) + client.uploads <= |body.data| then old(body.pos) + client.uploads else |body.data|
    ensures client.requests == old(client.requests) + [req]
    ensures client.sentAfter == old(client.sentAfter) + [|old(clock.readings)| + 1]
    ensures |clock.readings| == |old(clock.readings)| + if client.outcome.NetworkError? then 1 else 2
    ensures clock.readings[..|old(clock.readings)|] == old(clock.readings)
    ensures r == Reported(client.outcome, client.rebuildFault,
                          if body == null then None else body.fault,
                          if body == null then 0 else Unsent(|old(body.Remaining())|, client.uploads),
                          clock.Elapsed())
    ensures r.Ok? ==> r.value.latency >= 0
  {
    ghost var unsent := if body == null then 0 else Unsent(|body.Remaining()|, client.uploads);
    var start := clock.Now();
    var resp := client.Perform(req, body, clock);
    if resp.Err? {
      return Err(resp.error);
    }
    var end := clock.Now();
    var latency := end - start;
    assert latency == clock.Elapsed() && latency >= 0;
    var sent, received := 0, 0;
    if client.rebuildFault.Some? {
      return Err(client.rebuildFault.value);
    }
    if body != null {
      assert |body.Remaining()| == unsent;
      var snd := body.ReadAll();
      if snd.Err? {
        return Err(snd.error);
      }
      sent := |snd.value|;
    }
    var rb := resp.value.body;
    if rb != null {
      var rcv := rb.ReadAll();
      if rcv.Err? {
        return Err(rcv.error);
      }
      received := |rcv.value|;
    }
    r := Ok(ConnStats(latency, sent, received, resp.value.status));
  }
}
