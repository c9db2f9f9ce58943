/** The two entry points the load-testing script calls, `Index` and `Document`:
    resolve the operation, run it through `do`, and for document creation
    correct the bytes-sent count afterwards. */
module OpenSearch {
  import opened Results
  import opened RandomStrings
  import opened Requests
  import opened Executor

  /** Bytes sent as `do` counts them for `req`: what is left of its body once
      the transport has read `uploads` bytes of it, 0 with no body. */
  function UnreadBody(req: Descriptor, uploads: nat): (n: nat)
    ensures n == 0 <==> req.Body().None? || uploads >= |req.Body().value|
    ensures req.Body().Some? ==> n <= |req.Body().value|
    ensures n > 0 ==> n + uploads == |req.Body().value|
  {
    match req.Body()
    case None => 0
    case Some(b) => Unsent(|b|, uploads)
  }

  /** `Index(client, op, indexName, number_of_shards, number_of_replicas)`. */
  method Index(client: Client, clock: Clock, op: int, indexName: string,
               numberOfShards: int, numberOfReplicas: int) returns (r: Result<ConnStats>)
    requires clock.Valid()
    modifies client, clock
    ensures clock.Valid()
    ensures ResolveIndex(op, indexName, numberOfShards, numberOfReplicas).Err? ==>
              && r == Err(InvalidOperation)
              && client.requests == old(client.requests)
              && client.sentAfter == old(client.sentAfter)
              && clock.readings == old(clock.readings)
    ensures ResolveIndex(op, indexName, numberOfShards, numberOfReplicas).Ok? ==>
              var req := ResolveIndex(op, indexName, numberOfShards, numberOfReplicas).value;
              && client.requests == old(client.requests) + [req]
              && client.sentAfter == old(client.sentAfter) + [|old(clock.readings)| + 1]
              && |clock.readings| == |old(clock.readings)| + (if client.outcome.NetworkError? then 1 else 2)
              && clock.readings[..|old(clock.readings)|] == old(clock.readings)
              && r == Reported(client.outcome, client.rebuildFault, None,
                               UnreadBody(req, client.uploads), clock.Elapsed())
    ensures r.Ok? ==> r.value.latency >= 0
  {
    var resolved := ResolveIndex(op, indexName, numberOfShards, numberOfReplicas);
    if resolved.Err? {
      return Err(resolved.error);
    }
    var req := resolved.value;
    var body: Reader? := null;
    if req.IndicesCreate? {
      body := new Reader(req.body, None);
    }
    r := Do(client, clock, req, body);
  }

  /** The `switch op` of `Document`, with its calls to the random generator:
      first for missing data, then for a missing id, and only for Create. */
  method BuildDocumentRequest(rng: Rng, op: int, indexName: string, docId: string,
                              data: seq<string>) returns (resolved: Result<Resolved>)
    modifies rng
    ensures resolved == ResolveDocument(op, indexName, docId, data, rng.draw, old(rng.count))
    ensures rng.count == if resolved.Ok? then resolved.value.cursor else old(rng.count)
  {
    var body := "";
    if op == OpCreate {
      if |data| > 0 {
        body := data[0];
      } else {
        body := GenerateRandomString(rng, 100);
      }
      var id: string;
      if |docId| > 0 {
        id := docId;
      } else {
        var suffix := GenerateRandomString(rng, 6);
        id := IdPrefix + suffix;
      }
      resolved := Ok(Resolved(DocumentCreate(indexName, id, DataPayload(body)), body, rng.count));
    } else if op == OpDelete {
      resolved := Ok(Resolved(DocumentDelete(indexName, docId), body, rng.count));
    } else {
      resolved := Err(InvalidOperation);
    }
  }

  /** `Document(client, op, indexName, docId, data...)`. */
  method Document(client: Client, clock: Clock, rng: Rng, op: int, indexName: string,
                  docId: string, data: seq<string>) returns (r: Result<ConnStats>)
    requires clock.Valid()
    modifies client, clock, rng
    ensures clock.Valid()
    ensures ResolveDocument(op, indexName, docId, data, rng.draw, old(rng.count)).Err? ==>
              && r == Err(InvalidOperation)
              && rng.count == old(rng.count)
              && client.requests == old(client.requests)
              && client.sentAfter == old(client.sentAfter)
              && clock.readings == old(clock.readings)
    ensures ResolveDocument(op, indexName, docId, data, rng.draw, old(rng.count)).Ok? ==>
              var resolved := ResolveDocument(op, indexName, docId, data, rng.draw, old(rng.count)).value;
              && rng.count == resolved.cursor
              && client.requests == old(client.requests) + [resolved.request]
              && client.sentAfter == old(client.sentAfter) + [|old(clock.readings)| + 1]
              && |clock.readings| == |old(clock.readings)| + (if client.outcome.NetworkError? then 1 else 2)
              && clock.readings[..|old(clock.readings)|] == old(clock.readings)
              && r == Reported(client.outcome, client.rebuildFault, None,
                               if op == OpCreate then |resolved.data| else 0, clock.Elapsed())
    ensures r.Ok? ==> r.value.latency >= 0
  {
    var resolved := BuildDocumentRequest(rng, op, indexName, docId, data);
    if resolved.Err? {
      return Err(resolved.error);
    }
    var req, body := resolved.value.request, resolved.value.data;
    var stream: Reader? := null;
    if req.DocumentCreate? {
      stream := new Reader(req.body, None);
    }
    r := Do(client, clock, req, stream);
    if r.Ok? && op == OpCreate {
      // `do` counted what its own re-read found left of the stream; count the data instead.
      r := Ok(r.value.(bytesSent := |body|));
    }
  }

  /** Index creation reports as bytes sent only what the transport left unread
      of the settings body: nothing at all once it has read the whole body. */
  lemma IndexCreateSentIsUnread(outcome: Outcome, rebuildFault: Option<Error>, uploads: nat,
                                indexName: string, shards: int, replicas: int, latency: int)
    ensures var req := ResolveIndex(OpCreate, indexName, shards, replicas).value;
            var r := Reported(outcome, rebuildFault, None, UnreadBody(req, uploads), latency);
            && (r.Ok? && uploads >= |IndexSettings(shards, replicas)| ==> r.value.bytesSent == 0)
            && (r.Ok? && uploads < |IndexSettings(shards, replicas)| ==>
                  r.value.bytesSent == |IndexSettings(shards, replicas)| - uploads)
  {
  }

  /** Document creation reports the length of the raw data as bytes sent,
      which is 22 less than the length of the body actually sent. */
  lemma DocumentCreateSentIsDataLength(outcome: Outcome, rebuildFault: Option<Error>,
                                       indexName: string, docId: string, data: seq<string>,
                                       draw: nat -> nat, start: nat, latency: int)
    ensures var resolved := ResolveDocument(OpCreate, indexName, docId, data, draw, start).value;
            var r := Reported(outcome, rebuildFault, None, |resolved.data|, latency);
            r.Ok? ==> && r.value.bytesSent == |resolved.data|
                      && r.value.bytesSent == |resolved.request.body| - 22
                      && (|data| > 0 ==> r.value.bytesSent == |data[0]|)
                      && (|data| == 0 ==> r.value.bytesSent == 100)
  {
  }
}
