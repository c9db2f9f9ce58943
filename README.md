# xk6-opensearch request dispatch and statistics, in Dafny

This project models the core of the k6 OpenSearch extension in `opensearch.go`.
The load-testing script calls two entry points:

- `Index` creates or drops an index.
- `Document` creates or deletes a document.

Each entry point resolves an integer operation code into an OpenSearch request.
It then runs that request through the instrumented executor `do`, which returns
a `ConnStats` record: latency, bytes sent, bytes received and the response
status. Document creation corrects the bytes-sent figure afterwards.

Modules, following the parts of the source:

- `Results`: `Option`, the `Error` values the core returns (its own
  "Invalid operation" and the opaque errors of its collaborators), and `Result`
  for Go's `(value, error)` pairs.
- `Strconv`: `strconv.Itoa` and a decimal parser that is its exact inverse: it
  accepts only the shortest renderings, so no other text reads back to a number.
- `RandomStrings`: the 62-character `runes` alphabet, `rand.Intn` over an
  abstract draw oracle, and `GenerateRandomString` as a loop filling a buffer.
  `RandomChars` is the function that specifies it.
- `Requests`: the operation codes (`Create`=0, `Delete`=1, `Search`=2,
  `Update`=3, `Index`=4, named `OpCreate` … `OpIndex` so that they do not clash
  with the entry points), the request descriptors, and the two body templates.
  The templates are reproduced character for character, tabs and newlines
  included. Each body has a parser that reads back what was spliced into it.
  `ResolveIndex` and `ResolveDocument` are the `switch op` bodies as functions
  returning a `Result`.
- `Executor`: read-once body streams (`Reader`), a non-decreasing clock
  (`Clock`), the transport (`Client`), the `ConnStats` record, and `Do`. `Do` is
  proved equal to the specification function `Reported`.
- `OpenSearch`: the `Index` and `Document` methods, and lemmas about the bytes
  they report as sent.

How the environment is represented:

- **Transport.** A `Client` is fixed by three parameters:
  - how the cluster answers: a network error, or a status code with an
    optional response body that may fail to read;
  - how many request-body bytes the round trip reads;
  - whether `req.GetRequest()` fails when `do` asks for the request again.

  Its ghost `requests` log records every request handed to the transport. That
  log is how the contracts say when the transport was not called at all. A
  second ghost log, `sentAfter`, records for each request how many clock
  readings had been taken when it went out, which places the call between the
  two readings of `do`.
- **Random source.** An arbitrary function `draw: nat -> nat`; the k-th call to
  `rand.Intn(n)` yields `draw(k) % n`.
- **Clock.** Each reading advances by an arbitrary non-negative amount, so
  readings never decrease.

What the model shows about byte accounting:

- `do` re-reads the request body after the transport has already read from
  that same stream. Its bytes-sent figure is therefore only what the transport
  left unread. For index creation this is 0 whenever the transport sent the
  whole settings body (`OpenSearch.IndexCreateSentIsUnread`).
- `Document` overwrites the figure for creation with the length of the raw
  data. That is 22 characters less than the body actually sent
  (`OpenSearch.DocumentCreateSentIsDataLength`).

Three behaviours of the code are kept as they are:

- The index-settings body is the indented multi-line text the code
  concatenates, not compact JSON.
- Bytes sent for index creation is the unread remainder, not the body length.
- Bytes sent for document creation is the data length, not the payload length.

## Model

| member | source | states |
|---|---|---|
| Strconv.Itoa | opensearch.go:146-147 | every integer, negative or zero included, renders as an optional minus sign followed by the shortest decimal digits (no leading zero, no "-0"), and the rendering parses back to the same integer |
| Strconv.ParseIntExact | opensearch.go:146-147 | the `Itoa` rendering is the only string that parses back to a given integer, so the rendering is determined uniquely |
| RandomStrings.Rng.Intn | opensearch.go:90 | `rand.Intn(n)` yields a value in [0, n), given by the next draw of the oracle, and advances the draw count by one |
| RandomStrings.RandomChars | opensearch.go:81-93 | the string spelled by n draws has exactly n characters, each from the 62-character `runes` alphabet |
| RandomStrings.GenerateRandomString | opensearch.go:83-93 | the buffer-filling loop returns exactly the string the next n draws spell, using n draws |
| Requests.IndexSettings | opensearch.go:143-150 | the index-create body embeds both counts so that they read back exactly, for any integers (no range check) |
| Requests.ParseIndexSettingsExact | opensearch.go:143-150 | the index-create body is the only string that reads back to its two counts: the template with the `strconv.Itoa` text of each spliced in |
| Requests.DataPayload | opensearch.go:189-191 | the document body wraps the data so that it reads back exactly for any data, and is always 22 characters longer than the data |
| Requests.ResolveIndex | opensearch.go:139-160 | exactly ops 0 and 1 succeed; any other op gives "Invalid operation"; Create targets the named index with exactly the settings body of the two counts, which reads back to them; Delete targets exactly `[indexName]` with no body |
| Requests.ResolveDocument | opensearch.go:173-202 | exactly ops 0 and 1 succeed; any other op gives "Invalid operation"; Create uses `data[0]` whenever data is given (even empty), else 100 random alphabet characters; it uses `docId` when non-empty, else `id-` plus 6 random characters (9 in all); the synthesised data is spelled by the 100 draws from the starting draw, and the id suffix by the 6 draws after whatever the data used; Delete uses `docId` verbatim and draws nothing |
| Executor.Reader.ReadAll | opensearch.go:117-129 | draining a stream yields exactly the unread remainder, or the stream's error, and leaves nothing unread |
| Executor.Client.Perform | opensearch.go:103-107 | the transport logs the request, reads up to its upload amount of the request body, and returns either its error or a response with the cluster's status and a fresh, unread body stream; it logs with each request how many clock readings had been taken when it went out, without reading the clock itself |
| Executor.Clock.Now | opensearch.go:101-110 | each reading is at least the previous one and is appended to the reading history |
| Executor.ElapsedNonNegative | opensearch.go:101-110 | the difference between the last two clock readings is never negative |
| Executor.Reported | opensearch.go:109-132 | a record is produced exactly when the call, the request rebuild and both body reads all succeed; otherwise the first failing collaborator's error is returned unchanged; a record carries the latency, bytes sent, the response body length (0 with no body) and the status, whatever the status |
| Executor.Do | opensearch.go:100-133 | the transport is called exactly once, after exactly one new clock reading; the clock is read once more after a successful call and not again after a failed one, and earlier readings are kept; the result is `Reported` with bytes sent equal to what the transport left unread of the request body (0 with no body) and latency equal to the difference of the two readings, which is never negative; the request body stream ends drained once the request was rebuilt, and otherwise where the transport left it |
| OpenSearch.UnreadBody | opensearch.go:111-123 | the bytes-sent figure `do` takes for a request is 0 exactly when the request has no body or the transport read all of it; otherwise it is the body length less what the transport read, and never more than the body length |
| OpenSearch.Index | opensearch.go:135-167 | an invalid op returns "Invalid operation" without calling the transport or reading the clock; a valid op sends exactly the resolved request once, takes exactly `do`'s clock readings (one before the call, one after a successful call), and returns what `do` reports, unchanged, with the latency of those two readings |
| OpenSearch.BuildDocumentRequest | opensearch.go:173-202 | the `switch op` of `Document`, calling the generator for missing data and then for a missing id, yields exactly `ResolveDocument`'s result and uses exactly its draws (none for Delete or an invalid op) |
| OpenSearch.Document | opensearch.go:169-214 | an invalid op returns "Invalid operation" without drawing, calling the transport or reading the clock; a valid op draws exactly what `ResolveDocument` draws and sends its request once; it takes exactly `do`'s clock readings (one before the call, one after a successful call); Create reports the data length as bytes sent, Delete reports 0, and every other field (latency from those two readings included) and every error is `do`'s |
| OpenSearch.IndexCreateSentIsUnread | opensearch.go:111-123 | index creation reports as bytes sent the settings-body length minus what the transport read, and 0 once the transport has read it all |
| OpenSearch.DocumentCreateSentIsDataLength | opensearch.go:208-212 | document creation reports the raw data length (100 when synthesised), which is 22 less than the length of the body sent |

## Left out

- `Open` is left out: it builds the client and sets up TLS through the OpenSearch Go client library.
- k6 module registration and per-VU instantiation are left out: `init`, `RootModule`, `NewModuleInstance` and `Exports` are host-runtime plumbing.
- The real HTTP round trip of `client.Do` and the internals of `req.GetRequest()` are left out. They are the `Client` parameters described above.
- `time.Now()` is left out. Its readings are arbitrary non-decreasing integers. The real wall-clock value can step backwards, which the model excludes.
- The reseeding by `rand.Seed`, and the statistical quality of `rand.Intn`, are left out. Draws are arbitrary.
- The claim that two successive synthesised ids or bodies differ is left out. It is a probabilistic claim, and an arbitrary oracle can repeat itself.
- The response types passed as `datapointer` are left out. They are never used, because `client.Do` is given `nil`.
- JSON validity of the bodies is not claimed. The data is spliced into the document body without escaping.
- The commented-out `CreateDocument` and `DeleteDocument` are dead code and are left out.
- The script files under `examples/` are left out. They are k6 scripts, not part of this logic.
- Go strings are byte strings. Each Dafny character stands for one byte, so multi-byte UTF-8 characters in the data are not modelled.
- The fixed widths of `int64` and `int` are not modelled: latency and byte counts are unbounded integers, since no realistic call overflows them.
- RandomStrings.GenerateRandomString: takes a natural length. The Go function panics on a negative length, and its only callers pass 100 and 6.
- Executor.Do: the context argument and the request's method and URL path are not modelled. The transport's behaviour is fixed per `Client` rather than depending on the request.
