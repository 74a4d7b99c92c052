# chunk-nordic combiner, modelled in Dafny

The combiner is the server half of chunk-nordic. It carries one TCP connection to
a remote host over two HTTP flows. The **upstream** flow streams a client's bytes in
a request body into the socket. The **downstream** flow streams the socket's bytes
back to the client as a chunked response. A session id header ties the two flows
to one **Joint**. The Joint owns the single outbound connection of that session.

This project models the sequential logic of `chunk_nordic/combiner.py`:

- `Combiners.Classify` and `Combiner.Handle` model the request handler. A request
  for another path gets 404 `NOT FOUND\n`. A request whose session or way header is
  missing or does not decode gets 400 `INVALID REQUEST\n`. Every other request is
  dispatched. Refused requests leave the registry and every Joint untouched.
- `Combiner.GetOrCreate` and `Combiner.DispatchReq` model the registry, a
  `map<Sid, Joint>` updated in place with get-or-create. A ghost log `dials` records
  every connection started. `Combiner.Valid()` says that each registered session
  was dialled exactly once and every other session never. So the registry never
  opens a second connection for a session.
- `Joint` holds the connection outcome as a `const`. The constructor sets it once,
  and both pumps read that same value. `Joint.PatchIn` routes each direction to
  its pump.
- `Joint.PatchUpstream` copies request-body chunks to the socket until the first
  empty chunk or the first read that raises. It then closes the connection and
  answers 204, even when a read raised. Once the connection is closed, a later
  upstream flow sends nothing and is still answered 204.
- `Joint.PatchDownstream` copies socket chunks into a streamed response until the
  first empty read. It also stops when a write raises because the client went
  away. On a failed connection, both pumps answer 504 with `Connect error: `
  followed by the error text, and neither one reads or writes.
- `Streams.Delivered` is the specification of both copy loops. It gives the
  chunks read before the first terminator. `Streams.Concat` gives their bytes in
  order. The lemmas show three things: `Delivered` is the only terminator-free
  prefix that stops at the first terminator; a body of non-empty chunks arrives
  whole and in order; and no read after the terminator is looked at.

I/O is replaced by parameters:

- A stream is the sequence of outcomes of its reads (`Chunk(bytes)` or `Raise`).
  Reading past the end of the sequence gives the empty chunk.
- The connection outcome (`Established` or `Failed(msg)`) is supplied with each
  dispatch. It is used only when that dispatch creates the Joint.
- A downstream client is described by `accepts`: how many writes it takes
  before it goes away (None when it stays).
- The header decoders (`uuid.UUID`, and `int` applied to the way header) are
  abstract. The model gets their `Option` results.

`constants.py` is not part of this model. The direction codes 0 (upstream) and
1 (downstream) come from the system's documented interface.

Where the code as written departs from its evident intent, the model follows
the intent. The departures are listed under "## Findings", each with a member
that models the code as written.

## Model

| member | source | states |
|---|---|---|
| Streams.Delivered | chunk_nordic/combiner.py:28-31 | the chunks a copy loop passes on: read in order, each non-empty, and stopping exactly at the first empty chunk or raising read (or at the end) |
| Streams.DeliveredUnique | chunk_nordic/combiner.py:54-57 | any terminator-free prefix of a stream that stops at the first terminator is exactly `Delivered`, so both loops' stopping rules pick out one chunk list |
| Streams.ConcatAppend | chunk_nordic/combiner.py:32 | writing chunks one after another puts their bytes on the socket in order: concatenation distributes over appending |
| Streams.ConcatSnoc | chunk_nordic/combiner.py:32-33 | writing one more chunk appends exactly its bytes to what was written before |
| Streams.DeliversWholeBody | chunk_nordic/combiner.py:28-33 | a stream of non-empty chunks followed by an end delivers exactly those chunks, and their bytes in order |
| Streams.StopsAtFirstEnd | chunk_nordic/combiner.py:29-31 | nothing read after the first empty or raising read affects what is passed on; a terminator-free prefix is passed on whole |
| Http.ConnectError | chunk_nordic/combiner.py:23-26 | a failed connection is answered with a 504 text reply whose text is `Connect error: ` followed by exactly the error text |
| Http.ConnectErrorCarriesMessage | chunk_nordic/combiner.py:24 | the error text can be recovered from the 504 reply, and different error texts give different replies |
| Joints.OutcomeShared | chunk_nordic/combiner.py:19-45 | both pumps read one connection outcome: they fail together with the same 504 reply and write nothing; on success they answer 204 and 200 |
| Joints.BodyForwardedExactly | chunk_nordic/combiner.py:27-36 | on an established connection, a body sent as non-empty chunks reaches the socket as exactly their bytes in order, and the flow is answered 204 |
| Joints.RemoteBytesReceivedExactly | chunk_nordic/combiner.py:53-60 | on an established connection, a downstream client that stays connected receives every chunk the remote sends before it closes, in order, and nothing is written to the socket |
| Joints.Joint.constructor | chunk_nordic/combiner.py:10-17 | a new Joint targets the given host and port, holds the one-shot connection outcome, has written nothing and its connection is not closed |
| Joints.Joint.PatchUpstream | chunk_nordic/combiner.py:19-36 | on failure, a 504 and no state change; otherwise the socket receives the concatenation of the delivered body chunks (nothing if the connection was already closed), the connection is closed and the reply is 204 |
| Joints.Accepted | chunk_nordic/combiner.py:58-60 | a response takes a prefix of the chunks offered: all of them while the client stays, and exactly the first `n` once it goes away after `n` writes |
| Joints.ClientGoneReceivesPrefix | chunk_nordic/combiner.py:53-60 | a client that goes away after `n` writes receives exactly the first `n` chunks the remote sent, in order |
| Joints.Joint.PatchDownstream | chunk_nordic/combiner.py:38-60 | on failure, a 504; otherwise a streamed 200 reply whose chunks are the socket chunks read before the first empty read, in order, cut off where the client stops accepting writes |
| Joints.Joint.PatchIn | chunk_nordic/combiner.py:63-67 | upstream runs the upstream pump and downstream the downstream pump; the new bytes sent and the closed flag are those of the selected pump; the downstream pump writes nothing to the socket |
| Combiners.ParseWay | chunk_nordic/combiner.py:104 | a way code decodes exactly when it is 0 or 1, and to the direction with that code |
| Combiners.WayCodeRoundTrip | chunk_nordic/combiner.py:104 | decoding a direction's own code gives that direction back |
| Combiners.Classify | chunk_nordic/combiner.py:99-108 | not found exactly when the path differs; invalid exactly when the path matches and the session id or the way fails to decode; else dispatch with the decoded values |
| Combiners.Refusal | chunk_nordic/combiner.py:100-108 | a request for another path is refused with 404 and text `NOT FOUND\n`, a malformed one with 400 and text `INVALID REQUEST\n` |
| Combiners.Combiner.constructor | chunk_nordic/combiner.py:73-83 | a new combiner has the configured path and target, an empty registry and no connection started |
| Combiners.Combiner.GetOrCreate | chunk_nordic/combiner.py:91-94 | afterwards `sid` is registered and the Joint returned is its entry; a known sid leaves the registry and the dial log unchanged; a new sid adds one fresh Joint with the given outcome, one dial, and no other change |
| Combiners.Combiner.DispatchReq | chunk_nordic/combiner.py:90-95 | get-or-create, then the pump of the requested way on that session's Joint; other entries unchanged; the reply, the bytes written and the closed flag are those of the selected pump |
| Combiners.Combiner.Handle | chunk_nordic/combiner.py:97-109 | refused requests get the fixed 404 or 400 reply and change neither the registry nor any Joint; other requests are dispatched, answered with the pump's reply, and leave the session's bytes sent and closed flag as that pump does |
| AsWritten.FailedConnectRaisesAsWritten | chunk_nordic/combiner.py:20-26 | a failed connection: as written, no reply; as intended, the 504 connect error |
| AsWritten.DroppedPumpAsWritten | chunk_nordic/combiner.py:63-67 | an upstream `hello`: as written, no reply; as intended, 204 with `hello` forwarded |
| AsWritten.UndefinedRequestAsWritten | chunk_nordic/combiner.py:47-51 | a good connection: as written, the downstream pump gives no reply; as intended, a 200 stream |
| AsWritten.ReadNotAwaitedAsWritten | chunk_nordic/combiner.py:54-58 | a remote that sends `world` and closes: as written, an empty stream; as intended, `world` |

## Findings

| source | as written | input that shows it | evidently intended | confidence | as-written member | corrected member |
|---|---|---|---|---|---|---|
| chunk_nordic/combiner.py:20 | `await self._conn` stands before the `try`, so a failed connection task re-raises there and the 504 branch at lines 23-26 (and at 42-45 for line 39) is never reached | a connect that fails with `Connection refused` | a 504 reply with text `Connect error: Connection refused` | high (not executed) | AsWritten.FailedConnectRaisesAsWritten | Joints.OutcomeShared |
| chunk_nordic/combiner.py:65 | `patch_in` creates the pump's coroutine (lines 65 and 67) but neither awaits nor returns it, so the pump never runs and the handler returns no response | an upstream request with body `hello` on a good connection | `hello` forwarded and a 204 reply | high (not executed) | AsWritten.DroppedPumpAsWritten | Joints.Joint.PatchIn |
| chunk_nordic/combiner.py:51 | `resp.prepare(request)` names an undefined variable, so the downstream pump raises before streaming | a downstream request on a good connection | a prepared 200 stream response | high (not executed) | AsWritten.UndefinedRequestAsWritten | Joints.Joint.PatchDownstream |
| chunk_nordic/combiner.py:55 | `reader.read(BUFSIZE)` is not awaited, so `data` is a coroutine object that is never empty, and writing it to the response raises | the remote sends `world` and closes | the client receives `world` | medium (not executed; depends on the HTTP library refusing a non-bytes write) | AsWritten.ReadNotAwaitedAsWritten | Joints.RemoteBytesReceivedExactly |

## Left out

- Server lifecycle (`start`, `stop`, the site and runner, the shutdown timeout): this is I/O bootstrap.
- `asyncio.open_connection`, `ensure_future` and the event loop: the connection is modelled only by its settled outcome.
- `drain()` backpressure: it changes only timing, not the bytes written or their order.
- The interleaving of the two pumps on one socket: the model runs each flow as one sequential call.
- Decoding the UUID text and the way header's integer text: the model takes their results as `Option` values.
- Chunked transfer coding, response preparation, and the `Content-Type` and `Server` headers: these are done by the HTTP library.
- Logging and the peer address lookup: they have no effect on behaviour.
- The `BUFSIZE` bound on each read: chunks of any size are allowed.
- Joints.Joint.PatchUpstream: does not model a socket write or drain that raises. The 204 reply would be the same, but whether the last chunk reached the socket is left open.
- Joints.Joint.PatchDownstream: the `remote` stream is not made to end once an upstream flow has closed the connection; the reader would then see only what was already buffered, followed by the end of stream.
- Session teardown: the source never removes a Joint from the registry, and neither does the model.
