/**
 * The pumps and the router as the code is written, where that differs from
 * what it evidently means to do.  Each lemma sets the written behaviour
 * beside the intended one modelled in `Joints`.
 */
module AsWritten {
  import opened Wrappers
  import opened Streams
  import opened Http
  import opened Joints

  /**
   * Either pump as written: awaiting the connection task comes before the
   * `try` that turns its error into a 504, so a failed connection re-raises
   * there and the pump gives no reply (None).
   */
  function PumpAwaitingFirst(way: Way, conn: ConnOutcome, body: Stream, remote: Stream, accepts: Option<nat>): Option<Reply>
  {
    if conn.Failed? then None else Some(PumpReply(way, conn, body, remote, accepts))
  }

  /** A failed connection: no reply as written, the 504 gateway error as intended. */
  lemma FailedConnectRaisesAsWritten(way: Way, msg: string, body: Stream, remote: Stream, accepts: Option<nat>)
    ensures PumpAwaitingFirst(way, Failed(msg), body, remote, accepts) == None
    ensures PumpReply(way, Failed(msg), body, remote, accepts) == ConnectError(msg)
  {
  }

  /**
   * The router as written: it creates the pump's coroutine but neither
   * awaits nor returns it, so the pump never runs and no reply comes back.
   */
  function PatchInDropsPump(way: Way, conn: ConnOutcome, body: Stream, remote: Stream, accepts: Option<nat>): Option<Reply>
  {
    None
  }

  /** An upstream `hello` on a good connection: no reply as written, 204 and `hello` forwarded as intended. */
  lemma DroppedPumpAsWritten(hello: Bytes)
    requires hello != []
    ensures PatchInDropsPump(Upstream, Established, [Chunk(hello)], [], None) == None
    ensures PumpReply(Upstream, Established, [Chunk(hello)], [], None) == NoContent
    ensures Written(Upstream, Established, false, [Chunk(hello)]) == hello
  {
    DeliversWholeBody([hello], []);
    assert Chunks([hello]) + [] == [Chunk(hello)];
  }

  /**
   * The downstream pump as written on a good connection: preparing the
   * response names an undefined variable, which raises before any chunk is
   * streamed, so no reply comes back.
   */
  function DownstreamUndefinedRequest(conn: ConnOutcome, remote: Stream, accepts: Option<nat>): Option<Reply>
  {
    if conn.Failed? then Some(ConnectError(conn.msg)) else None
  }

  /** On a good connection: no reply as written, a 200 stream as intended. */
  lemma UndefinedRequestAsWritten(remote: Stream, accepts: Option<nat>)
    ensures DownstreamUndefinedRequest(Established, remote, accepts) == None
    ensures Status(DownstreamReply(Established, remote, accepts)) == 200
  {
  }

  /**
   * The downstream loop as written: the socket read is not awaited, so each
   * "chunk" is a coroutine object.  It is never empty, and writing it to the
   * response raises, so the response ends with no chunks.
   */
  function DownstreamReadNotAwaited(conn: ConnOutcome, remote: Stream): Reply
  {
    if conn.Failed? then ConnectError(conn.msg) else Streamed([])
  }

  /** The remote sends `world` and closes: nothing as written, `world` as intended. */
  lemma ReadNotAwaitedAsWritten(world: Bytes)
    requires world != []
    ensures DownstreamReadNotAwaited(Established, [Chunk(world), Chunk([])]) == Streamed([])
    ensures DownstreamReply(Established, [Chunk(world), Chunk([])], None) == Streamed([world])
  {
    DeliversWholeBody([world], [Chunk([])]);
    assert Chunks([world]) + [Chunk([])] == [Chunk(world), Chunk([])];
  }
}
