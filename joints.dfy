/**
 * A Joint bridges one session's two HTTP flows to one outbound TCP
 * connection.  The connection is started when the Joint is built, and its
 * outcome is a one-shot value that both pumps read.
 */
module Joints {
  import opened Wrappers
  import opened Streams
  import opened Http

  /** The direction of a flow: client to remote, or remote to client. */
  datatype Way = Upstream | Downstream

  /**
   * The settled outcome of the outbound connection: established, or failed
   * with the error's text.  The sockets' data are parameters of the pumps.
   */
  datatype ConnOutcome = Established | Failed(msg: string)

  /** What the upstream pump answers, given the connection outcome. */
  function UpstreamReply(conn: ConnOutcome): Reply
  {
    match conn
    case Failed(msg) => ConnectError(msg)
    case Established => NoContent
  }

  /**
   * The chunks a streamed response takes: all of `cs`, unless the client
   * goes away after `accepts` writes, when the next write raises and the
   * response ends with the chunks written so far.
   */
  function Accepted(cs: seq<Bytes>, accepts: Option<nat>): (r: seq<Bytes>)
    ensures r <= cs
    ensures accepts.None? ==> r == cs
    ensures accepts.Some? ==> |r| == if accepts.value < |cs| then accepts.value else |cs|
  {
    if accepts.Some? && accepts.value < |cs| then cs[..accepts.value] else cs
  }

  /**
   * What the downstream pump answers: the chunks read from the socket, in
   * order, as far as the client accepts them.
   */
  function DownstreamReply(conn: ConnOutcome, remote: Stream, accepts: Option<nat>): Reply
  {
    match conn
    case Failed(msg) => ConnectError(msg)
    case Established => Streamed(Accepted(Delivered(remote), accepts))
  }

  /** The bytes the upstream pump writes to the socket for a request body. */
  function Forwarded(conn: ConnOutcome, body: Stream): Bytes
  {
    if conn.Established? then Concat(Delivered(body)) else []
  }

  /** The reply of the pump a direction selects. */
  function PumpReply(way: Way, conn: ConnOutcome, body: Stream, remote: Stream, accepts: Option<nat>): Reply
  {
    match way
    case Upstream => UpstreamReply(conn)
    case Downstream => DownstreamReply(conn, remote, accepts)
  }

  /**
   * The bytes written to the socket by the pump a direction selects; once
   * the connection is closed, nothing more reaches it.
   */
  function Written(way: Way, conn: ConnOutcome, wasClosed: bool, body: Stream): Bytes
  {
    if way == Upstream && !wasClosed then Forwarded(conn, body) else []
  }

  /**
   * Both pumps of one Joint observe the same connection outcome: they fail
   * together, with the same 504 reply and the same error text, and on
   * failure neither depends on the streams or writes anything.
   */
  lemma OutcomeShared(conn: ConnOutcome, body: Stream, remote: Stream, accepts: Option<nat>)
    ensures Status(UpstreamReply(conn)) == 504 <==> conn.Failed?
    ensures Status(DownstreamReply(conn, remote, accepts)) == 504 <==> conn.Failed?
    ensures conn.Failed? ==>
      UpstreamReply(conn) == DownstreamReply(conn, remote, accepts) == ConnectError(conn.msg) &&
      Forwarded(conn, body) == []
    ensures conn.Established? ==>
      Status(UpstreamReply(conn)) == 204 && Status(DownstreamReply(conn, remote, accepts)) == 200
  {
  }

  /**
   * On an established connection a body sent as the non-empty chunks `cs`
   * reaches the socket as exactly their bytes, in order, and the upstream
   * request is answered with 204.
   */
  lemma BodyForwardedExactly(cs: seq<Bytes>, rest: Stream)
    requires forall i :: 0 <= i < |cs| ==> cs[i] != []
    requires rest == [] || rest[0].Ends()
    ensures Forwarded(Established, Chunks(cs) + rest) == Concat(cs)
    ensures PumpReply(Upstream, Established, Chunks(cs) + rest, [], None) == NoContent
  {
    DeliversWholeBody(cs, rest);
  }

  /**
   * On an established connection a downstream client that stays connected
   * receives every non-empty chunk the remote sends before closing, in
   * order, and nothing is written to the socket.
   */
  lemma RemoteBytesReceivedExactly(cs: seq<Bytes>, rest: Stream)
    requires forall i :: 0 <= i < |cs| ==> cs[i] != []
    requires rest == [] || rest[0].Ends()
    ensures PumpReply(Downstream, Established, [], Chunks(cs) + rest, None) == Streamed(cs)
    ensures Written(Downstream, Established, false, []) == []
  {
    DeliversWholeBody(cs, rest);
  }

  /**
   * A downstream client that goes away after `n` writes receives the first
   * `n` chunks the remote sent, in order, and nothing after them.
   */
  lemma ClientGoneReceivesPrefix(cs: seq<Bytes>, rest: Stream, n: nat)
    requires forall i :: 0 <= i < |cs| ==> cs[i] != []
    requires rest == [] || rest[0].Ends()
    requires n <= |cs|
    ensures DownstreamReply(Established, Chunks(cs) + rest, Some(n)) == Streamed(cs[..n])
  {
    DeliversWholeBody(cs, rest);
    var d := Delivered(Chunks(cs) + rest);
    if n == |cs| {
      assert cs[..n] == cs;
    }
    assert Accepted(d, Some(n)) == cs[..n];
  }

  class Joint {
    /** The target the connection was opened to. */
    const host: string
    const port: int
    /** The one-shot outcome of the connection begun by the constructor. */
    const conn: ConnOutcome
    /** Everything written to the socket so far. */
    var sent: Bytes
    /** Whether the connection has been closed (by an upstream flow). */
    var closed: bool

    /**
     * Builds a Joint and starts its single outbound connection, whose
     * eventual outcome is `outcome`.
     */
    constructor (dstHost: string, dstPort: int, outcome: ConnOutcome)
      ensures host == dstHost && port == dstPort && conn == outcome
      ensures sent == [] && !closed
    {
      host, port, conn := dstHost, dstPort, outcome;
      sent, closed := [], false;
    }

    /**
     * Upstream pump: on a failed connection answers 504 and touches nothing;
     * otherwise copies body chunks to the socket until the first empty chunk
     * or read error, closes the connection and answers 204 either way.
     */
    method PatchUpstream(body: Stream) returns (r: Reply)
      modifies this
      ensures r == UpstreamReply(conn)
      ensures sent == old(sent) + (if old(closed) then [] else Forwarded(conn, body))
      ensures closed == (old(closed) || conn.Established?)
    {
      if conn.Failed? {
        return ConnectError(conn.msg);
      }
      if closed {
        // An earlier flow closed the connection: the first write goes
        // nowhere, the drain after it raises, and the flow still ends in 204.
        return NoContent;
      }
      ghost var start, d := sent, Delivered(body);
      ghost var copied: seq<Bytes> := [];
      var i := 0;
      while i < |body| && !body[i].Ends()
        invariant i <= |d| && copied == d[..i]
        invariant sent == start + Concat(copied)
        invariant !closed
      {
        var data := body[i].data;
        ConcatSnoc(copied, data);
        copied := copied + [data];
        sent := sent + data;
        i := i + 1;
      }
      assert copied == d;
      closed := true;
      r := NoContent;
    }

    /**
     * Downstream pump: on a failed connection answers 504; otherwise writes
     * each chunk read from the socket to a streamed response, in order,
     * until the first empty read or read error, or until a write raises
     * because the client went away after `accepts` writes.
     */
    method PatchDownstream(remote: Stream, accepts: Option<nat>) returns (r: Reply)
      ensures r == DownstreamReply(conn, remote, accepts)
    {
      if conn.Failed? {
        return ConnectError(conn.msg);
      }
      ghost var d := Delivered(remote);
      var chunks: seq<Bytes> := [];
      var i := 0;
      while i < |remote| && !remote[i].Ends()
        invariant i <= |d| && chunks == d[..i]
        invariant accepts.Some? ==> i <= accepts.value
      {
        if accepts.Some? && i == accepts.value {
          // The write of this chunk raises; the response ends as it is.
          break;
        }
        chunks := chunks + [remote[i].data];
        i := i + 1;
      }
      assert chunks == Accepted(d, accepts);
      r := Streamed(chunks);
    }

    /** Routes a flow to the pump its direction names. */
    method PatchIn(way: Way, body: Stream, remote: Stream, accepts: Option<nat>) returns (r: Reply)
      modifies this
      ensures r == PumpReply(way, conn, body, remote, accepts)
      ensures sent == old(sent) + Written(way, conn, old(closed), body)
      ensures closed == (old(closed) || (way == Upstream && conn.Established?))
    {
      match way
      case Upstream =>
        r := PatchUpstream(body);
      case Downstream =>
        r := PatchDownstream(remote, accepts);
    }
  }
}
