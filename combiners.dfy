/**
 * The combiner: classifies each incoming HTTP request, keeps the registry
 * from session id to Joint, and hands each flow to its Joint's pump.
 */
module Combiners {
  import opened Wrappers
  import opened Streams
  import opened Http
  import opened Joints

  /** A session id: a 128-bit UUID value. */
  newtype Sid = x: int | 0 <= x < 0x1_0000_0000_0000_0000_0000_0000_0000_0000

  /**
   * An incoming request as the classifier sees it.  `sessionId` is the
   * session header decoded as a UUID and `wayCode` the way header decoded as
   * an integer; each is None when the header is missing or does not decode.
   */
  datatype Request = Request(path: string, sessionId: Option<Sid>, wayCode: Option<int>)

  /** The integer code of each direction on the wire. */
  function WayCode(w: Way): int
  {
    match w
    case Upstream => 0
    case Downstream => 1
  }

  /** Decodes a way code; codes other than those of the two directions are refused. */
  function ParseWay(code: Option<int>): (w: Option<Way>)
    ensures w.Some? <==> code.Some? && (code.value == 0 || code.value == 1)
    ensures w.Some? ==> WayCode(w.value) == code.value
  {
    match code
    case None => None
    case Some(c) => if c == 0 then Some(Upstream) else if c == 1 then Some(Downstream) else None
  }

  /** Encoding a direction and decoding it gives the direction back. */
  lemma WayCodeRoundTrip(w: Way)
    ensures ParseWay(Some(WayCode(w))) == Some(w)
  {
  }

  /** What the handler decides for a request. */
  datatype Decision = NotFound | Invalid | Dispatch(sid: Sid, way: Way)

  /**
   * The handler's decision: a path other than the tunnel path is not
   * found; otherwise a request whose session or way does not decode is
   * invalid; otherwise it is dispatched with the decoded session and way.
   */
  function Classify(uri: string, req: Request): (d: Decision)
    ensures d == NotFound <==> req.path != uri
    ensures d == Invalid <==> req.path == uri && (req.sessionId.None? || ParseWay(req.wayCode).None?)
    ensures d.Dispatch? ==> req.sessionId == Some(d.sid) && ParseWay(req.wayCode) == Some(d.way)
  {
    if req.path != uri then NotFound
    else match (req.sessionId, ParseWay(req.wayCode))
      case (Some(sid), Some(way)) => Dispatch(sid, way)
      case _ => Invalid
  }

  /** The fixed reply for a refused request. */
  function Refusal(d: Decision): (r: Reply)
    requires !d.Dispatch?
    ensures Status(r) == (if d == NotFound then 404 else 400)
    ensures r.Text? && r.text == (if d == NotFound then "NOT FOUND\n" else "INVALID REQUEST\n")
  {
    if d == NotFound then NotFoundReply else InvalidReply
  }

  class Combiner {
    /** The tunnel path and the remote target every Joint connects to. */
    const uri: string
    const dstHost: string
    const dstPort: int
    /** The registry: one Joint per session id seen so far. */
    var joints: map<Sid, Joint>
    /** The session of every outbound connection started, in order. */
    ghost var dials: seq<Sid>

    /**
     * Every registered session has had exactly one connection started and
     * every other session none; distinct sessions have distinct Joints, all
     * aimed at the configured target.
     */
    ghost predicate Valid()
      reads this
    {
      && (forall s :: multiset(dials)[s] == if s in joints then 1 else 0)
      && (forall a, b :: a in joints && b in joints && a != b ==> joints[a] != joints[b])
      && (forall s :: s in joints ==> joints[s].host == dstHost && joints[s].port == dstPort)
    }

    constructor (tunnelUri: string, host: string, port: int)
      ensures Valid()
      ensures uri == tunnelUri && dstHost == host && dstPort == port
      ensures joints == map[] && dials == []
    {
      uri, dstHost, dstPort := tunnelUri, host, port;
      joints, dials := map[], [];
    }

    /** The Joint a request for `sid` may change: the registered one, if any. */
    ghost function Footprint(sid: Option<Sid>): set<object>
      reads this
    {
      if sid.Some? && sid.value in joints then {joints[sid.value]} else {}
    }

    /**
     * Registry get-or-create: reuses the Joint registered for `sid`, or
     * builds one (starting its connection, whose outcome is `dial`) and
     * registers it, leaving every other entry as it was.
     */
    method GetOrCreate(sid: Sid, dial: ConnOutcome) returns (j: Joint)
      requires Valid()
      modifies this
      ensures Valid()
      ensures sid in joints && j == joints[sid]
      ensures old(sid in joints) ==>
        joints == old(joints) && dials == old(dials)
      ensures !old(sid in joints) ==>
        && fresh(j) && j.conn == dial && j.sent == [] && !j.closed
        && joints == old(joints)[sid := j] && dials == old(dials) + [sid]
    {
      if sid !in joints {
        var created := new Joint(dstHost, dstPort, dial);
        joints := joints[sid := created];
        dials := dials + [sid];
      }
      j := joints[sid];
    }

    /**
     * Gets or creates the session's Joint and runs the pump `way` names.
     * `body` and `remote` are the request body and the socket's incoming
     * data; `accepts` is how many writes a downstream client takes before
     * it goes away (None: it stays).
     */
    method DispatchReq(sid: Sid, way: Way, dial: ConnOutcome, body: Stream, remote: Stream, accepts: Option<nat>)
      returns (r: Reply)
      requires Valid()
      modifies this, Footprint(Some(sid))
      ensures Valid()
      ensures sid in joints && joints.Keys == old(joints.Keys) + {sid}
      ensures forall s :: s in old(joints) ==> joints[s] == old(joints[s])
      ensures dials == if sid in old(joints) then old(dials) else old(dials) + [sid]
      ensures sid !in old(joints) ==> fresh(joints[sid]) && joints[sid].conn == dial
      ensures r == PumpReply(way, joints[sid].conn, body, remote, accepts)
      ensures joints[sid].sent ==
        (if sid in old(joints) then old(joints[sid].sent) else [])
        + Written(way, joints[sid].conn, sid in old(joints) && old(joints[sid].closed), body)
      ensures joints[sid].closed ==
        ((sid in old(joints) && old(joints[sid].closed)) || (way == Upstream && joints[sid].conn.Established?))
    {
      var j := GetOrCreate(sid, dial);
      r := j.PatchIn(way, body, remote, accepts);
    }

    /**
     * The request handler: refuses a request for another path (404) or with
     * a session or way that does not decode (400) without touching the
     * registry, and dispatches every other request.
     */
    method Handle(req: Request, dial: ConnOutcome, body: Stream, remote: Stream, accepts: Option<nat>)
      returns (r: Reply)
      requires Valid()
      modifies this, Footprint(req.sessionId)
      ensures Valid()
      ensures !Classify(uri, req).Dispatch? ==>
        && r == Refusal(Classify(uri, req)) && joints == old(joints) && dials == old(dials)
        && (forall s :: s in joints ==>
              joints[s].sent == old(joints[s].sent) && joints[s].closed == old(joints[s].closed))
      ensures Classify(uri, req).Dispatch? ==>
        var sid, way := Classify(uri, req).sid, Classify(uri, req).way;
        && sid in joints && joints.Keys == old(joints.Keys) + {sid}
        && (forall s :: s in old(joints) ==> joints[s] == old(joints[s]))
        && dials == (if sid in old(joints) then old(dials) else old(dials) + [sid])
        && (sid !in old(joints) ==> fresh(joints[sid]) && joints[sid].conn == dial)
        && r == PumpReply(way, joints[sid].conn, body, remote, accepts)
        && joints[sid].sent ==
             (if sid in old(joints) then old(joints[sid].sent) else [])
             + Written(way, joints[sid].conn, sid in old(joints) && old(joints[sid].closed), body)
        && joints[sid].closed ==
             ((sid in old(joints) && old(joints[sid].closed)) || (way == Upstream && joints[sid].conn.Established?))
    {
      var d := Classify(uri, req);
      match d
      case NotFound =>
        r := NotFoundReply;
      case Invalid =>
        r := InvalidReply;
      case Dispatch(sid, way) =>
        r := DispatchReq(sid, way, dial, body, remote, accepts);
    }
  }
}
