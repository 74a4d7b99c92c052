/**
 * Sequential runs of the documented sessions, checked against the
 * contracts alone: one upstream and one downstream flow sharing a session,
 * and a session whose remote is unreachable.
 */
module Scenarios {
  import opened Wrappers
  import opened Streams
  import opened Http
  import opened Joints
  import opened Combiners

  const Session: Sid := 0x1111_1111_1111_1111_1111_1111_1111_1111
  const Hello: Bytes := [104, 101, 108, 108, 111]
  const World: Bytes := [119, 111, 114, 108, 100]

  method SharedSession()
  {
    var c := new Combiner("/chunk-nordic", "remote", 22);
    // The upstream flow arrives first, creates the session and dials once.
    var up := Request("/chunk-nordic", Some(Session), Some(0));
    var r1 := c.Handle(up, Established, [Chunk(Hello)], [], None);
    assert Classify(c.uri, up) == Dispatch(Session, Upstream);
    DeliversWholeBody([Hello], []);
    assert Chunks([Hello]) == [Chunk(Hello)];
    assert r1 == NoContent;
    assert c.joints[Session].sent == Hello;
    assert c.dials == [Session];

    // The downstream flow reuses the session: no second connection, even
    // though this flow would have seen a different dial outcome.
    var down := Request("/chunk-nordic", Some(Session), Some(1));
    var r2 := c.Handle(down, Failed("unused"), [], [Chunk(World), Chunk([])], None);
    assert Classify(c.uri, down) == Dispatch(Session, Downstream);
    DeliversWholeBody([World], [Chunk([])]);
    assert Chunks([World]) + [Chunk([])] == [Chunk(World), Chunk([])];
    assert r2 == Streamed([World]) && Status(r2) == 200;
    assert c.dials == [Session];
    assert c.joints[Session].sent == Hello;
  }

  method SecondUpstreamAfterClose()
  {
    var c := new Combiner("/chunk-nordic", "remote", 22);
    var up := Request("/chunk-nordic", Some(Session), Some(0));
    assert Classify(c.uri, up) == Dispatch(Session, Upstream);
    DeliversWholeBody([Hello], []);
    assert Chunks([Hello]) == [Chunk(Hello)];
    var r1 := c.Handle(up, Established, [Chunk(Hello)], [], None);
    assert c.joints[Session].closed && c.joints[Session].sent == Hello;
    // The first flow closed the connection: a second body sends nothing,
    // and the flow is still answered with 204.
    var r2 := c.Handle(up, Established, [Chunk(World)], [], None);
    assert r1 == r2 == NoContent;
    assert c.joints[Session].sent == Hello;
  }

  method ClientGoesAway()
  {
    var c := new Combiner("/chunk-nordic", "remote", 22);
    var down := Request("/chunk-nordic", Some(Session), Some(1));
    assert Classify(c.uri, down) == Dispatch(Session, Downstream);
    ClientGoneReceivesPrefix([Hello, World], [], 1);
    assert Chunks([Hello, World]) + [] == [Chunk(Hello), Chunk(World)];
    assert [Hello, World][..1] == [Hello];
    // The client takes one write; the second raises and the stream ends.
    var r := c.Handle(down, Established, [], [Chunk(Hello), Chunk(World)], Some(1));
    assert r == Streamed([Hello]);
  }

  method RefusalsLeaveRegistry()
  {
    var c := new Combiner("/chunk-nordic", "remote", 22);
    // Refused requests leave the registry as it is.
    var r3 := c.Handle(Request("/other", Some(Session), Some(0)), Established, [], [], None);
    assert r3 == NotFoundReply;
    var r4 := c.Handle(Request("/chunk-nordic", None, Some(0)), Established, [], [], None);
    var r5 := c.Handle(Request("/chunk-nordic", Some(Session), Some(2)), Established, [], [], None);
    assert r4 == InvalidReply && r5 == InvalidReply;
    assert c.dials == [] && c.joints == map[];
  }

  method UnreachableRemote()
  {
    var c := new Combiner("/chunk-nordic", "remote", 22);
    var err := "Connection refused";
    var down := Request("/chunk-nordic", Some(Session), Some(1));
    var r1 := c.Handle(down, Failed(err), [], [Chunk(World)], None);
    var up := Request("/chunk-nordic", Some(Session), Some(0));
    var r2 := c.Handle(up, Established, [Chunk(Hello)], [], None);
    // Both flows see the one failed outcome; nothing reaches the socket.
    assert r1 == r2 == ConnectError(err) && Status(r1) == 504;
    ConnectErrorCarriesMessage(err, err);
    assert ErrorMessage(r1) == err;
    assert c.joints[Session].sent == [];
    assert c.dials == [Session];
  }
}
