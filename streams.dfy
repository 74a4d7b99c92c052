/**
 * Byte streams as the pumps see them.
 *
 * A stream is the sequence of outcomes of successive `read(BUFSIZE)` calls:
 * each read either returns a chunk of bytes or raises.  An empty chunk is the
 * end-of-stream signal.  Reading past the end of the sequence is taken to
 * return the empty chunk, so every finite sequence describes a stream that
 * eventually ends.
 */
module Streams {

  newtype byte = x: int | 0 <= x < 256

  type Bytes = seq<byte>

  /** One read of a stream. */
  datatype ReadStep = Chunk(data: Bytes) | Raise
  {
    /** True for the reads that stop a copy loop: end of stream or an error. */
    predicate Ends() {
      Raise? || data == []
    }
  }

  type Stream = seq<ReadStep>

  /** A stream that delivers exactly the chunks `cs`, one per read. */
  function Chunks(cs: seq<Bytes>): (s: Stream)
    ensures |s| == |cs|
    ensures forall i :: 0 <= i < |cs| ==> s[i] == Chunk(cs[i])
  {
    if cs == [] then [] else [Chunk(cs[0])] + Chunks(cs[1..])
  }

  /**
   * The chunks a copy loop passes on: those read before the first empty
   * chunk or the first read that raises.
   */
  function Delivered(s: Stream): (r: seq<Bytes>)
    ensures |r| <= |s|
    ensures forall i :: 0 <= i < |r| ==> s[i] == Chunk(r[i]) && r[i] != []
    ensures |r| < |s| ==> s[|r|].Ends()
  {
    if s == [] || s[0].Ends() then [] else [s[0].data] + Delivered(s[1..])
  }

  /** The bytes of a sequence of chunks, in order. */
  function Concat(cs: seq<Bytes>): Bytes
  {
    if cs == [] then [] else cs[0] + Concat(cs[1..])
  }

  /** Concatenation distributes over appending chunk sequences. */
  lemma {:induction false} ConcatAppend(a: seq<Bytes>, b: seq<Bytes>)
    ensures Concat(a + b) == Concat(a) + Concat(b)
  {
    if a == [] {
      assert a + b == b;
    } else {
      assert (a + b)[1..] == a[1..] + b;
      ConcatAppend(a[1..], b);
    }
  }

  /** Appending one chunk to the sequence appends its bytes to the concatenation. */
  lemma ConcatSnoc(a: seq<Bytes>, c: Bytes)
    ensures Concat(a + [c]) == Concat(a) + c
  {
    ConcatAppend(a, [c]);
    assert Concat([c]) == c + Concat([]);
  }

  /**
   * `Delivered` is the only prefix of a stream's chunks that is free of
   * terminators and stops right at the first one (or at the end).
   */
  lemma DeliveredUnique(s: Stream, p: seq<Bytes>)
    requires |p| <= |s|
    requires forall i :: 0 <= i < |p| ==> s[i] == Chunk(p[i]) && p[i] != []
    requires |p| < |s| ==> s[|p|].Ends()
    ensures p == Delivered(s)
  {
  }

  /**
   * A stream of non-empty chunks followed by a terminator (or by nothing)
   * delivers exactly those chunks; whatever follows the terminator is never
   * passed on.
   */
  lemma DeliversWholeBody(cs: seq<Bytes>, rest: Stream)
    requires forall i :: 0 <= i < |cs| ==> cs[i] != []
    requires rest == [] || rest[0].Ends()
    ensures Delivered(Chunks(cs) + rest) == cs
    ensures Concat(Delivered(Chunks(cs) + rest)) == Concat(cs)
  {
    var s := Chunks(cs) + rest;
    assert forall i :: 0 <= i < |cs| ==> s[i] == Chunks(cs)[i];
    if |cs| < |s| {
      assert s[|cs|] == rest[0];
    }
    DeliveredUnique(s, cs);
  }

  /**
   * Reads after the first terminator are never looked at: a terminator-free
   * prefix is delivered whole, whatever follows its terminator.
   */
  lemma StopsAtFirstEnd(pre: Stream, t: ReadStep, rest: Stream)
    requires forall i :: 0 <= i < |pre| ==> !pre[i].Ends()
    requires t.Ends()
    ensures |Delivered(pre)| == |pre|
    ensures Delivered(pre + [t] + rest) == Delivered(pre)
  {
    var d := Delivered(pre);
    var s := pre + [t] + rest;
    assert |d| == |pre|;
    assert forall i :: 0 <= i < |pre| ==> s[i] == pre[i];
    assert s[|pre|] == t;
    DeliveredUnique(s, d);
  }
}
