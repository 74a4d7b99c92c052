/**
 * The responses the combiner hands back to the HTTP host.  Headers are not
 * modelled: every response carries the same fixed `Server` header, and the
 * streamed response also a fixed content type.
 */
module Http {
  import opened Streams

  datatype Reply =
    | Text(status: int, text: string)   // a plain response with a text body
    | Empty(status: int)                 // a plain response without a body
    | Streamed(chunks: seq<Bytes>)        // a chunked stream response, written chunk by chunk

  /** The status line of a reply; a stream response is sent with 200. */
  function Status(r: Reply): int
  {
    match r
    case Text(s, _) => s
    case Empty(s) => s
    case Streamed(_) => 200
  }

  const NotFoundReply: Reply := Text(404, "NOT FOUND\n")
  const InvalidReply: Reply := Text(400, "INVALID REQUEST\n")
  const NoContent: Reply := Empty(204)

  const ConnectErrorPrefix: string := "Connect error: "

  /** The gateway failure a pump reports when the outbound connection failed. */
  function ConnectError(msg: string): (r: Reply)
    ensures Status(r) == 504 && r.Text?
    ensures |r.text| == |ConnectErrorPrefix| + |msg|
    ensures r.text[..|ConnectErrorPrefix|] == "Connect error: " && r.text[|ConnectErrorPrefix|..] == msg
  {
    Text(504, ConnectErrorPrefix + msg)
  }

  /** Recovers the connect error's message from a gateway failure reply. */
  function ErrorMessage(r: Reply): (msg: string)
    requires r.Text? && |r.text| >= |ConnectErrorPrefix|
  {
    r.text[|ConnectErrorPrefix|..]
  }

  /** The error text is carried unchanged: a 504 reply determines its message. */
  lemma ConnectErrorCarriesMessage(msg: string, msg': string)
    ensures ErrorMessage(ConnectError(msg)) == msg
    ensures ConnectError(msg) == ConnectError(msg') <==> msg == msg'
  {
  }
}
