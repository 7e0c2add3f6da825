/** The client's own step: the acknowledgement check in `_send`. */
module Client {
  import opened Base
  import opened Ascii
  import opened Framing

  /**
   * `_send` after the request header: `recv(2)` must be "ok", otherwise
   * the client raises before any section is sent; then every section is
   * sent. Returns the remaining inbox, the outbox, and the outcome.
   */
  function SendBody(inbox: Chan, outbox: Chan, payload: seq<Byte>): (r: (Chan, Chan, Result<()>))
    ensures r.2.Ok? <==> Recv(inbox, 2).0 == OkBytes
    ensures r.2.Ok? ==> r.1 == outbox + Split(payload)
    ensures r.2.Err? ==> r.1 == outbox && r.2 == Err(ProtocolError)
  {
    var (ack, rest) := Recv(inbox, 2);
    if ack != OkBytes then (rest, outbox, Err(ProtocolError))
    else (rest, outbox + Split(payload), Ok(()))
  }

  /** When the server is gone the client reads end of stream for the ack and raises. */
  lemma ClosedPeerRejected(outbox: Chan, payload: seq<Byte>)
    ensures SendBody([], outbox, payload) == ([], outbox, Err(ProtocolError))
  {
  }
}
