/**
 * One client call end to end: the client's `_send` against the server's
 * constructor and `handle` over an ideal connection, and the client API
 * (`_communicate`, `message`, `get_data`) built on it.
 */
module Connection {
  import opened Base
  import opened Ascii
  import opened JsonCodec
  import opened Framing
  import opened Store
  import Server
  import Client

  /** What a connection leaves: the server's files and data, and what the client returned or raised. */
  datatype Exchanged = Exchanged(st: Store, reply: Result<Json>)

  /** The envelope: an object with a command and a data field. */
  function Envelope(command: string, data: Json): Json
  {
    Obj(map["command" := Str(command), "data" := data])
  }

  /** Receiving a whole frame when the peer has already sent everything it will send. */
  function ReceiveAll(c: Codec, inbox: Chan): Result<Json>
  {
    var (header, rest, _) :- ReadHeader(c, inbox, []);
    var (v, _) :- ReadBody(c, header, rest);
    Ok(v)
  }

  /**
   * One connection. Steps follow the order the blocking reads force:
   * request header, server start-up, server reads it and acks, client
   * checks the ack and sends the sections, server reads them into `data`,
   * server sends the response header, client reads it and acks, server
   * sends the sections and saves, client reads them. `handle` does no
   * dispatch: the response is the request and the request becomes `data`.
   */
  function Exchange(c: Codec, st: Store, request: Json): (x: Exchanged)
    ensures x.st.disk.lockFile == st.disk.lockFile
  {
    var reqBytes := Payload(c, request);
    var toServer := SendHeader(c, [], reqBytes);
    var boot := Server.Boot(c, st);
    var heard := if boot.res.Ok? then ReadHeader(c, toServer, []) else Err(boot.res.error);
    match heard
    case Err(_) =>
      // the handler raised before acknowledging; the client reads end of stream for the ack
      var (_, _, refused) := Client.SendBody([], toServer, reqBytes);
      Exchanged(boot.st, if refused.Err? then Err(refused.error) else Err(ProtocolError))
    case Ok((header, pending, toClient)) =>
      var (toClientRest, toServerFull, sent) := Client.SendBody(toClient, pending, reqBytes);
      if sent.Err? then
        // the server always acknowledges with "ok", so this does not happen
        Exchanged(boot.st, Err(sent.error))
      else
        match ReadBody(c, header, toServerFull)
        case Err(_) =>
          // handle raised while reading: nothing saved, nothing sent back
          Exchanged(boot.st, ReceiveAll(c, toClientRest))
        case Ok((received, toServerLeft)) =>
          var handled := boot.st.(mem := received);
          var respBytes := Payload(c, received);
          var saved := Save(c, handled);
          match ReadHeader(c, SendHeader(c, toClientRest, respBytes), toServerLeft)
          case Err(e) =>
            // the client raised; the server still sends its sections and saves
            Exchanged(saved, Err(e))
          case Ok((respHeader, toClientBody, acks)) =>
            var (_, toClientAll) := Server.SendBody(acks, toClientBody, respBytes);
            match ReadBody(c, respHeader, toClientAll)
            case Err(e) => Exchanged(saved, Err(e))
            case Ok((response, _)) => Exchanged(saved, Ok(response))
  }

  /**
   * `handle` over the framing: the client gets back exactly the request it
   * sent, and the server saves that request as its data, replacing what
   * was stored before.
   */
  lemma ExchangeEchoes(c: Codec, st: Store, request: Json)
    requires Lawful(c)
    requires Server.Boot(c, st).res.Ok?
    requires HeaderFits(c, Payload(c, request))
    ensures Exchange(c, st, request) == Exchanged(Save(c, Server.Boot(c, st).st.(mem := request)), Ok(request))
    ensures Persisted(c, Exchange(c, st, request).st.disk) == Some(request)
  {
    var p := Payload(c, request);
    var n := Sections(|p|);
    assert SendHeader(c, [], p) == [HeaderBytes(c, p)] + [];
    HeaderRoundTrip(c, p, [], []);
    assert Recv([OkBytes], 2) == (OkBytes, []);
    assert [] + Split(p) == Split(p) + [];
    BodyRoundTrip(c, request, []);
  }

  /** A start-up that fails (a data file that does not load) reaches the client as a refused ack. */
  lemma BootFailureRefused(c: Codec, st: Store, request: Json)
    requires Server.Boot(c, st).res.Err?
    ensures Exchange(c, st, request) == Exchanged(Server.Boot(c, st).st, Err(ProtocolError))
  {
    assert Recv([], 2) == ([], []);
  }

  /**
   * `_communicate`: a failed connect returns the string "Error while
   * communicating" and touches nothing; otherwise one exchange carries the
   * envelope.
   */
  function Communicate(c: Codec, connected: bool, st: Store, command: string, data: Json): (x: Exchanged)
    ensures !connected ==> x == Exchanged(st, Ok(Str("Error while communicating")))
    ensures connected ==> x == Exchange(c, st, Envelope(command, data))
  {
    if !connected then Exchanged(st, Ok(Str("Error while communicating")))
    else Exchange(c, st, Envelope(command, data))
  }

  /**
   * `Client.message(data)`: one connection carrying the "add data" envelope;
   * the lock token is never touched.
   */
  function Message(c: Codec, connected: bool, st: Store, data: Json): (x: Exchanged)
    ensures !connected ==> x == Exchanged(st, Ok(Str("Error while communicating")))
    ensures connected ==> x == Exchange(c, st, Obj(map["command" := Str("add data"), "data" := data]))
    ensures x.st.disk.lockFile == st.disk.lockFile
  {
    Communicate(c, connected, st, "add data", data)
  }

  /**
   * `Client.get_data()`: one connection carrying the "get data" envelope
   * with a null `data`; the lock token is never touched.
   */
  function GetData(c: Codec, connected: bool, st: Store): (x: Exchanged)
    ensures !connected ==> x == Exchanged(st, Ok(Str("Error while communicating")))
    ensures connected ==> x == Exchange(c, st, Obj(map["command" := Str("get data"), "data" := Null]))
    ensures x.st.disk.lockFile == st.disk.lockFile
  {
    Communicate(c, connected, st, "get data", Null)
  }

  /**
   * `message(d)` returns the envelope `{"command": "add data", "data": d}`
   * (test_functional.test_message), and the server's stored data becomes
   * that envelope.
   */
  lemma MessageEchoes(c: Codec, st: Store, d: Json)
    requires Lawful(c)
    requires Server.Boot(c, st).res.Ok?
    requires HeaderFits(c, Payload(c, Envelope("add data", d)))
    ensures Message(c, true, st, d).reply == Ok(Envelope("add data", d))
    ensures Persisted(c, Message(c, true, st, d).st.disk) == Some(Envelope("add data", d))
  {
    ExchangeEchoes(c, st, Envelope("add data", d));
  }

  /**
   * `get_data()` gets its own envelope back, not the stored mapping, and
   * the stored data is overwritten with that envelope: the handler has no
   * "get data" case.
   */
  lemma GetDataEchoes(c: Codec, st: Store)
    requires Lawful(c)
    requires Server.Boot(c, st).res.Ok?
    requires HeaderFits(c, Payload(c, Envelope("get data", Null)))
    ensures GetData(c, true, st).reply == Ok(Envelope("get data", Null))
    ensures Persisted(c, GetData(c, true, st).st.disk) == Some(Envelope("get data", Null))
  {
    ExchangeEchoes(c, st, Envelope("get data", Null));
  }

  /** A failed connect reports the generic marker and leaves the store alone. */
  lemma ConnectFailure(c: Codec, st: Store, d: Json)
    ensures Message(c, false, st, d) == Exchanged(st, Ok(Str("Error while communicating")))
    ensures GetData(c, false, st) == Exchanged(st, Ok(Str("Error while communicating")))
  {
  }
}
