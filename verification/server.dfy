/** The server's own steps: its constructor's load/save and the sending half of `_send`. */
module Server {
  import opened Base
  import opened Ascii
  import opened JsonCodec
  import opened Framing
  import opened Store

  /**
   * `Server.__init__` (`data = {}`, `_load`, `_save`) followed by the
   * `_load` that `autosave` runs before `handle`. It fails only when the
   * data file exists and does not load; afterwards the data file holds the
   * data in memory: what was on disk, or `{}` for a fresh store.
   */
  function Boot(c: Codec, st: Store): (r: Out<()>)
    ensures r.st.disk.lockFile == st.disk.lockFile
    ensures Lawful(c) ==> (r.res.Ok? <==> st.disk.dataFile.None? || Persisted(c, st.disk).Some?)
    ensures Lawful(c) && r.res.Ok? ==> Persisted(c, r.st.disk) == Some(r.st.mem)
    ensures Lawful(c) && st.disk.dataFile.None? ==> r.st.mem == Obj(map[])
    ensures Lawful(c) && Persisted(c, st.disk).Some? ==> r.st.mem == Persisted(c, st.disk).value
  {
    var init := Load(c, st.(mem := Obj(map[])));
    if init.res.Err? then init
    else Load(c, Save(c, init.st))
  }

  /**
   * The rest of `_send` after the header: `recv(2)` takes the
   * acknowledgement without looking at it, then every section is sent.
   */
  function SendBody(inbox: Chan, outbox: Chan, payload: seq<Byte>): (r: (Chan, Chan))
    ensures r.1 == outbox + Split(payload)
    ensures |Flatten(inbox)| - |Flatten(r.0)| <= 2
  {
    var (_, rest) := Recv(inbox, 2);
    (rest, outbox + Split(payload))
  }

  /** Whatever the client answers to the header, the server sends the same sections. */
  lemma AckIgnored(inbox1: Chan, inbox2: Chan, outbox: Chan, payload: seq<Byte>)
    ensures SendBody(inbox1, outbox, payload).1 == SendBody(inbox2, outbox, payload).1
  {
  }
}
