/**
 * The chunked framing shared by client and server: a header
 * `{"sections": n}`, a two-byte "ok" acknowledgement, then `n` slices of
 * at most 1024 bytes of the JSON payload.
 */
module Framing {
  import opened Base
  import opened Ascii
  import opened JsonCodec

  const ChunkSize: nat := 1024

  /**
   * One direction of an ideal in-order connection: the byte strings sent
   * and not yet received, oldest first.
   */
  type Chan = seq<seq<Byte>>

  function Flatten(ss: seq<seq<Byte>>): seq<Byte>
  {
    if |ss| == 0 then [] else ss[0] + Flatten(ss[1..])
  }

  lemma {:induction false} FlattenConcat(a: seq<seq<Byte>>, b: seq<seq<Byte>>)
    ensures Flatten(a + b) == Flatten(a) + Flatten(b)
  {
    if |a| > 0 {
      assert (a + b)[1..] == a[1..] + b;
      FlattenConcat(a[1..], b);
    } else {
      assert a + b == b;
    }
  }

  /**
   * `sock.recv(max)`: at most `max` bytes of the oldest pending send; a
   * longer send leaves its tail pending. With nothing pending the peer has
   * closed and the result is empty. No byte is lost or reordered.
   */
  function Recv(ch: Chan, max: nat): (r: (seq<Byte>, Chan))
    ensures |r.0| <= max
    ensures r.0 + Flatten(r.1) == Flatten(ch)
    ensures |ch| > 0 && |ch[0]| <= max ==> r.0 == ch[0] && r.1 == ch[1..]
  {
    if |ch| == 0 then ([], [])
    else if |ch[0]| <= max then (ch[0], ch[1..])
    else
      var rest := [ch[0][max..]] + ch[1..];
      assert rest[1..] == ch[1..];
      assert ch[0][..max] + ch[0][max..] == ch[0];
      (ch[0][..max], rest)
  }

  /** The ceiling of len/1024: the number of sections a payload of `len` bytes needs. */
  function Sections(len: nat): (n: nat)
    ensures n * 1024 >= len
    ensures n * 1024 < len + 1024
  {
    (len + 1023) / 1024
  }

  /** Python's clamped slice `b[lo:hi]`. */
  function Slice(b: seq<Byte>, lo: nat, hi: nat): (r: seq<Byte>)
    ensures lo <= hi <= |b| ==> r == b[lo..hi]
    ensures lo < |b| && |b| <= hi ==> r == b[lo..]
    ensures |b| <= lo ==> r == []
  {
    var l := if lo < |b| then lo else |b|;
    var h := if hi < |b| then hi else |b|;
    if l <= h then b[l..h] else []
  }

  /** Section `i` of a payload: the bytes from 1024*i up to 1024*(i+1), clamped. */
  function Chunk(b: seq<Byte>, i: nat): seq<Byte>
  {
    Slice(b, 1024 * i, 1024 * (i + 1))
  }

  function Chunks(b: seq<Byte>, k: nat): (cs: seq<seq<Byte>>)
    ensures |cs| == k
  {
    seq(k, i requires 0 <= i < k => Chunk(b, i))
  }

  lemma {:induction false} FlattenChunks(b: seq<Byte>, k: nat)
    requires k <= Sections(|b|)
    ensures 1024 * k <= |b| ==> Flatten(Chunks(b, k)) == b[..1024 * k]
    ensures 1024 * k > |b| ==> Flatten(Chunks(b, k)) == b
  {
    if k > 0 {
      var j := k - 1;
      FlattenChunks(b, j);
      assert Chunks(b, k) == Chunks(b, j) + [Chunk(b, j)];
      FlattenConcat(Chunks(b, j), [Chunk(b, j)]);
      assert Flatten([Chunk(b, j)]) == Chunk(b, j) by {
        assert [Chunk(b, j)][1..] == [];
      }
      assert 1024 * j < |b|;
      if 1024 * k <= |b| {
        assert b[..1024 * j] + b[1024 * j..1024 * k] == b[..1024 * k];
      } else {
        assert b[..1024 * j] + b[1024 * j..] == b;
      }
    }
  }

  /**
   * The sections `_send` writes, in order: there are `ceil(L/1024)` of
   * them, none is empty, all but the last hold exactly 1024 bytes, each is
   * ASCII when the payload is, and together they are the payload.
   */
  function Split(b: seq<Byte>): (cs: seq<seq<Byte>>)
    ensures |cs| == Sections(|b|)
    ensures forall i :: 0 <= i < |cs| ==> 0 < |cs[i]| <= ChunkSize
    ensures forall i :: 0 <= i < |cs| - 1 ==> |cs[i]| == ChunkSize
    ensures forall i :: 0 <= i < |cs| ==> cs[i] == Slice(b, 1024 * i, 1024 * (i + 1))
    ensures AsciiBytes(b) ==> forall i :: 0 <= i < |cs| ==> AsciiBytes(cs[i])
    ensures Flatten(cs) == b
  {
    var n := Sections(|b|);
    FlattenChunks(b, n);
    assert forall i :: 0 <= i < n ==> 1024 * i < |b|;
    Chunks(b, n)
  }

  /** The header object `{"sections": n}`. */
  function HeaderJson(n: int): Json
  {
    Obj(map["sections" := Int(n)])
  }

  /** The payload: the JSON text of `v`, as bytes. */
  function Payload(c: Codec, v: Json): seq<Byte>
  {
    ToBytes(c.dumps(v))
  }

  /** The encoded header announcing the sections of `payload`. */
  function HeaderBytes(c: Codec, payload: seq<Byte>): seq<Byte>
  {
    ToBytes(c.dumps(HeaderJson(Sections(|payload|))))
  }

  /** The header must arrive in the single `recv(1024)` that reads it. */
  predicate HeaderFits(c: Codec, payload: seq<Byte>)
  {
    |HeaderBytes(c, payload)| <= ChunkSize
  }

  /** The two-byte acknowledgement "ok". */
  const OkBytes: seq<Byte> := [111, 107]

  /**
   * The sender's first step: send the header, one ASCII send queued after
   * everything sent before, which decodes to `{"sections": n}` for the
   * payload's section count `n`.
   */
  function SendHeader(c: Codec, outbox: Chan, payload: seq<Byte>): (r: Chan)
    ensures |r| == |outbox| + 1 && r[..|outbox|] == outbox
    ensures AsciiBytes(r[|outbox|])
    ensures DecodeAscii(r[|outbox|]).Some?
    ensures Lawful(c) ==> c.loads(DecodeAscii(r[|outbox|]).value) == Some(HeaderJson(Sections(|payload|)))
  {
    DecodeToBytes(c.dumps(HeaderJson(Sections(|payload|))));
    outbox + [HeaderBytes(c, payload)]
  }

  /**
   * The section count the header names: an integer (a bool counts
   * as 0 or 1); a missing field or a non-object header is the error Python
   * raises, and any other value is a TypeError.
   */
  function SectionsOf(h: Json): (r: Result<int>)
    ensures h.Obj? && "sections" in h.fields && h.fields["sections"].Int? ==>
              r == Ok(h.fields["sections"].i)
    ensures r.Err? <==> !(h.Obj? && "sections" in h.fields
                          && (h.fields["sections"].Int? || h.fields["sections"].Bool?))
  {
    var s :- Index(h, "sections");
    match s
    case Int(n) => Ok(n)
    case Bool(b) => Ok(if b then 1 else 0)
    case _ => Err(TypeError)
  }

  /**
   * The receiver's first step: one `recv(1024)`, decoded and parsed as
   * JSON, then "ok" is sent back. The `sections` field is not looked at yet.
   */
  function ReadHeader(c: Codec, inbox: Chan, outbox: Chan): (r: Result<(Json, Chan, Chan)>)
    ensures r.Ok? ==> r.value.2 == outbox + [OkBytes]
    ensures r.Ok? ==> |Flatten(r.value.1)| + ChunkSize >= |Flatten(inbox)|
  {
    var (data, rest) := Recv(inbox, ChunkSize);
    var text :- DecodeAscii(data).ToResult(UnicodeDecodeError);
    var header :- c.loads(text).ToResult(ValueError);
    Ok((header, rest, outbox + [OkBytes]))
  }

  /**
   * Reading `n` sections, each one receive of at most 1024 bytes decoded and appended: the
   * text read is exactly the bytes taken off the front of the stream, at
   * most 1024 per iteration.
   */
  function ReadChunks(inbox: Chan, n: int): (r: Result<(string, Chan)>)
    decreases if n > 0 then n else 0
    ensures r.Ok? ==> IsAscii(r.value.0) && ToBytes(r.value.0) + Flatten(r.value.1) == Flatten(inbox)
    ensures r.Ok? ==> |r.value.0| <= ChunkSize * (if n > 0 then n else 0)
    ensures r.Err? ==> r.error == UnicodeDecodeError
  {
    if n <= 0 then Ok(("", inbox))
    else
      var (data, rest) := Recv(inbox, ChunkSize);
      match DecodeAscii(data)
      case None => Err(UnicodeDecodeError)
      case Some(text) =>
        match ReadChunks(rest, n - 1)
        case Err(e) => Err(e)
        case Ok((more, left)) =>
          ToBytesConcat(text, more);
          Ok((text + more, left))
  }

  /** The receiver's second step: read the announced sections and parse their concatenation. */
  function ReadBody(c: Codec, header: Json, inbox: Chan): (r: Result<(Json, Chan)>)
    ensures SectionsOf(header).Err? ==> r == Err(SectionsOf(header).error)
  {
    var n :- SectionsOf(header);
    var (text, rest) :- ReadChunks(inbox, n);
    var v :- c.loads(text).ToResult(ValueError);
    Ok((v, rest))
  }

  /** A header that fits in one read is read back whole and announces the sender's section count. */
  lemma HeaderRoundTrip(c: Codec, payload: seq<Byte>, rest: Chan, outbox: Chan)
    requires Lawful(c)
    requires HeaderFits(c, payload)
    ensures ReadHeader(c, [HeaderBytes(c, payload)] + rest, outbox)
            == Ok((HeaderJson(Sections(|payload|)), rest, outbox + [OkBytes]))
    ensures SectionsOf(HeaderJson(Sections(|payload|))) == Ok(Sections(|payload|))
  {
    var inbox := [HeaderBytes(c, payload)] + rest;
    assert inbox[1..] == rest;
    DecodeToBytes(c.dumps(HeaderJson(Sections(|payload|))));
  }

  /**
   * Reading `|cs|` sections off a stream that starts with sections of at
   * most 1024 ASCII bytes each takes exactly those sections, and the text
   * read encodes their concatenation.
   */
  lemma {:induction false} ReadChunksWhole(cs: seq<seq<Byte>>, rest: Chan)
    requires forall i :: 0 <= i < |cs| ==> |cs[i]| <= ChunkSize && AsciiBytes(cs[i])
    ensures ReadChunks(cs + rest, |cs|).Ok?
    ensures ReadChunks(cs + rest, |cs|).value.1 == rest
    ensures ToBytes(ReadChunks(cs + rest, |cs|).value.0) == Flatten(cs)
  {
    if |cs| == 0 {
      assert cs + rest == rest;
    } else {
      var inbox := cs + rest;
      assert inbox[0] == cs[0];
      assert inbox[1..] == cs[1..] + rest;
      ReadChunksWhole(cs[1..], rest);
      var text := DecodeAscii(cs[0]).value;
      var more := ReadChunks(cs[1..] + rest, |cs| - 1).value.0;
      ToBytesConcat(text, more);
    }
  }

  /**
   * Framing round trip for the payload: reading the announced number of
   * sections from the stream the sender wrote yields the original value
   * and leaves whatever followed.
   */
  lemma BodyRoundTrip(c: Codec, v: Json, rest: Chan)
    requires Lawful(c)
    ensures ReadBody(c, HeaderJson(Sections(|Payload(c, v)|)), Split(Payload(c, v)) + rest) == Ok((v, rest))
  {
    var p := Payload(c, v);
    var cs := Split(p);
    ReadChunksWhole(cs, rest);
    var text := ReadChunks(cs + rest, |cs|).value.0;
    ToBytesInjective(text, c.dumps(v));
  }

  /**
   * One whole phase over an ideal connection: the sender writes the header,
   * the receiver reads it and acknowledges, the sender writes the sections,
   * and the receiver reconstructs exactly the value sent.
   */
  lemma PhaseRoundTrip(c: Codec, v: Json)
    requires Lawful(c)
    requires HeaderFits(c, Payload(c, v))
    ensures var p := Payload(c, v);
            var h := ReadHeader(c, SendHeader(c, [], p), []);
            && h.Ok?
            && h.value.2 == [OkBytes]
            && ReadBody(c, h.value.0, h.value.1 + Split(p)) == Ok((v, []))
  {
    var p := Payload(c, v);
    HeaderRoundTrip(c, p, [], []);
    assert SendHeader(c, [], p) == [HeaderBytes(c, p)] + [];
    BodyRoundTrip(c, v, []);
    assert [] + Split(p) == Split(p) + [];
  }

  /** The boundary sizes: an empty payload has no sections, 1024 bytes one full one, 1025 bytes a full one and a single byte. */
  lemma SectionBoundaries(b: seq<Byte>)
    ensures |b| == 0 ==> Split(b) == []
    ensures |b| == 1024 ==> Split(b) == [b]
    ensures |b| == 1025 ==> Split(b) == [b[..1024], b[1024..]]
  {
    if |b| == 1024 {
      assert Split(b)[0] == b;
    } else if |b| == 1025 {
      assert Split(b)[0] == b[..1024];
      assert Split(b)[1] == b[1024..];
    }
  }
}
