/**
 * Bytes and the text they carry. `json.dumps` escapes every non-ASCII
 * character, so everything the programs put on the wire is ASCII, and
 * UTF-8 encoding is then one byte per character.
 */
module Ascii {
  import opened Base

  type Byte = b: int | 0 <= b < 256

  predicate IsAscii(s: string) {
    forall i :: 0 <= i < |s| ==> s[i] as int < 128
  }

  type AsciiString = s: string | IsAscii(s)

  predicate AsciiBytes(b: seq<Byte>) {
    forall i :: 0 <= i < |b| ==> b[i] < 128
  }

  /** `str.encode('utf-8')` on ASCII text. */
  function ToBytes(s: AsciiString): (b: seq<Byte>)
    ensures |b| == |s|
    ensures AsciiBytes(b)
  {
    seq(|s|, i requires 0 <= i < |s| => s[i] as int)
  }

  /**
   * `bytes.decode('utf-8')`, restricted to ASCII: the result is the text
   * whose encoding is exactly `b`, and any byte of 128 or more fails.
   */
  function DecodeAscii(b: seq<Byte>): (r: Option<string>)
    ensures r.Some? <==> AsciiBytes(b)
    ensures r.Some? ==> IsAscii(r.value) && ToBytes(r.value) == b
  {
    if AsciiBytes(b) then
      Some(seq(|b|, i requires 0 <= i < |b| => b[i] as char))
    else
      None
  }

  /** Encoding is injective, so decoding an encoding gives the text back. */
  lemma ToBytesInjective(s: AsciiString, t: AsciiString)
    requires ToBytes(s) == ToBytes(t)
    ensures s == t
  {
    assert |s| == |t|;
    forall i | 0 <= i < |s|
      ensures s[i] == t[i]
    {
      assert ToBytes(s)[i] == ToBytes(t)[i];
    }
  }

  lemma DecodeToBytes(s: AsciiString)
    ensures DecodeAscii(ToBytes(s)) == Some(s)
  {
    var r := DecodeAscii(ToBytes(s));
    ToBytesInjective(r.value, s);
  }

  lemma ToBytesConcat(s: AsciiString, t: AsciiString)
    ensures IsAscii(s + t)
    ensures ToBytes(s + t) == ToBytes(s) + ToBytes(t)
  {
    assert IsAscii(s + t) by {
      forall i | 0 <= i < |s + t|
        ensures (s + t)[i] as int < 128
      {
        if i < |s| { assert (s + t)[i] == s[i]; } else { assert (s + t)[i] == t[i - |s|]; }
      }
    }
  }

  /**
   * Decoding chunk by chunk and concatenating is the same as decoding the
   * concatenation: the one fails exactly when the other does.
   */
  lemma DecodeConcat(x: seq<Byte>, y: seq<Byte>)
    ensures DecodeAscii(x + y).Some? <==> DecodeAscii(x).Some? && DecodeAscii(y).Some?
    ensures DecodeAscii(x + y).Some? ==>
              DecodeAscii(x + y).value == DecodeAscii(x).value + DecodeAscii(y).value
  {
    if AsciiBytes(x + y) {
      assert AsciiBytes(x) by {
        forall i | 0 <= i < |x| ensures x[i] < 128 { assert (x + y)[i] == x[i]; }
      }
      assert AsciiBytes(y) by {
        forall i | 0 <= i < |y| ensures y[i] < 128 { assert (x + y)[|x| + i] == y[i]; }
      }
      var s, t := DecodeAscii(x).value, DecodeAscii(y).value;
      ToBytesConcat(s, t);
      ToBytesInjective(DecodeAscii(x + y).value, s + t);
    } else {
      var i :| 0 <= i < |x + y| && (x + y)[i] >= 128;
      if i < |x| { assert (x + y)[i] == x[i]; } else { assert (x + y)[i] == y[i - |x|]; }
    }
  }
}
