/** Decimal text: how a pid is written into the lock token and how Python's `int()` reads it back. */
module Decimal {
  import opened Base

  predicate IsDigit(ch: char) {
    '0' <= ch <= '9'
  }

  predicate IsDigits(s: string) {
    |s| > 0 && forall i :: 0 <= i < |s| ==> IsDigit(s[i])
  }

  /** The whitespace Python strips from bytes: space, \t, \n, \v, \f and \r. */
  predicate IsSpace(ch: char) {
    ch == ' ' || 9 <= ch as int <= 13
  }

  function DigitChar(d: nat): (ch: char)
    requires d < 10
    ensures IsDigit(ch)
  {
    ('0' as int + d) as char
  }

  function DigitValue(ch: char): nat
    requires IsDigit(ch)
  {
    ch as int - '0' as int
  }

  /** `str(n)` for a non-negative integer. */
  function Show(n: nat): (s: string)
    ensures IsDigits(s)
  {
    if n < 10 then [DigitChar(n)] else Show(n / 10) + [DigitChar(n % 10)]
  }

  /** The value of a string of decimal digits, most significant first. */
  function DigitsValue(s: string): nat
    requires forall i :: 0 <= i < |s| ==> IsDigit(s[i])
  {
    if |s| == 0 then 0 else DigitsValue(s[..|s| - 1]) * 10 + DigitValue(s[|s| - 1])
  }

  /** `s.rstrip()`: drops trailing whitespace. */
  function RStrip(s: string): (r: string)
    ensures |r| <= |s| && r == s[..|r|]
    ensures |r| > 0 ==> !IsSpace(r[|r| - 1])
    ensures forall i :: |r| <= i < |s| ==> IsSpace(s[i])
  {
    if |s| > 0 && IsSpace(s[|s| - 1]) then RStrip(s[..|s| - 1]) else s
  }

  /** `s.lstrip()`: drops leading whitespace. */
  function LStrip(s: string): (r: string)
    ensures |r| <= |s| && r == s[|s| - |r|..]
    ensures |r| > 0 ==> !IsSpace(r[0])
    ensures forall i :: 0 <= i < |s| - |r| ==> IsSpace(s[i])
  {
    if |s| > 0 && IsSpace(s[0]) then LStrip(s[1..]) else s
  }

  /**
   * One or more decimal digits, optionally after a sign; whitespace may
   * separate the sign from the digits, as CPython 2.7's `PyOS_strtol`
   * skips whitespace again once it has read the sign.
   */
  predicate IsNumeral(t: string) {
    IsDigits(t) || (|t| > 0 && (t[0] == '+' || t[0] == '-') && IsDigits(LStrip(t[1..])))
  }

  /** Stripping trailing whitespace from text ending in a non-space gives that text back. */
  lemma {:induction false} RStripPadded(a: string, post: string)
    requires forall i :: 0 <= i < |post| ==> IsSpace(post[i])
    requires |a| > 0 && !IsSpace(a[|a| - 1])
    ensures RStrip(a + post) == a
    decreases |post|
  {
    if |post| > 0 {
      var shorter := post[..|post| - 1];
      assert (a + post)[..|a + post| - 1] == a + shorter;
      RStripPadded(a, shorter);
    } else {
      assert a + post == a;
    }
  }

  /** Stripping leading whitespace from text starting with a non-space gives that text back. */
  lemma {:induction false} LStripPadded(pre: string, s: string)
    requires forall i :: 0 <= i < |pre| ==> IsSpace(pre[i])
    requires |s| > 0 && !IsSpace(s[0])
    ensures LStrip(pre + s) == s
    decreases |pre|
  {
    if |pre| > 0 {
      assert (pre + s)[1..] == pre[1..] + s;
      LStripPadded(pre[1..], s);
    } else {
      assert pre + s == s;
    }
  }

  /** The value of a numeral, or `None` for text that is not one. */
  function ParseNumeral(t: string): (r: Option<int>)
    ensures r.Some? <==> IsNumeral(t)
    ensures r.Some? && r.value < 0 ==> t[0] == '-'
  {
    if |t| > 0 && (t[0] == '+' || t[0] == '-') then
      var d := LStrip(t[1..]);
      if IsDigits(d) then
        var magnitude: int := DigitsValue(d);
        Some(if t[0] == '-' then -magnitude else magnitude)
      else None
    else if IsDigits(t) then
      Some(DigitsValue(t))
    else
      None
  }

  /**
   * Python's `int()` on text: optional surrounding whitespace, an optional
   * sign, optional whitespace, then one or more decimal digits; anything
   * else is a ValueError, modelled as `None`.
   */
  function ParseInt(s: string): (r: Option<int>)
    ensures r.Some? <==> IsNumeral(LStrip(RStrip(s)))
    ensures r.Some? && r.value < 0 ==> LStrip(RStrip(s))[0] == '-'
  {
    ParseNumeral(LStrip(RStrip(s)))
  }

  /** A numeral holds nothing but whitespace, digits and signs. */
  lemma NumeralAlphabet(t: string)
    requires IsNumeral(t)
    ensures forall i :: 0 <= i < |t| ==> IsSpace(t[i]) || IsDigit(t[i]) || t[i] == '+' || t[i] == '-'
  {
    if !IsDigits(t) {
      var u := t[1..];
      var d := LStrip(u);
      var gap := |u| - |d|;
      forall i | 1 <= i < |t|
        ensures IsSpace(t[i]) || IsDigit(t[i])
      {
        assert t[i] == u[i - 1];
        if i - 1 >= gap {
          assert u[i - 1] == d[i - 1 - gap];
        }
      }
    }
  }

  /** A character of the text that is not whitespace survives stripping, at a known offset. */
  lemma StrippedIndex(s: string, i: int)
    requires 0 <= i < |s| && !IsSpace(s[i])
    ensures var t := LStrip(RStrip(s)); var k := |RStrip(s)| - |t|;
            0 <= i - k < |t| && s[i] == t[i - k]
  {
    var rs := RStrip(s);
    var t := LStrip(rs);
    assert i < |rs|;
    assert s[i] == rs[i];
    var k := |rs| - |t|;
    assert k <= i;
    assert rs[i] == t[i - k];
  }

  /** Text `int()` accepts holds nothing but whitespace, digits and signs, so it is ASCII. */
  lemma ParsedAlphabet(s: string)
    requires ParseInt(s).Some?
    ensures forall i :: 0 <= i < |s| ==> IsSpace(s[i]) || IsDigit(s[i]) || s[i] == '+' || s[i] == '-'
  {
    NumeralAlphabet(LStrip(RStrip(s)));
    forall i | 0 <= i < |s| && !IsSpace(s[i])
      ensures IsDigit(s[i]) || s[i] == '+' || s[i] == '-'
    {
      StrippedIndex(s, i);
    }
  }

  /** Python's `int()` ignores the whitespace around a numeral. */
  lemma ParsePadded(s: string, pre: string, post: string)
    requires forall i :: 0 <= i < |pre| ==> IsSpace(pre[i])
    requires forall i :: 0 <= i < |post| ==> IsSpace(post[i])
    requires |s| > 0 && !IsSpace(s[0]) && !IsSpace(s[|s| - 1])
    ensures ParseInt(pre + s + post) == ParseInt(s)
  {
    assert (pre + s)[|pre + s| - 1] == s[|s| - 1];
    RStripPadded(pre + s, post);
    LStripPadded(pre, s);
    assert RStrip(s) == s;
    assert LStrip(s) == s;
    assert LStrip(RStrip(pre + s + post)) == LStrip(RStrip(s));
  }

  /** Text that starts and ends with a non-space is its own stripped form. */
  lemma StripTrimmed(s: string)
    requires |s| > 0 && !IsSpace(s[0]) && !IsSpace(s[|s| - 1])
    ensures LStrip(RStrip(s)) == s
  {
    assert RStrip(s) == s;
  }

  /** A sign, whitespace and digits are their own stripped form. */
  lemma SignedTrimmed(sign: char, gap: string, digits: string)
    requires sign == '+' || sign == '-'
    requires IsDigits(digits)
    ensures LStrip(RStrip([sign] + gap + digits)) == [sign] + gap + digits
  {
    var s := [sign] + gap + digits;
    assert s[0] == sign;
    assert s[|s| - 1] == digits[|digits| - 1];
    StripTrimmed(s);
  }

  /** After the sign, stripping the whitespace leaves the digits. */
  lemma SignedDigits(sign: char, gap: string, digits: string)
    requires forall i :: 0 <= i < |gap| ==> IsSpace(gap[i])
    requires IsDigits(digits)
    ensures LStrip(([sign] + gap + digits)[1..]) == digits
  {
    assert ([sign] + gap + digits)[1..] == gap + digits;
    LStripPadded(gap, digits);
  }

  /** A sign, whitespace and digits form a numeral whose value is the signed value of the digits. */
  lemma NumeralSigned(sign: char, gap: string, digits: string)
    requires sign == '+' || sign == '-'
    requires forall i :: 0 <= i < |gap| ==> IsSpace(gap[i])
    requires IsDigits(digits)
    ensures ParseNumeral([sign] + gap + digits) == Some(if sign == '-' then -(DigitsValue(digits) as int) else DigitsValue(digits))
  {
    SignedDigits(sign, gap, digits);
  }

  /** On text that stripping leaves alone, `int()` reads the numeral directly. */
  lemma ParseTrimmed(s: string)
    requires LStrip(RStrip(s)) == s
    ensures ParseInt(s) == ParseNumeral(s)
  {
  }

  /**
   * Whitespace between the sign and the digits does not change the value
   * read: a sign, whitespace and digits read as the signed value of the digits.
   */
  lemma ParseSignedDigits(sign: char, gap: string, digits: string)
    requires sign == '+' || sign == '-'
    requires forall i :: 0 <= i < |gap| ==> IsSpace(gap[i])
    requires IsDigits(digits)
    ensures ParseInt([sign] + gap + digits) == Some(if sign == '-' then -(DigitsValue(digits) as int) else DigitsValue(digits))
  {
    SignedTrimmed(sign, gap, digits);
    NumeralSigned(sign, gap, digits);
    ParseTrimmed([sign] + gap + digits);
  }

  lemma {:induction false} DigitsValueShow(n: nat)
    ensures DigitsValue(Show(n)) == n
  {
    if n >= 10 {
      var s := Show(n);
      assert s[..|s| - 1] == Show(n / 10);
      DigitsValueShow(n / 10);
    }
  }

  /** Reading back what `str(n)` wrote gives `n`. */
  lemma ParseShow(n: nat)
    ensures ParseInt(Show(n)) == Some(n)
  {
    var s := Show(n);
    assert RStrip(s) == s;
    assert LStrip(s) == s;
    DigitsValueShow(n);
  }

  /** A negative number written out is read back as that negative number. */
  lemma ParseShowNegative(n: nat)
    requires n > 0
    ensures ParseInt("-" + Show(n)) == Some(-(n as int))
  {
    var digits := Show(n);
    var s := "-" + digits;
    assert s[|s| - 1] == digits[|digits| - 1];
    StripTrimmed(s);
    assert s[1..] == digits;
    assert LStrip(digits) == digits;
    DigitsValueShow(n);
    ParseTrimmed(s);
  }
}
