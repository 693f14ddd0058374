/**
 * Text primitives the command handlers rely on: decoding a byte string as
 * UTF-8 with malformed input dropped (Python's `bytes.decode("utf-8",
 * errors="ignore")`), `str.strip()`, `str.upper()` restricted to ASCII,
 * the substring test `a in b`, and `str()` of an integer.
 */
module Text {

  newtype byte = x: int | 0 <= x < 256

  // ---------------------------------------------------------------------
  // UTF-8
  // ---------------------------------------------------------------------

  /** A Unicode scalar value: what a Dafny `char` may hold. */
  predicate IsScalar(cp: int) {
    0 <= cp < 0xD800 || 0xE000 <= cp < 0x11_0000
  }

  predicate IsCont(b: byte) {
    0x80 <= b <= 0xBF
  }

  /** The second byte of a multi-byte sequence, whose range depends on the lead byte
    * (this rules out overlong forms, surrogates and code points above U+10FFFF). */
  predicate SecondOk(lead: byte, b: byte) {
    if lead == 0xE0 then 0xA0 <= b <= 0xBF
    else if lead == 0xED then 0x80 <= b <= 0x9F
    else if lead == 0xF0 then 0x90 <= b <= 0xBF
    else if lead == 0xF4 then 0x80 <= b <= 0x8F
    else IsCont(b)
  }

  /** Length of the well-formed UTF-8 sequence at the start of `b`, or 0 when
    * `b` does not start with one. */
  function SeqLen(b: seq<byte>): (n: nat)
    ensures n <= 4 && n <= |b|
  {
    if |b| == 0 then 0
    else if b[0] < 0x80 then 1
    else if 0xC2 <= b[0] <= 0xDF then
      (if |b| >= 2 && IsCont(b[1]) then 2 else 0)
    else if 0xE0 <= b[0] <= 0xEF then
      (if |b| >= 3 && SecondOk(b[0], b[1]) && IsCont(b[2]) then 3 else 0)
    else if 0xF0 <= b[0] <= 0xF4 then
      (if |b| >= 4 && SecondOk(b[0], b[1]) && IsCont(b[2]) && IsCont(b[3]) then 4 else 0)
    else 0
  }

  /** The code point of the well-formed sequence at the start of `b`. */
  function CodePoint(b: seq<byte>): (cp: int)
    requires SeqLen(b) > 0
    ensures IsScalar(cp)
  {
    var n := SeqLen(b);
    if n == 1 then b[0] as int
    else if n == 2 then (b[0] as int - 0xC0) * 64 + (b[1] as int - 0x80)
    else if n == 3 then
      (b[0] as int - 0xE0) * 4096 + (b[1] as int - 0x80) * 64 + (b[2] as int - 0x80)
    else
      (b[0] as int - 0xF0) * 262144 + (b[1] as int - 0x80) * 4096
      + (b[2] as int - 0x80) * 64 + (b[3] as int - 0x80)
  }

  /** UTF-8 decoding that drops malformed input. Every byte that does not start
    * a well-formed sequence is skipped on its own; since the bytes of a broken
    * sequence after its lead are continuation bytes, which never start one,
    * this drops exactly what Python's "ignore" error handler drops. */
  function DecodeIgnore(b: seq<byte>): string
    decreases |b|
  {
    if |b| == 0 then ""
    else
      var n := SeqLen(b);
      if n == 0 then DecodeIgnore(b[1..])
      else [CodePoint(b) as char] + DecodeIgnore(b[n..])
  }

  /** The UTF-8 encoding of one character. */
  function EncodeChar(c: char): (e: seq<byte>)
    ensures 1 <= |e| <= 4
  {
    var cp := c as int;
    if cp < 0x80 then [cp as byte]
    else if cp < 0x800 then [(0xC0 + cp / 64) as byte, (0x80 + cp % 64) as byte]
    else if cp < 0x1_0000 then
      [(0xE0 + cp / 4096) as byte, (0x80 + (cp / 64) % 64) as byte, (0x80 + cp % 64) as byte]
    else
      [(0xF0 + cp / 262144) as byte, (0x80 + (cp / 4096) % 64) as byte,
       (0x80 + (cp / 64) % 64) as byte, (0x80 + cp % 64) as byte]
  }

  /** The UTF-8 encoding of a string, as a client sends it in a ByteString. */
  function Encode(s: string): seq<byte>
  {
    if |s| == 0 then [] else EncodeChar(s[0]) + Encode(s[1..])
  }

  lemma TwoByteSeq(cp: int, b: seq<byte>)
    requires 0x80 <= cp < 0x800
    requires |b| >= 2 && b[0] as int == 0xC0 + cp / 64 && b[1] as int == 0x80 + cp % 64
    ensures SeqLen(b) == 2 && CodePoint(b) == cp
  {
  }

  lemma ThreeByteSeq(cp: int, b: seq<byte>)
    requires 0x800 <= cp < 0x1_0000 && IsScalar(cp)
    requires |b| >= 3 && b[0] as int == 0xE0 + cp / 4096
    requires b[1] as int == 0x80 + (cp / 64) % 64 && b[2] as int == 0x80 + cp % 64
    ensures SeqLen(b) == 3 && CodePoint(b) == cp
  {
    var q1, lo := cp / 64, cp % 64;
    var hi, mid := q1 / 64, q1 % 64;
    assert cp == q1 * 64 + lo && q1 == hi * 64 + mid;
    assert cp / 4096 == hi;
    ThreeBytes(hi, mid, lo, b);
  }

  /** Three bytes carrying the digits `hi`, `mid`, `lo` in base 64. */
  lemma ThreeBytes(hi: int, mid: int, lo: int, b: seq<byte>)
    requires 0 <= hi < 16 && 0 <= mid < 64 && 0 <= lo < 64
    requires hi == 0 ==> mid >= 32
    requires hi == 13 ==> mid < 32
    requires |b| >= 3 && b[0] as int == 0xE0 + hi && b[1] as int == 0x80 + mid && b[2] as int == 0x80 + lo
    ensures SeqLen(b) == 3 && CodePoint(b) == hi * 4096 + mid * 64 + lo
  {
  }

  lemma FourByteSeq(cp: int, b: seq<byte>)
    requires 0x1_0000 <= cp < 0x11_0000
    requires |b| >= 4 && b[0] as int == 0xF0 + cp / 262144
    requires b[1] as int == 0x80 + (cp / 4096) % 64
    requires b[2] as int == 0x80 + (cp / 64) % 64 && b[3] as int == 0x80 + cp % 64
    ensures SeqLen(b) == 4 && CodePoint(b) == cp
  {
    var q1, lo := cp / 64, cp % 64;
    var q2, mid := q1 / 64, q1 % 64;
    var top, hi := q2 / 64, q2 % 64;
    assert cp == q1 * 64 + lo && q1 == q2 * 64 + mid && q2 == top * 64 + hi;
    assert cp / 4096 == q2;
    assert cp / 262144 == top;
    FourBytes(top, hi, mid, lo, b);
  }

  /** Four bytes carrying the digits `top`, `hi`, `mid`, `lo` in base 64. */
  lemma FourBytes(top: int, hi: int, mid: int, lo: int, b: seq<byte>)
    requires 0 <= top <= 4 && 0 <= hi < 64 && 0 <= mid < 64 && 0 <= lo < 64
    requires top == 0 ==> hi >= 16
    requires top == 4 ==> hi < 16
    requires |b| >= 4 && b[0] as int == 0xF0 + top && b[1] as int == 0x80 + hi
    requires b[2] as int == 0x80 + mid && b[3] as int == 0x80 + lo
    ensures SeqLen(b) == 4 && CodePoint(b) == top * 262144 + hi * 4096 + mid * 64 + lo
  {
  }

  /** The encoding of a character is recognised as one well-formed sequence
    * that decodes back to the character, whatever follows it. */
  lemma EncodeCharDecodes(c: char, rest: seq<byte>)
    ensures SeqLen(EncodeChar(c) + rest) == |EncodeChar(c)|
    ensures CodePoint(EncodeChar(c) + rest) == c as int
  {
    var cp := c as int;
    var e := EncodeChar(c);
    var b := e + rest;
    assert forall k :: 0 <= k < |e| ==> b[k] == e[k];
    if cp < 0x80 {
    } else if cp < 0x800 {
      TwoByteSeq(cp, b);
    } else if cp < 0x1_0000 {
      ThreeByteSeq(cp, b);
    } else {
      FourByteSeq(cp, b);
    }
  }

  /** Round trip: decoding the UTF-8 encoding of any string gives the string
    * back, so nothing is dropped from well-formed input. */
  lemma {:induction false} DecodeEncode(s: string)
    ensures DecodeIgnore(Encode(s)) == s
  {
    if |s| > 0 {
      var e := EncodeChar(s[0]);
      var rest := Encode(s[1..]);
      EncodeCharDecodes(s[0], rest);
      assert (e + rest)[|e|..] == rest;
      DecodeEncode(s[1..]);
    }
  }

  /** Decoding never produces more characters than there are bytes. */
  lemma {:induction false} DecodeShrinks(b: seq<byte>)
    ensures |DecodeIgnore(b)| <= |b|
    decreases |b|
  {
    if |b| > 0 {
      if SeqLen(b) == 0 {
        DecodeShrinks(b[1..]);
      } else {
        DecodeShrinks(b[SeqLen(b)..]);
      }
    }
  }

  /** Bytes below 0x80 (ASCII) decode one to one. */
  lemma {:induction false} DecodeAscii(b: seq<byte>)
    requires forall i :: 0 <= i < |b| ==> b[i] < 0x80
    ensures |DecodeIgnore(b)| == |b|
    ensures forall i :: 0 <= i < |b| ==> DecodeIgnore(b)[i] as int == b[i] as int
    decreases |b|
  {
    if |b| > 0 {
      DecodeAscii(b[1..]);
      assert DecodeIgnore(b) == [b[0] as char] + DecodeIgnore(b[1..]);
    }
  }

  // ---------------------------------------------------------------------
  // str.strip()
  // ---------------------------------------------------------------------

  /** The characters for which Python's `str.isspace()` holds: the ones
    * `str.strip()` removes. */
  const Spaces: set<char> :=
    {' ', '\t', '\n', '\U{0B}', '\U{0C}', '\r', '\U{1C}', '\U{1D}', '\U{1E}', '\U{1F}',
     '\U{85}', '\U{A0}', '\U{1680}',
     '\U{2000}', '\U{2001}', '\U{2002}', '\U{2003}', '\U{2004}', '\U{2005}',
     '\U{2006}', '\U{2007}', '\U{2008}', '\U{2009}', '\U{200A}',
     '\U{2028}', '\U{2029}', '\U{202F}', '\U{205F}', '\U{3000}'}

  predicate IsSpace(c: char) {
    c in Spaces
  }

  function TrimStart(s: string): string
  {
    if |s| > 0 && IsSpace(s[0]) then TrimStart(s[1..]) else s
  }

  function TrimEnd(s: string): string
  {
    if |s| > 0 && IsSpace(s[|s| - 1]) then TrimEnd(s[..|s| - 1]) else s
  }

  /** `str.strip()` with no argument. */
  function Strip(s: string): string
  {
    TrimEnd(TrimStart(s))
  }

  /** Every character of `s` is whitespace. */
  predicate AllSpace(s: string) {
    forall k :: 0 <= k < |s| ==> IsSpace(s[k])
  }

  /** Leading whitespace removal cuts off a prefix made only of whitespace
    * and leaves a text that does not start with whitespace. */
  lemma {:induction false} TrimStartSpec(s: string)
    ensures exists i :: 0 <= i <= |s| && TrimStart(s) == s[i..] && AllSpace(s[..i])
    ensures |TrimStart(s)| > 0 ==> !IsSpace(TrimStart(s)[0])
  {
    if |s| > 0 && IsSpace(s[0]) {
      TrimStartSpec(s[1..]);
      var i :| 0 <= i <= |s| - 1 && TrimStart(s[1..]) == s[1..][i..] && AllSpace(s[1..][..i]);
      TrimStartStep(s, i);
    } else {
      assert TrimStart(s) == s[0..] && s[..0] == [];
    }
  }

  /** One leading space more: the cut point moves one place right. */
  lemma TrimStartStep(s: string, i: nat)
    requires |s| > 0 && IsSpace(s[0]) && i <= |s| - 1
    requires TrimStart(s[1..]) == s[1..][i..] && AllSpace(s[1..][..i])
    ensures TrimStart(s) == s[i + 1..] && AllSpace(s[..i + 1])
  {
    assert s[1..][i..] == s[i + 1..];
    assert s[..i + 1] == [s[0]] + s[1..][..i];
  }

  /** Trailing whitespace removal cuts off a suffix made only of whitespace
    * and leaves a text that does not end with whitespace. */
  lemma {:induction false} TrimEndSpec(s: string)
    ensures exists j :: 0 <= j <= |s| && TrimEnd(s) == s[..j] && AllSpace(s[j..])
    ensures |TrimEnd(s)| > 0 ==> !IsSpace(TrimEnd(s)[|TrimEnd(s)| - 1])
  {
    if |s| > 0 && IsSpace(s[|s| - 1]) {
      TrimEndSpec(s[..|s| - 1]);
      var j :| 0 <= j <= |s| - 1 && TrimEnd(s[..|s| - 1]) == s[..|s| - 1][..j] && AllSpace(s[..|s| - 1][j..]);
      TrimEndStep(s, j);
    } else {
      assert TrimEnd(s) == s[..|s|] && s[|s|..] == [];
    }
  }

  /** One trailing space more: the cut point stays where it was. */
  lemma TrimEndStep(s: string, j: nat)
    requires |s| > 0 && IsSpace(s[|s| - 1]) && j <= |s| - 1
    requires TrimEnd(s[..|s| - 1]) == s[..|s| - 1][..j] && AllSpace(s[..|s| - 1][j..])
    ensures TrimEnd(s) == s[..j] && AllSpace(s[j..])
  {
    assert s[..|s| - 1][..j] == s[..j];
    assert s[j..] == s[..|s| - 1][j..] + [s[|s| - 1]];
  }

  /** `Strip(s)` is the part of `s` left once the leading and trailing
    * whitespace is cut away: a slice of `s`, everything outside it is
    * whitespace, and it neither starts nor ends with whitespace. */
  lemma StripSpec(s: string)
    ensures exists i, j :: 0 <= i <= j <= |s| && Strip(s) == s[i..j] && AllSpace(s[..i]) && AllSpace(s[j..])
    ensures |Strip(s)| > 0 ==> !IsSpace(Strip(s)[0]) && !IsSpace(Strip(s)[|Strip(s)| - 1])
  {
    StripSlice(s);
    StripEdges(s);
  }

  lemma StripSlice(s: string)
    ensures exists i, j :: 0 <= i <= j <= |s| && Strip(s) == s[i..j] && AllSpace(s[..i]) && AllSpace(s[j..])
  {
    TrimStartSpec(s);
    var i :| 0 <= i <= |s| && TrimStart(s) == s[i..] && AllSpace(s[..i]);
    TrimEndSpec(s[i..]);
    var j :| 0 <= j <= |s| - i && TrimEnd(s[i..]) == s[i..][..j] && AllSpace(s[i..][j..]);
    StripAt(s, i, j);
  }

  /** The slice `Strip(s)` once the cut points of both trims are known. */
  lemma StripAt(s: string, i: nat, j: nat)
    requires i <= |s| && j <= |s| - i
    requires TrimStart(s) == s[i..] && AllSpace(s[..i])
    requires TrimEnd(s[i..]) == s[i..][..j] && AllSpace(s[i..][j..])
    ensures 0 <= i <= i + j <= |s| && Strip(s) == s[i..i + j] && AllSpace(s[..i]) && AllSpace(s[i + j..])
  {
    assert s[i..][..j] == s[i..i + j];
    assert s[i..][j..] == s[i + j..];
  }

  lemma StripEdges(s: string)
    ensures |Strip(s)| > 0 ==> !IsSpace(Strip(s)[0]) && !IsSpace(Strip(s)[|Strip(s)| - 1])
  {
    var t := TrimStart(s);
    TrimStartSpec(s);
    TrimEndSpec(t);
    if |TrimEnd(t)| > 0 {
      var j :| 0 <= j <= |t| && TrimEnd(t) == t[..j] && AllSpace(t[j..]);
      assert TrimEnd(t)[0] == t[0];
    }
  }

  /** A text that neither starts nor ends with whitespace is left unchanged. */
  lemma StripKeeps(s: string)
    requires |s| > 0 ==> !IsSpace(s[0]) && !IsSpace(s[|s| - 1])
    ensures Strip(s) == s
  {
  }

  /** Stripping twice is stripping once. */
  lemma StripIdempotent(s: string)
    ensures Strip(Strip(s)) == Strip(s)
  {
    StripSpec(s);
    StripKeeps(Strip(s));
  }

  // ---------------------------------------------------------------------
  // str.upper(), substring test, str(int)
  // ---------------------------------------------------------------------

  function UpperChar(c: char): char
  {
    if 'a' <= c <= 'z' then (c as int - 32) as char else c
  }

  /** `str.upper()` on the ASCII letters; other characters are kept. */
  function Upper(s: string): (u: string)
    ensures |u| == |s|
    ensures forall i :: 0 <= i < |s| ==> u[i] == UpperChar(s[i])
  {
    if |s| == 0 then "" else [UpperChar(s[0])] + Upper(s[1..])
  }

  /** True when `t` is made of upper-case ASCII letters and underscores, the
    * alphabet of the command tokens the handlers compare against. */
  predicate IsToken(t: string) {
    forall i :: 0 <= i < |t| ==> 'A' <= t[i] <= 'Z' || t[i] == '_'
  }

  /** The case-insensitive token test: `s.upper() == t` holds exactly when
    * `s` spells `t` with each letter in either case. */
  lemma UpperMatches(s: string, t: string)
    requires IsToken(t)
    ensures Upper(s) == t <==>
      |s| == |t| && forall i :: 0 <= i < |s| ==>
        s[i] == t[i] || (t[i] != '_' && s[i] as int == t[i] as int + 32)
  {
    var u := Upper(s);
    forall i | 0 <= i < |s| && i < |t|
      ensures u[i] == t[i] <==> s[i] == t[i] || (t[i] != '_' && s[i] as int == t[i] as int + 32)
    {
      UpperCharMatches(s[i], t[i]);
    }
    if |s| == |t| && forall i :: 0 <= i < |s| ==> u[i] == t[i] {
      assert u == t;
    }
  }

  /** One position of the token test. */
  lemma UpperCharMatches(c: char, d: char)
    requires 'A' <= d <= 'Z' || d == '_'
    ensures UpperChar(c) == d <==> c == d || (d != '_' && c as int == d as int + 32)
  {
  }

  /** Upper-casing is idempotent. */
  lemma UpperIdempotent(s: string)
    ensures Upper(Upper(s)) == Upper(s)
  {
    assert forall i :: 0 <= i < |s| ==> Upper(Upper(s))[i] == Upper(s)[i];
  }

  /** Python's `a in b` on two strings. */
  predicate IsSubstring(a: string, b: string) {
    exists i :: 0 <= i <= |b| - |a| && OccursAt(a, b, i)
  }

  predicate OccursAt(a: string, b: string, i: int)
    requires 0 <= i <= |b| - |a|
  {
    b[i..i + |a|] == a
  }

  /** A text that starts with `a` contains it. */
  lemma PrefixOccurs(a: string, b: string)
    requires |a| <= |b| && forall k :: 0 <= k < |a| ==> b[k] == a[k]
    ensures IsSubstring(a, b)
  {
    assert b[0..|a|] == a;
    assert OccursAt(a, b, 0);
  }

  /** A text in which the first two characters of `a` never appear side by
    * side cannot contain `a`. */
  lemma NoOccurrence(a: string, b: string)
    requires |a| >= 2
    requires forall i :: 0 <= i < |b| - 1 ==> b[i] != a[0] || b[i + 1] != a[1]
    ensures !IsSubstring(a, b)
  {
    forall i | 0 <= i <= |b| - |a| ensures !OccursAt(a, b, i) {
      assert b[i..i + |a|][0] == b[i] && b[i..i + |a|][1] == b[i + 1];
    }
  }

  function DigitChar(d: int): char
    requires 0 <= d < 10
  {
    ('0' as int + d) as char
  }

  function NatToString(n: nat): (s: string)
    ensures |s| > 0
    ensures forall k :: 0 <= k < |s| ==> '0' <= s[k] <= '9'
    decreases n
  {
    if n < 10 then [DigitChar(n)] else NatToString(n / 10) + [DigitChar(n % 10)]
  }

  /** Python's `str()` of an integer: its decimal digits, with a leading
    * minus sign when negative. */
  function IntToString(i: int): (s: string)
    ensures |s| > 0
    ensures (s[0] == '-') == (i < 0)
  {
    if i < 0 then "-" + NatToString(-i) else NatToString(i)
  }

  /** The decimal text of a number reads back as that number. */
  function DigitsValue(s: string): int
    requires forall k :: 0 <= k < |s| ==> '0' <= s[k] <= '9'
  {
    if |s| == 0 then 0
    else DigitsValue(s[..|s| - 1]) * 10 + (s[|s| - 1] as int - '0' as int)
  }

  lemma {:induction false} NatToStringValue(n: nat)
    ensures DigitsValue(NatToString(n)) == n
    decreases n
  {
    if n >= 10 {
      NatToStringValue(n / 10);
      var s := NatToString(n);
      assert s[..|s| - 1] == NatToString(n / 10);
    }
  }
}
