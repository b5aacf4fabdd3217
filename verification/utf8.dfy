/** Strings as sequences of UTF-16 code units, and their UTF-8 bytes (RFC 3629, section 3). */
module Utf8 {

  type Unit = x: int | 0 <= x < 0x1_0000
  type Byte = x: int | 0 <= x < 0x100

  predicate High(u: int) { 0xD800 <= u < 0xDC00 }
  predicate Low(u: int) { 0xDC00 <= u < 0xE000 }

  // A Unicode scalar value.
  predicate Scalar(c: int) { 0 <= c < 0xD800 || 0xE000 <= c < 0x11_0000 }

  predicate Scalars(cs: seq<int>) { forall i :: 0 <= i < |cs| ==> Scalar(cs[i]) }

  const REPLACEMENT: int := 0xFFFD

  // The first code point of a string and the units it takes; a lone surrogate reads as U+FFFD.
  function FirstPoint(s: seq<Unit>): (r: (int, nat))
    requires s != []
    ensures Scalar(r.0) && 1 <= r.1 <= 2 && r.1 <= |s|
  {
    var first: int := s[0];
    if High(first) && |s| > 1 && Low(s[1]) then
      var second: int := s[1];
      (0x1_0000 + (first - 0xD800) * 0x400 + (second - 0xDC00), 2)
    else if High(first) || Low(first) then (REPLACEMENT, 1)
    else (first, 1)
  }

  function CodePoints(s: seq<Unit>): (cs: seq<int>)
    ensures Scalars(cs)
  {
    if s == [] then []
    else
      var (c, n) := FirstPoint(s);
      [c] + CodePoints(s[n..])
  }

  predicate WellFormed(s: seq<Unit>) {
    s == [] ||
    (if High(s[0]) then |s| > 1 && Low(s[1]) && WellFormed(s[2..])
     else !Low(s[0]) && WellFormed(s[1..]))
  }

  function PointUnits(c: int): seq<Unit>
    requires Scalar(c)
  {
    if c < 0x1_0000 then [c] else [0xD800 + (c - 0x1_0000) / 0x400, 0xDC00 + (c - 0x1_0000) % 0x400]
  }

  function Units(cs: seq<int>): seq<Unit>
    requires Scalars(cs)
  {
    if cs == [] then [] else PointUnits(cs[0]) + Units(cs[1..])
  }

  function PointBytes(c: int): seq<Byte>
    requires Scalar(c)
  {
    if c < 0x80 then [c]
    else if c < 0x800 then [0xC0 + c / 0x40, 0x80 + c % 0x40]
    else if c < 0x1_0000 then [0xE0 + c / 0x1000, 0x80 + c / 0x40 % 0x40, 0x80 + c % 0x40]
    else [0xF0 + c / 0x4_0000, 0x80 + c / 0x1000 % 0x40, 0x80 + c / 0x40 % 0x40, 0x80 + c % 0x40]
  }

  function PointsBytes(cs: seq<int>): seq<Byte>
    requires Scalars(cs)
  {
    if cs == [] then [] else PointBytes(cs[0]) + PointsBytes(cs[1..])
  }

  function Encode(s: seq<Unit>): seq<Byte> {
    PointsBytes(CodePoints(s))
  }

  predicate Between(b: seq<Byte>, i: nat, lo: int, hi: int) {
    i < |b| && lo <= b[i] <= hi
  }

  // The payload of a continuation byte.
  function Low6(b: seq<Byte>, i: nat): int
    requires i < |b|
  {
    var x: int := b[i];
    x - 0x80
  }

  // The first code point of a byte string and the bytes it takes. A malformed start gives U+FFFD
  // for its longest well-formed prefix.
  function FirstDecoded(b: seq<Byte>): (r: (int, nat))
    requires b != []
    ensures Scalar(r.0) && 1 <= r.1 <= |b|
  {
    var b0: int := b[0];
    if b0 < 0x80 then (b0, 1)
    else if 0xC2 <= b0 <= 0xDF then
      if Between(b, 1, 0x80, 0xBF) then ((b0 - 0xC0) * 0x40 + Low6(b, 1), 2) else (REPLACEMENT, 1)
    else if 0xE0 <= b0 <= 0xEF then
      if !Between(b, 1, if b0 == 0xE0 then 0xA0 else 0x80, if b0 == 0xED then 0x9F else 0xBF)
      then (REPLACEMENT, 1)
      else if !Between(b, 2, 0x80, 0xBF) then (REPLACEMENT, 2)
      else ((b0 - 0xE0) * 0x1000 + Low6(b, 1) * 0x40 + Low6(b, 2), 3)
    else if 0xF0 <= b0 <= 0xF4 then
      if !Between(b, 1, if b0 == 0xF0 then 0x90 else 0x80, if b0 == 0xF4 then 0x8F else 0xBF)
      then (REPLACEMENT, 1)
      else if !Between(b, 2, 0x80, 0xBF) then (REPLACEMENT, 2)
      else if !Between(b, 3, 0x80, 0xBF) then (REPLACEMENT, 3)
      else ((b0 - 0xF0) * 0x4_0000 + Low6(b, 1) * 0x1000 + Low6(b, 2) * 0x40 + Low6(b, 3), 4)
    else (REPLACEMENT, 1)
  }

  function DecodedPoints(b: seq<Byte>): (cs: seq<int>)
    ensures Scalars(cs)
  {
    if b == [] then []
    else
      var (c, n) := FirstDecoded(b);
      [c] + DecodedPoints(b[n..])
  }

  function Decode(b: seq<Byte>): seq<Unit> {
    Units(DecodedPoints(b))
  }

  // ---- round trips ----

  lemma FirstDecodedShort(c: int, rest: seq<Byte>)
    requires Scalar(c) && c < 0x1_0000
    ensures FirstDecoded(PointBytes(c) + rest) == (c, |PointBytes(c)|)
  {
    if c >= 0x800 {
      var q := c / 0x40;
      assert c == q * 0x40 + c % 0x40 && q == c / 0x1000 * 0x40 + q % 0x40;
    }
  }

  lemma FirstDecodedLong(c: int, rest: seq<Byte>)
    requires Scalar(c) && c >= 0x1_0000
    ensures FirstDecoded(PointBytes(c) + rest) == (c, |PointBytes(c)|)
  {
    var p, q := c / 0x1000, c / 0x40;
    assert c == q * 0x40 + c % 0x40 && q == p * 0x40 + q % 0x40 && p == c / 0x4_0000 * 0x40 + p % 0x40;
  }

  lemma FirstDecodedOfPoint(c: int, rest: seq<Byte>)
    requires Scalar(c)
    ensures FirstDecoded(PointBytes(c) + rest) == (c, |PointBytes(c)|)
  {
    if c < 0x1_0000 {
      FirstDecodedShort(c, rest);
    } else {
      FirstDecodedLong(c, rest);
    }
  }

  lemma {:induction false} DecodedEncoded(cs: seq<int>)
    requires Scalars(cs)
    ensures DecodedPoints(PointsBytes(cs)) == cs
  {
    if cs != [] {
      var head, rest := PointBytes(cs[0]), PointsBytes(cs[1..]);
      FirstDecodedOfPoint(cs[0], rest);
      assert (head + rest)[|head|..] == rest;
      DecodedEncoded(cs[1..]);
    }
  }

  lemma {:induction false} UnitsOfCodePoints(s: seq<Unit>)
    requires WellFormed(s)
    ensures Units(CodePoints(s)) == s
  {
    if s != [] {
      var (c, n) := FirstPoint(s);
      UnitsOfCodePoints(s[n..]);
      assert s == s[..n] + s[n..];
      assert CodePoints(s)[1..] == CodePoints(s[n..]);
    }
  }

  lemma FirstPointOfUnits(c: int, rest: seq<Unit>)
    requires Scalar(c)
    ensures FirstPoint(PointUnits(c) + rest) == (c, |PointUnits(c)|)
    ensures WellFormed(rest) ==> WellFormed(PointUnits(c) + rest)
  {
    var s := PointUnits(c) + rest;
    assert s[|PointUnits(c)|..] == rest;
    if c >= 0x1_0000 {
      var d := c - 0x1_0000;
      assert d == d / 0x400 * 0x400 + d % 0x400 && d / 0x400 < 0x400;
    }
  }

  lemma {:induction false} UnitsWellFormed(cs: seq<int>)
    requires Scalars(cs)
    ensures WellFormed(Units(cs)) && CodePoints(Units(cs)) == cs
  {
    if cs != [] {
      UnitsWellFormed(cs[1..]);
      FirstPointOfUnits(cs[0], Units(cs[1..]));
      var u := PointUnits(cs[0]);
      assert (u + Units(cs[1..]))[|u|..] == Units(cs[1..]);
    }
  }

  /** Decoding the UTF-8 bytes of a well-formed string gives the string back. */
  lemma DecodeEncode(s: seq<Unit>)
    requires WellFormed(s)
    ensures Decode(Encode(s)) == s
  {
    DecodedEncoded(CodePoints(s));
    UnitsOfCodePoints(s);
  }

  /** Whatever the bytes, the decoded string is well-formed. */
  lemma DecodeWellFormed(b: seq<Byte>)
    ensures WellFormed(Decode(b))
  {
    UnitsWellFormed(DecodedPoints(b));
  }

  lemma {:induction false} WellFormedConcat(a: seq<Unit>, b: seq<Unit>)
    requires WellFormed(a) && WellFormed(b)
    ensures WellFormed(a + b)
  {
    if a == [] {
      assert a + b == b;
    } else {
      var n := if High(a[0]) then 2 else 1;
      WellFormedConcat(a[n..], b);
      assert (a + b)[n..] == a[n..] + b;
    }
  }

  lemma {:induction false} PlainWellFormed(s: seq<Unit>)
    requires forall k :: 0 <= k < |s| ==> !High(s[k]) && !Low(s[k])
    ensures WellFormed(s)
  {
    if s != [] {
      PlainWellFormed(s[1..]);
    }
  }
}
