/** Unpadded base64url (RFC 4648, section 5) and the lenient decoder that token values go through. */
module Base64Url {
  import opened Utf8

  type Sextet = x: int | 0 <= x < 64

  function Digit(v: Sextet): Unit {
    if v < 26 then 'A' as int + v
    else if v < 52 then 'a' as int + (v - 26)
    else if v < 62 then '0' as int + (v - 52)
    else if v == 62 then '-' as int
    else '_' as int
  }

  // -1 for a unit outside the alphabet. The decoder also takes the '+' and '/' of plain base64.
  function Value(u: Unit): (v: int)
    ensures -1 <= v < 64
  {
    if 'A' as int <= u <= 'Z' as int then u - 'A' as int
    else if 'a' as int <= u <= 'z' as int then u - 'a' as int + 26
    else if '0' as int <= u <= '9' as int then u - '0' as int + 52
    else if u == '-' as int || u == '+' as int then 62
    else if u == '_' as int || u == '/' as int then 63
    else -1
  }

  // Three bytes are four sextets; a tail of one or two bytes is two or three sextets.
  function Sextets(b: seq<Byte>): seq<Sextet> {
    if |b| == 0 then []
    else
      var b0: int := b[0];
      if |b| == 1 then [b0 / 4, b0 % 4 * 16]
      else
        var b1: int := b[1];
        var y := b0 % 4 * 16 + b1 / 16;
        if |b| == 2 then [b0 / 4, y, b1 % 16 * 4]
        else
          var b2: int := b[2];
          [b0 / 4, y, b1 % 16 * 4 + b2 / 64, b2 % 64] + Sextets(b[3..])
  }

  function Digits(v: seq<Sextet>): seq<Unit> {
    if v == [] then [] else [Digit(v[0])] + Digits(v[1..])
  }

  function Encode(b: seq<Byte>): seq<Unit> {
    Digits(Sextets(b))
  }

  // Units outside the alphabet are skipped.
  function Values(s: seq<Unit>): seq<Sextet> {
    if s == [] then []
    else if Value(s[0]) < 0 then Values(s[1..])
    else [Value(s[0])] + Values(s[1..])
  }

  // Leftover bits of an incomplete tail are dropped.
  function Bytes(v: seq<Sextet>): seq<Byte> {
    if |v| < 2 then []
    else
      var v0: int, v1: int := v[0], v[1];
      var x := v0 * 4 + v1 / 16;
      if |v| == 2 then [x]
      else
        var v2: int := v[2];
        var y := v1 % 16 * 16 + v2 / 4;
        if |v| == 3 then [x, y]
        else
          var v3: int := v[3];
          [x, y, v2 % 4 * 64 + v3] + Bytes(v[4..])
  }

  function Decode(s: seq<Unit>): seq<Byte> {
    Bytes(Values(s))
  }

  lemma {:induction false} ValuesOfDigits(v: seq<Sextet>)
    ensures Values(Digits(v)) == v
  {
    if v != [] {
      ValuesOfDigits(v[1..]);
      assert Digits(v)[1..] == Digits(v[1..]);
    }
  }

  lemma {:induction false} BytesOfSextets(b: seq<Byte>)
    ensures Bytes(Sextets(b)) == b
  {
    if |b| >= 3 {
      BytesOfSextets(b[3..]);
      assert Sextets(b)[4..] == Sextets(b[3..]);
      assert b == b[..3] + b[3..];
    }
  }

  /** Decoding inverts encoding on every byte string. */
  lemma DecodeEncode(b: seq<Byte>)
    ensures Decode(Encode(b)) == b
  {
    ValuesOfDigits(Sextets(b));
    BytesOfSextets(b);
  }

  predicate InAlphabet(u: Unit) {
    Value(u) >= 0 && u != '+' as int && u != '/' as int
  }

  lemma {:induction false} DigitsInAlphabet(v: seq<Sextet>)
    ensures forall i :: 0 <= i < |Digits(v)| ==> InAlphabet(Digits(v)[i])
    ensures |Digits(v)| == |v|
  {
    if v != [] {
      DigitsInAlphabet(v[1..]);
    }
  }
}
