/** The text `JSON.stringify` gives for a string. */
module JsonText {
  import opened Utf8
  import opened Ascii

  const QUOTE: Unit := '\"' as int
  const BACKSLASH: Unit := '\\' as int

  function Hex(d: nat): Unit
    requires d < 16
  {
    if d < 10 then '0' as int + d else 'a' as int + d - 10
  }

  function UnicodeEscape(u: Unit): (r: seq<Unit>)
    ensures |r| == 6 && r[0] == BACKSLASH && r[1] == 'u' as int
    ensures forall k :: 2 <= k < 6 ==> '0' as int <= r[k] <= '9' as int || 'a' as int <= r[k] <= 'f' as int
  {
    var x: int := u;
    [BACKSLASH, 'u' as int, Hex(x / 0x1000), Hex(x / 0x100 % 16), Hex(x / 16 % 16), Hex(x % 16)]
  }

  // The units with a two-unit escape, and the letter of each.
  function ShortEscape(u: Unit): (letter: int)
    ensures letter == 0 || 0x20 <= letter < 0x80
  {
    if u == QUOTE || u == BACKSLASH then u
    else if u == 8 then 'b' as int
    else if u == 9 then 't' as int
    else if u == 10 then 'n' as int
    else if u == 12 then 'f' as int
    else if u == 13 then 'r' as int
    else 0
  }

  // The quoted form of the first unit, or of the first two when they are a surrogate pair.
  function FirstQuoted(s: seq<Unit>): (r: (seq<Unit>, nat))
    requires s != []
    ensures 1 <= r.1 <= |s| && r.0 != []
  {
    if High(s[0]) && |s| > 1 && Low(s[1]) then (s[..2], 2)
    else if High(s[0]) || Low(s[0]) then (UnicodeEscape(s[0]), 1)
    else if ShortEscape(s[0]) != 0 then ([BACKSLASH, ShortEscape(s[0])], 1)
    else if s[0] < 0x20 then (UnicodeEscape(s[0]), 1)
    else (s[..1], 1)
  }

  function Inside(s: seq<Unit>): seq<Unit> {
    if s == [] then [] else FirstQuoted(s).0 + Inside(s[FirstQuoted(s).1..])
  }

  function Quote(s: seq<Unit>): seq<Unit> {
    [QUOTE] + Inside(s) + [QUOTE]
  }

  // Quoting adds no unit of its own other than a quote, a backslash, a letter or a digit.
  lemma {:induction false} InsideAvoids(s: seq<Unit>, u: Unit)
    requires u !in s || u < 0x20
    requires u == '#' as int || u < 0x20
    ensures u !in Inside(s)
  {
    if s != [] {
      InsideAvoids(s[FirstQuoted(s).1..], u);
    }
  }

  lemma {:induction false} InsideWellFormed(s: seq<Unit>)
    ensures WellFormed(Inside(s))
  {
    if s != [] {
      var (piece, n) := FirstQuoted(s);
      InsideWellFormed(s[n..]);
      assert WellFormed(piece) by {
        if |piece| == 6 {
          assert forall k :: 0 <= k < 6 ==> !High(piece[k]) && !Low(piece[k]);
          PlainWellFormed(piece);
        }
      }
      WellFormedConcat(piece, Inside(s[n..]));
    }
  }

  lemma QuoteWellFormed(s: seq<Unit>)
    ensures WellFormed(Quote(s))
  {
    InsideWellFormed(s);
    WellFormedConcat([QUOTE], Inside(s));
    WellFormedConcat([QUOTE] + Inside(s), [QUOTE]);
  }

  // ---- quoting loses nothing ----

  lemma UnicodeEscapeInjective(u: Unit, v: Unit)
    requires UnicodeEscape(u) == UnicodeEscape(v)
    ensures u == v
  {
    var a, b := UnicodeEscape(u), UnicodeEscape(v);
    assert a[2] == b[2] && a[3] == b[3] && a[4] == b[4] && a[5] == b[5];
    Hexes(u);
    Hexes(v);
    HexInjective(u / 0x1000, v / 0x1000);
    HexInjective(u / 0x100 % 16, v / 0x100 % 16);
    HexInjective(u / 16 % 16, v / 16 % 16);
    HexInjective(u % 16, v % 16);
  }

  lemma Hexes(u: int)
    requires 0 <= u < 0x1_0000
    ensures u == u / 0x1000 * 0x1000 + u / 0x100 % 16 * 0x100 + u / 16 % 16 * 16 + u % 16
  {
    var (a, b) := (u / 16, u / 0x100);
    assert u == a * 16 + u % 16;
    assert b == a / 16 && a == b * 16 + a % 16;
    assert u / 0x1000 == b / 16 && b == b / 16 * 16 + b % 16;
  }

  lemma HexInjective(d: nat, e: nat)
    requires d < 16 && e < 16 && Hex(d) == Hex(e)
    ensures d == e
  {
  }

  // Two quoted texts that start alike start with the same units.
  lemma SamePiece(a: seq<Unit>, b: seq<Unit>, x: seq<Unit>, y: seq<Unit>)
    requires a != [] && b != [] && FirstQuoted(a).0 + x == FirstQuoted(b).0 + y
    ensures FirstQuoted(a).0 == FirstQuoted(b).0 && x == y
    ensures a[..FirstQuoted(a).1] == b[..FirstQuoted(b).1]
  {
    var (p, n) := FirstQuoted(a);
    var (q, m) := FirstQuoted(b);
    var s := p + x;
    assert s[0] == p[0] == q[0];
    PieceShape(a);
    PieceShape(b);
    assert |p| > 1 ==> s[1] == p[1];
    assert |q| > 1 ==> (q + y)[1] == q[1];
    assert |p| == |q|;
    assert p == s[..|p|] && q == (q + y)[..|q|];
    assert x == s[|p|..] && y == (q + y)[|q|..];
    if |p| == 6 {
      UnicodeEscapeInjective(a[0], b[0]);
    }
  }

  // A piece tells its own length: a pair, an escape, or one unit.
  lemma PieceShape(s: seq<Unit>)
    requires s != []
    ensures var (p, n) := FirstQuoted(s);
      p[0] != QUOTE && n <= 2
      && (n == 2 <==> High(p[0])) && (n == 2 ==> p == s[..2])
      && (p[0] == BACKSLASH ==> |p| >= 2 && n == 1 && (|p| == 6 <==> p[1] == 'u' as int))
      && (p[0] != BACKSLASH && n == 1 ==> p == s[..1])
      && (|p| == 6 ==> p == UnicodeEscape(s[0]))
      && (|p| == 2 && n == 1 ==> p[0] == BACKSLASH && p[1] == ShortEscape(s[0]))
      && (|p| == 1 || |p| == 2 || |p| == 6)
      && (|p| == 1 ==> p[0] != BACKSLASH && n == 1)
  {
  }

  lemma ClosingFirst(s: seq<Unit>, x: seq<Unit>)
    ensures (Inside(s) + ([QUOTE] + x))[0] == QUOTE <==> s == []
  {
    if s != [] {
      PieceShape(s);
    }
  }

  lemma {:induction false} InsideInjective(a: seq<Unit>, b: seq<Unit>, x: seq<Unit>, y: seq<Unit>)
    requires Inside(a) + ([QUOTE] + x) == Inside(b) + ([QUOTE] + y)
    ensures a == b && x == y
  {
    hide FirstQuoted;
    ClosingFirst(a, x);
    ClosingFirst(b, y);
    if a == [] && b == [] {
      assert ([QUOTE] + x)[1..] == x && ([QUOTE] + y)[1..] == y;
      assert [] + ([QUOTE] + x) == [QUOTE] + x && [] + ([QUOTE] + y) == [QUOTE] + y;
    } else if a != [] && b != [] {
      var (p, n) := FirstQuoted(a);
      var (q, m) := FirstQuoted(b);
      assert Inside(a) + ([QUOTE] + x) == p + (Inside(a[n..]) + ([QUOTE] + x));
      assert Inside(b) + ([QUOTE] + y) == q + (Inside(b[m..]) + ([QUOTE] + y));
      SamePiece(a, b, Inside(a[n..]) + ([QUOTE] + x), Inside(b[m..]) + ([QUOTE] + y));
      InsideInjective(a[n..], b[m..], x, y);
      assert a == a[..n] + a[n..] && b == b[..m] + b[m..];
    }
  }

  /** A quoted text can be read back in one way only, whatever follows it. */
  lemma QuoteInjective(a: seq<Unit>, b: seq<Unit>, x: seq<Unit>, y: seq<Unit>)
    requires Quote(a) + x == Quote(b) + y
    ensures a == b && x == y
  {
    assert (Quote(a) + x)[1..] == Inside(a) + ([QUOTE] + x);
    assert (Quote(b) + y)[1..] == Inside(b) + ([QUOTE] + y);
    InsideInjective(a, b, x, y);
  }
}
