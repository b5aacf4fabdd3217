/** Comparing strings by their UTF-8 bytes is comparing them by code points (RFC 3629, section 1). */
module Utf8Order {
  import opened Utf8

  // Lexicographic order: -1, 0 or 1.
  function Lex(a: seq<int>, b: seq<int>): (r: int)
    ensures -1 <= r <= 1
  {
    if a == [] then (if b == [] then 0 else -1)
    else if b == [] then 1
    else if a[0] < b[0] then -1
    else if a[0] > b[0] then 1
    else Lex(a[1..], b[1..])
  }

  function Sign(n: int): int { if n < 0 then -1 else if n > 0 then 1 else 0 }

  function Order(a: seq<Unit>, b: seq<Unit>): int {
    Lex(CodePoints(a), CodePoints(b))
  }

  lemma {:induction false} LexPrefix(p: seq<int>, a: seq<int>, b: seq<int>)
    ensures Lex(p + a, p + b) == Lex(a, b)
  {
    if p == [] {
      assert p + a == a && p + b == b;
    } else {
      assert (p + a)[1..] == p[1..] + a && (p + b)[1..] == p[1..] + b;
      LexPrefix(p[1..], a, b);
    }
  }

  // Where the bytes of two points part: equal before i, smaller at i.
  predicate PartsAt(a: seq<int>, b: seq<int>, i: nat) {
    i < |a| && i < |b| && a[..i] == b[..i] && a[i] < b[i]
  }

  lemma PartsDecide(a: seq<int>, b: seq<int>, i: nat, x: seq<int>, y: seq<int>)
    requires PartsAt(a, b, i)
    ensures Lex(a + x, b + y) == -1 && Lex(b + y, a + x) == 1
  {
    var p := a[..i];
    assert a + x == p + (a[i..] + x) && b + y == p + (b[i..] + y);
    LexPrefix(p, a[i..] + x, b[i..] + y);
    LexPrefix(p, b[i..] + y, a[i..] + x);
  }

  lemma PointsPart(c: int, d: int) returns (i: nat)
    requires Scalar(c) && Scalar(d) && c < d
    ensures PartsAt(PointBytes(c), PointBytes(d), i)
  {
    var a, b := PointBytes(c), PointBytes(d);
    if |a| != |b| {
      i := 0;
    } else if |a| == 1 {
      i := 0;
    } else {
      i := SameLengthParts(c, d);
    }
  }

  lemma SameLengthParts(c: int, d: int) returns (i: nat)
    requires Scalar(c) && Scalar(d) && 0x80 <= c < d && |PointBytes(c)| == |PointBytes(d)|
    ensures PartsAt(PointBytes(c), PointBytes(d), i)
  {
    hide PointBytes;
    QuotientsOrdered(c, d);
    Lengths(c);
    Lengths(d);
    if c / 0x40 == d / 0x40 {
      i := |PointBytes(c)| - 1;
      SameHead(c, d);
    } else if |PointBytes(c)| == 2 {
      i := 0;
      TwoBytes(c, d);
    } else if c / 0x1000 == d / 0x1000 {
      i := |PointBytes(c)| - 2;
      SameHead2(c, d);
    } else {
      i := if c < 0x1_0000 || c / 0x4_0000 != d / 0x4_0000 then 0 else 1;
      HighBytes(c, d);
    }
  }

  lemma QuotientsOrdered(c: int, d: int)
    requires 0 <= c <= d
    ensures c / 0x40 <= d / 0x40 && c / 0x1000 <= d / 0x1000 && c / 0x4_0000 <= d / 0x4_0000
  {
  }

  lemma Lengths(c: int)
    requires Scalar(c)
    ensures |PointBytes(c)| == if c < 0x80 then 1 else if c < 0x800 then 2 else if c < 0x1_0000 then 3 else 4
  {
  }

  lemma TwoBytes(c: int, d: int)
    requires 0x80 <= c < 0x800 && 0x80 <= d < 0x800 && c / 0x40 < d / 0x40
    ensures PartsAt(PointBytes(c), PointBytes(d), 0)
  {
  }

  lemma HighBytes(c: int, d: int)
    requires Scalar(c) && Scalar(d) && 0x800 <= c && 0x800 <= d && |PointBytes(c)| == |PointBytes(d)|
    requires c / 0x1000 < d / 0x1000 && c / 0x4_0000 <= d / 0x4_0000
    ensures PartsAt(PointBytes(c), PointBytes(d), if c < 0x1_0000 || c / 0x4_0000 != d / 0x4_0000 then 0 else 1)
  {
    Quotients(c);
    Quotients(d);
    var (c2, d2) := (c / 0x1000, d / 0x1000);
    assert c2 == c / 0x4_0000 * 0x40 + c2 % 0x40 && d2 == d / 0x4_0000 * 0x40 + d2 % 0x40;
  }

  lemma SameHead(c: int, d: int)
    requires Scalar(c) && Scalar(d) && 0x80 <= c < d && |PointBytes(c)| == |PointBytes(d)| && c / 0x40 == d / 0x40
    ensures var n := |PointBytes(c)| - 1; PartsAt(PointBytes(c), PointBytes(d), n)
  {
    Quotients(c);
    Quotients(d);
    assert c == c / 0x40 * 0x40 + c % 0x40 && d == d / 0x40 * 0x40 + d % 0x40;
  }

  lemma SameHead2(c: int, d: int)
    requires Scalar(c) && Scalar(d) && 0x800 <= c < d && |PointBytes(c)| == |PointBytes(d)|
    requires c / 0x1000 == d / 0x1000 && c / 0x40 < d / 0x40
    ensures var n := |PointBytes(c)| - 2; PartsAt(PointBytes(c), PointBytes(d), n)
  {
    Quotients(c);
    Quotients(d);
    var (c1, d1) := (c / 0x40, d / 0x40);
    assert c1 == c / 0x1000 * 0x40 + c1 % 0x40 && d1 == d / 0x1000 * 0x40 + d1 % 0x40;
  }

  lemma Quotients(c: int)
    requires 0 <= c
    ensures c / 0x1000 == c / 0x40 / 0x40 && c / 0x4_0000 == c / 0x1000 / 0x40
  {
  }

  lemma {:induction false} BytesOrderIsPointOrder(x: seq<int>, y: seq<int>)
    requires Scalars(x) && Scalars(y)
    ensures Lex(PointsBytes(x), PointsBytes(y)) == Lex(x, y)
  {
    hide PointBytes;
    if x != [] && y != [] {
      var a, b := PointBytes(x[0]), PointBytes(y[0]);
      var s, t := PointsBytes(x[1..]), PointsBytes(y[1..]);
      if x[0] < y[0] {
        var i := PointsPart(x[0], y[0]);
        PartsDecide(a, b, i, s, t);
      } else if y[0] < x[0] {
        var i := PointsPart(y[0], x[0]);
        PartsDecide(b, a, i, t, s);
      } else {
        LexPrefix(a, s, t);
        BytesOrderIsPointOrder(x[1..], y[1..]);
      }
    } else {
      NonEmptyBytes(x);
      NonEmptyBytes(y);
    }
  }

  lemma NonEmptyBytes(x: seq<int>)
    requires Scalars(x)
    ensures PointsBytes(x) == [] <==> x == []
  {
  }

  /** The sign of the byte comparison is the code point order, for every pair of strings. */
  method CompareUtf8(a: seq<Unit>, b: seq<Unit>) returns (r: int)
    ensures Sign(r) == Order(a, b)
  {
    BytesOrderIsPointOrder(CodePoints(a), CodePoints(b));
    var left, right := Encode(a), Encode(b);
    var i := 0;
    while i < |left| && i < |right|
      invariant i <= |left| && i <= |right|
      invariant Lex(left, right) == Lex(left[i..], right[i..])
    {
      if left[i] != right[i] {
        var l: int, r: int := left[i], right[i];
        return l - r;
      }
      assert left[i..][1..] == left[i + 1..] && right[i..][1..] == right[i + 1..];
      i := i + 1;
    }
    return |left| - |right|;
  }

  // ---- a total order ----

  lemma {:induction false} LexEqual(a: seq<int>, b: seq<int>)
    ensures Lex(a, b) == 0 <==> a == b
    ensures Lex(b, a) == -Lex(a, b)
  {
    if a != [] && b != [] {
      LexEqual(a[1..], b[1..]);
      assert a == [a[0]] + a[1..] && b == [b[0]] + b[1..];
    }
  }

  lemma {:induction false} LexTransitive(a: seq<int>, b: seq<int>, c: seq<int>)
    requires Lex(a, b) <= 0 && Lex(b, c) <= 0
    ensures Lex(a, c) <= 0 && (Lex(a, c) == 0 ==> Lex(a, b) == 0 && Lex(b, c) == 0)
  {
    if a != [] && b != [] && c != [] && a[0] == b[0] == c[0] {
      LexTransitive(a[1..], b[1..], c[1..]);
    }
  }

  /** On well-formed strings the order is total, and only a string is equal to itself. */
  lemma OrderIsTotal(a: seq<Unit>, b: seq<Unit>, c: seq<Unit>)
    requires WellFormed(a) && WellFormed(b) && WellFormed(c)
    ensures Order(a, b) == 0 <==> a == b
    ensures Order(b, a) == -Order(a, b)
    ensures Order(a, b) < 0 && Order(b, c) < 0 ==> Order(a, c) < 0
  {
    LexEqual(CodePoints(a), CodePoints(b));
    UnitsOfCodePoints(a);
    UnitsOfCodePoints(b);
    if Order(a, b) < 0 && Order(b, c) < 0 {
      LexTransitive(CodePoints(a), CodePoints(b), CodePoints(c));
    }
  }
}
