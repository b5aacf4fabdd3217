/** Keys in quotes: the scanner decodes what JSON quoting wrote. */
module CodexKeys {
  import opened Common
  import opened Utf8
  import opened Ascii
  import opened TextSearch
  import opened TomlScan
  import opened CodexBlock
  import JsonText

  lemma HexBack(d: nat)
    requires d < 16
    ensures HexValue(JsonText.Hex(d)) == Some(d)
  {
  }

  // The four digits of a Unicode escape.
  lemma DigitsBack(u: Unit)
    ensures HexNumber(JsonText.UnicodeEscape(u)[2..6]) == Some(u)
  {
    var x: int := u;
    JsonText.Hexes(x);
    var (a, b, c, d) := (x / 0x1000, x / 0x100 % 16, x / 16 % 16, x % 16);
    HexBack(a);
    HexBack(b);
    HexBack(c);
    HexBack(d);
    var s := JsonText.UnicodeEscape(u)[2..6];
    assert s == [JsonText.Hex(a), JsonText.Hex(b), JsonText.Hex(c), JsonText.Hex(d)];
    assert s[..3] == [JsonText.Hex(a), JsonText.Hex(b), JsonText.Hex(c)];
    assert s[..3][..2] == [JsonText.Hex(a), JsonText.Hex(b)];
    assert s[..3][..2][..1] == [JsonText.Hex(a)] && s[..3][..2][..1][..0] == [];
    assert HexNumber(s[..3][..2][..1]) == Some(a);
    assert HexNumber(s[..3][..2]) == Some(16 * a + b);
    assert HexNumber(s[..3]) == Some(16 * (16 * a + b) + c);
  }

  lemma UnicodeUnescapes(u: Unit, rest: Text)
    ensures Unescape(JsonText.UnicodeEscape(u) + rest) ==
      (if !Scalar(u) then None
       else match Unescape(rest) case None => None case Some(t) => Some([u] + t))
  {
    var (piece, raw) := (JsonText.UnicodeEscape(u), JsonText.UnicodeEscape(u) + rest);
    DigitsBack(u);
    assert raw[0] == BACKSLASH && raw[1..][0] == 'u' as int;
    assert raw[1..][1..5] == piece[2..6];
    assert raw[6..] == rest;
  }

  lemma PlainUnescapes(u: Unit, rest: Text)
    requires u != BACKSLASH
    ensures Unescape([u] + rest) == match Unescape(rest) case None => None case Some(t) => Some([u] + t)
  {
    var raw := [u] + rest;
    assert raw[1..] == rest && raw[..1] == [u];
  }

  lemma ShortUnescapes(u: Unit, rest: Text)
    requires JsonText.ShortEscape(u) != 0
    ensures Unescape([BACKSLASH, JsonText.ShortEscape(u)] + rest) ==
      match Unescape(rest) case None => None case Some(t) => Some([u] + t)
  {
    var raw := [BACKSLASH, JsonText.ShortEscape(u)] + rest;
    assert raw[1..][0] == JsonText.ShortEscape(u) && raw[2..] == rest;
  }

  /** Decoding the inside of a quoted text gives the text back, exactly when it is well-formed. */
  lemma {:induction false} UnescapeInside(x: Text)
    ensures Unescape(JsonText.Inside(x)) == if WellFormed(x) then Some(x) else None
    decreases |x|
  {
    hide HexNumber, JsonText.UnicodeEscape, Escape, JsonText.ShortEscape, Unescape;
    if x == [] {
      NothingEscaped();
    } else {
      var n := JsonText.FirstQuoted(x).1;
      var rest := JsonText.Inside(x[n..]);
      UnescapeInside(x[n..]);
      assert x == x[..n] + x[n..] && x[..1] == [x[0]];
      if High(x[0]) && |x| > 1 && Low(x[1]) {
        assert x[..2] + rest == [x[0]] + ([x[1]] + rest) && x == [x[0]] + ([x[1]] + x[2..]);
        PlainUnescapes(x[1], rest);
        PlainUnescapes(x[0], [x[1]] + rest);
      } else if High(x[0]) || Low(x[0]) {
        UnicodeUnescapes(x[0], rest);
      } else if JsonText.ShortEscape(x[0]) != 0 {
        ShortUnescapes(x[0], rest);
        assert JsonText.FirstQuoted(x) == ([BACKSLASH, JsonText.ShortEscape(x[0])], 1);
      } else if x[0] < 0x20 {
        UnicodeUnescapes(x[0], rest);
      } else {
        NoShortEscape(x[0]);
        PlainUnescapes(x[0], rest);
      }
    }
  }

  lemma NothingEscaped()
    ensures Unescape([]) == Some([])
  {
  }

  lemma NoShortEscape(u: Unit)
    requires JsonText.ShortEscape(u) == 0
    ensures u != BACKSLASH
  {
  }

  /** A key spelled in quotes is read as the key itself, so it conflicts as its bare spelling does. */
  lemma QuotedKeyIsRead(t: Text, i: nat, x: Text)
    requires MatchesAt(t, JsonText.Quote(x), i) && !Is(t, i + |JsonText.Quote(x)|, QUOTE)
    ensures KeyPart(t, i) == if WellFormed(x) then Some((x, i + |JsonText.Quote(x)|)) else None
  {
    hide MatchesAt, Unescape, ReadString, JsonText.Quote, JsonText.Inside;
    QuotedReads(t, i, x);
    UnescapeInside(x);
    assert t[i] == QUOTE by {
      QuoteFirst(t, i, x);
    }
  }

  lemma QuoteFirst(t: Text, i: nat, x: Text)
    requires MatchesAt(t, JsonText.Quote(x), i)
    ensures Is(t, i, QUOTE)
  {
    MatchFirst(t, JsonText.Quote(x), i);
  }

  // ---- the two long escapes ----

  // The hexadecimal digit of d, in either case.
  function HexDigit(d: nat, upper: bool): Unit
    requires d < 16
  {
    if d < 10 then '0' as int + d else (if upper then 'A' as int else 'a' as int) + d - 10
  }

  // The last digits of n, as many as there are cases.
  function HexText(n: nat, cases: seq<bool>): (r: Text)
    ensures |r| == |cases|
  {
    if cases == [] then []
    else HexText(n / 16, cases[..|cases| - 1]) + [HexDigit(n % 16, cases[|cases| - 1])]
  }

  function Power16(k: nat): nat { if k == 0 then 1 else 16 * Power16(k - 1) }

  lemma {:induction false} HexTextBack(n: nat, cases: seq<bool>)
    requires n < Power16(|cases|)
    ensures HexNumber(HexText(n, cases)) == Some(n)
    decreases |cases|
  {
    if cases != [] {
      var (init, last) := (cases[..|cases| - 1], HexDigit(n % 16, cases[|cases| - 1]));
      HexTextBack(n / 16, init);
      var s := HexText(n, cases);
      assert s[..|s| - 1] == HexText(n / 16, init) && s[|s| - 1] == last;
      assert HexValue(last) == Some(n % 16);
    }
  }

  lemma Powers()
    ensures Power16(4) == 0x1_0000 && Power16(8) == 0x1_0000_0000
  {
    assert Power16(2) == 256;
    assert Power16(4) == 16 * (16 * Power16(2));
    assert Power16(6) == 16 * (16 * Power16(4));
  }

  /** Four or eight digits name a code point, in whatever case; a surrogate or a number past the last is refused. */
  lemma LongEscapeIsRead(n: nat, long: bool, cases: seq<bool>, rest: Text)
    requires |cases| == (if long then 8 else 4) && n < (if long then 0x1_0000_0000 else 0x1_0000)
    ensures Escape([if long then 'U' as int else 'u' as int] + HexText(n, cases) + rest) ==
      if n < 0xD800 || 0xE000 <= n < 0x11_0000 then Some((PointUnits(n), |cases| + 1)) else None
  {
    hide HexNumber, HexText;
    Powers();
    HexTextBack(n, cases);
    var s := [if long then 'U' as int else 'u' as int] + HexText(n, cases) + rest;
    assert s[1..1 + |cases|] == HexText(n, cases);
  }
}
