/** Exactly which texts the protected inline parser takes, and what each of them means. */
module InlineGrammar {
  import opened Common
  import opened Utf8
  import opened TextSearch
  import opened InlineCodec
  import opened InlineRoundTrip

  // ---- group text ----

  // A token starts at k: an even number of braces stands before it.
  predicate Token(raw: Text, k: nat)
    requires k <= |raw|
  {
    MatchesAt(raw, PREFIX, k) && BraceRun(raw, 0, k) % 2 == 0
  }

  // A text that may stand in a group: no token starts in it, and no brace is left for the closing token.
  predicate GroupRaw(raw: Text) {
    (forall k :: 0 <= k < |raw| ==> !Token(raw, k)) && BraceRun(raw, 0, |raw|) % 2 == 0
  }

  // Of a run of braces every second one is dropped; everything else is kept.
  function Kept(raw: Text, n: nat): Text
    requires n <= |raw|
  {
    if n == 0 then []
    else
      Kept(raw, n - 1)
      + if raw[n - 1] == BRACE && BraceRun(raw, 0, n - 1) % 2 == 1 then [] else [raw[n - 1]]
  }

  lemma PrefixUnits(raw: Text, k: nat)
    ensures MatchesAt(raw, PREFIX, k) ==>
      k + 4 <= |raw| && raw[k] == BRACE && raw[k + 1] == NP[0] && raw[k + 2] == NP[1] && raw[k + 3] == COLON
    ensures MatchesAt(raw, CLOSE, k) ==> MatchesAt(raw, PREFIX, k)
  {
    if MatchesAt(raw, PREFIX, k) {
      MatchUnits(raw, PREFIX, k);
    }
    if MatchesAt(raw, CLOSE, k) {
      assert raw[k..k + 4] == raw[k..k + |CLOSE|][..4] == CLOSE[..4] == PREFIX;
    }
  }

  lemma {:induction false} UnescapeFromExactly(raw: Text, i: nat)
    requires i <= |raw| && (i < |raw| && raw[i] == BRACE ==> BraceRun(raw, 0, i) % 2 == 0)
    ensures UnescapeFrom(raw, i).Ok? <==> forall k :: i <= k < |raw| ==> !Token(raw, k)
    ensures UnescapeFrom(raw, i).Ok? ==> Kept(raw, i) + UnescapeFrom(raw, i).value == Kept(raw, |raw|)
    decreases |raw| - i
  {
    hide MatchesAt;
    if i == |raw| {
      assert Kept(raw, i) + [] == Kept(raw, i);
    } else {
      BraceTokens(raw, i);
      PrefixUnits(raw, i);
      if MatchesAt(raw, DOUBLE, i) {
        PrefixUnits(raw, i + 1);
        UnescapeFromExactly(raw, i + 2);
        assert Kept(raw, i + 1) == Kept(raw, i) + [BRACE];
        assert Kept(raw, i + 2) == Kept(raw, i + 1) + [] == Kept(raw, i + 1);
        assert !Token(raw, i) && !Token(raw, i + 1);
        Reassociate(Kept(raw, i), BRACE, UnescapeFrom(raw, i + 2));
      } else if MatchesAt(raw, PREFIX, i) {
        assert Token(raw, i);
      } else {
        assert !Token(raw, i);
        UnescapeFromExactly(raw, i + 1);
        assert Kept(raw, i + 1) == Kept(raw, i) + [raw[i]];
        Reassociate(Kept(raw, i), raw[i], UnescapeFrom(raw, i + 1));
      }
    }
  }

  lemma Reassociate(a: Text, u: Unit, r: Result<Text, InlineError>)
    ensures r.Ok? ==> a + Prepend(u, r).value == a + [u] + r.value
  {
    if r.Ok? {
      assert a + ([u] + r.value) == a + [u] + r.value;
    }
  }

  /** A group's text is taken exactly when no token starts in it, and every second brace of a run goes. */
  lemma UnescapeExactly(raw: Text)
    ensures UnescapeFrom(raw, 0).Ok? <==> forall k :: 0 <= k < |raw| ==> !Token(raw, k)
    ensures UnescapeFrom(raw, 0).Ok? ==> UnescapeFrom(raw, 0).value == Kept(raw, |raw|)
  {
    hide UnescapeFrom, Token;
    UnescapeFromExactly(raw, 0);
    if UnescapeFrom(raw, 0).Ok? {
      assert Kept(raw, 0) + UnescapeFrom(raw, 0).value == UnescapeFrom(raw, 0).value;
    }
  }

  // ---- one part ----

  // The text s spells the part.
  ghost predicate SpelledPart(s: Text, p: Part) {
    ValidPart(p) &&
    match p
    case Placeholder(_, _) => s == Opening(X, p)
    case Group(_, _, text) =>
      exists raw: Text :: s == Opening(G, p) + (raw + CLOSE) && GroupRaw(raw) && text == Kept(raw, |raw|)
  }

  lemma {:induction false} RunShifts(v: Text, start: nat, raw: Text, k: nat)
    requires At(v, start, raw) && k <= |raw|
    ensures start + k <= |v| && BraceRun(v, start, start + k) == BraceRun(raw, 0, k)
  {
    if k > 0 {
      AtIndex(v, start, raw, k - 1);
      RunShifts(v, start, raw, k - 1);
    }
  }

  lemma MatchShifts(v: Text, start: nat, raw: Text, p: Text, k: nat)
    requires At(v, start, raw) && k + |p| <= |raw|
    ensures MatchesAt(v, p, start + k) <==> MatchesAt(raw, p, k)
  {
    assert v[start..][..|raw|] == raw;
    assert v[start + k..start + k + |p|] == raw[k..k + |p|];
  }

  lemma NoRun(v: Text, start: nat)
    requires start <= |v|
    ensures BraceRun(v, start, start) == 0
  {
  }

  // The first unescaped closing token after such a text is the one right behind it.
  lemma CloseAfterRaw(v: Text, start: nat, raw: Text)
    requires At(v, start, raw + CLOSE) && GroupRaw(raw)
    ensures CloseFrom(v, start) == start + |raw|
  {
    hide CloseFrom, BraceRun, MatchesAt;
    AtTail(v, start, raw, CLOSE);
    AtMatches(v, start + |raw|, CLOSE);
    RunShifts(v, start, raw, |raw|);
    NoRun(v, start);
    CloseFromIsParity(v, start, start, start + |raw|);
    var c := CloseFrom(v, start);
    if c < start + |raw| {
      var k := c - start;
      assert !Token(raw, k);
      PrefixUnits(v, c);
      AtIndex(v, start + |raw|, CLOSE, 0);
      RunShifts(v, start, raw, k);
      MatchShifts(v, start, raw, PREFIX, k);
      assert false;
    }
  }

  lemma SpelledIsParsed(v: Text, i: nat, n: nat, p: Part)
    requires i <= n <= |v| && SpelledPart(v[i..n], p)
    ensures ParsePart(v, i) == Ok((p, n))
  {
    hide *;
    if p.Placeholder? {
      PlaceholderSpelled(v[i..n], p);
      AtPrefix(v, i, n);
      RenderedPlaceholder(p);
      PlaceholderOfRendered(v, i, p);
    } else {
      var raw := GroupSpelled(v[i..n], p);
      AtPrefix(v, i, n);
      GroupIsParsed(v, i, p, raw);
    }
  }

  lemma AtPrefix(v: Text, i: nat, n: nat)
    requires i <= n <= |v|
    ensures At(v, i, v[i..n])
  {
    assert v[i..][..n - i] == v[i..n];
  }

  lemma RenderedPlaceholder(p: Part)
    requires p.Placeholder?
    ensures RenderPart(p) == Opening(X, p)
  {
  }

  lemma PlaceholderSpelled(s: Text, p: Part)
    requires SpelledPart(s, p) && p.Placeholder?
    ensures ValidPart(p) && s == Opening(X, p)
  {
  }

  lemma GroupSpelled(s: Text, p: Part) returns (raw: Text)
    requires SpelledPart(s, p) && p.Group?
    ensures ValidPart(p) && s == Opening(G, p) + (raw + CLOSE) && GroupRaw(raw) && p.text == Kept(raw, |raw|)
  {
    hide ValidPart, Opening, GroupRaw, Kept;
    raw :| s == Opening(G, p) + (raw + CLOSE) && GroupRaw(raw) && p.text == Kept(raw, |raw|);
  }

  lemma GroupIsParsed(v: Text, i: nat, p: Part, raw: Text)
    requires ValidPart(p) && p.Group? && At(v, i, Opening(G, p) + (raw + CLOSE))
    requires GroupRaw(raw) && p.text == Kept(raw, |raw|)
    ensures ParsePart(v, i) == Ok((p, i + |Opening(G, p)| + |raw| + |CLOSE|))
  {
    hide IndexOf, Split, EncodeToken, DecodeToken, CloseFrom, UnescapeFrom, Body, At, MatchesAt, ValidToken, GroupRaw,
      Kept;
    var open := Opening(G, p);
    TokenRoundTrip(p.id);
    TokenRoundTrip(p.ctype);
    AtTail(v, i, open, raw + CLOSE);
    OpeningPieces(v, i, G, p);
    CloseAfterRaw(v, i + |open|, raw);
    AtTail(v, i + |open|, raw, CLOSE);
    RawText(raw);
  }

  lemma RawText(raw: Text)
    requires GroupRaw(raw)
    ensures UnescapeFrom(raw, 0) == Ok(Kept(raw, |raw|))
  {
    UnescapeExactly(raw);
  }

  // The opening token that was split and decoded spells what it was decoded to.
  lemma OpeningSpelled(v: Text, i: nat, end: nat, kind: Text, p: Part)
    requires MatchesAt(v, PREFIX, i) && i < end < |v| && v[end] == END
    requires Split(v[i + 1..end], COLON) == [NP, kind, EncodeToken(p.id), EncodeToken(p.ctype)]
    ensures v[i..end + 1] == Opening(kind, p)
  {
    hide EncodeToken, Split;
    PrefixUnits(v, i);
    JoinSplit(v[i + 1..end], COLON);
    JoinFour(NP, kind, EncodeToken(p.id), EncodeToken(p.ctype), COLON);
    assert v[i..end + 1] == [v[i]] + v[i + 1..end] + [v[end]];
  }

  lemma JoinFour(a: Text, b: Text, c: Text, d: Text, sep: Unit)
    ensures Join([a, b, c, d], sep) == a + [sep] + (b + [sep] + (c + [sep] + d))
  {
    assert [a, b, c, d][1..] == [b, c, d] && [b, c, d][1..] == [c, d] && [c, d][1..] == [d];
    assert Join([d], sep) == d;
    assert Join([c, d], sep) == c + ([sep] + d) == c + [sep] + d;
    assert Join([b, c, d], sep) == b + ([sep] + Join([c, d], sep)) == b + [sep] + Join([c, d], sep);
    assert Join([a, b, c, d], sep) == a + ([sep] + Join([b, c, d], sep)) == a + [sep] + Join([b, c, d], sep);
  }

  // What the parser takes as the opening token.
  lemma ParsedOpening(v: Text, i: nat)
    requires ParsePart(v, i).Ok?
    ensures var p := ParsePart(v, i).value.0; var end := IndexOf(v, [END], i);
      && i < end < |v| && ValidPart(p) && v[i..end + 1] == Opening(if p.Group? then G else X, p)
  {
    hide IndexOf, Split, EncodeToken, DecodeToken, CloseFrom, UnescapeFrom, ValidToken, Opening, Body;
    var end := IndexOf(v, [END], i);
    assert v[i] == v[i..i + |PREFIX|][0] && v[end] == v[end..end + 1][0];
    var pieces := Split(v[i + 1..end], COLON);
    TokensAreCanonical(pieces[2]);
    TokensAreCanonical(pieces[3]);
    var p := ParsePart(v, i).value.0;
    assert pieces == [pieces[0], pieces[1], pieces[2], pieces[3]];
    OpeningSpelled(v, i, end, if p.Group? then G else X, p);
  }

  lemma ParsedIsSpelled(v: Text, i: nat)
    requires ParsePart(v, i).Ok?
    ensures i <= ParsePart(v, i).value.1 <= |v|
    ensures SpelledPart(v[i..ParsePart(v, i).value.1], ParsePart(v, i).value.0)
  {
    hide IndexOf, Split, DecodeToken, CloseFrom, UnescapeFrom, Opening, MatchesAt, Kept, GroupRaw, ValidPart;
    ParsedOpening(v, i);
    var (p, n) := ParsePart(v, i).value;
    var end := IndexOf(v, [END], i);
    if p.Group? {
      var close := CloseFrom(v, end + 1);
      var raw := v[end + 1..close];
      ClosedRaw(v, end + 1);
      assert v[i..n] == v[i..end + 1] + (raw + CLOSE);
    }
  }

  lemma ClosedRaw(v: Text, start: nat)
    requires start <= |v| && CloseFrom(v, start) != -1
    requires UnescapeFrom(v[start..CloseFrom(v, start)], 0).Ok?
    ensures var close := CloseFrom(v, start); var raw := v[start..close];
      && close + |CLOSE| <= |v| && v[close..close + |CLOSE|] == CLOSE
      && GroupRaw(raw) && UnescapeFrom(raw, 0).value == Kept(raw, |raw|)
  {
    hide CloseFrom, UnescapeFrom, Kept;
    var close := CloseFrom(v, start);
    var raw := v[start..close];
    CloseFromIsParity(v, start, start, start);
    assert At(v, start, raw) by {
      assert v[start..][..|raw|] == raw;
    }
    RunShifts(v, start, raw, |raw|);
    UnescapeExactly(raw);
  }

  // ---- whole texts ----

  // The text s is made of the spellings of the parts, one after the other.
  ghost predicate Spelled(s: Text, parts: seq<Part>)
    decreases |parts|
  {
    if parts == [] then s == []
    else exists n :: 0 < n <= |s| && SpelledPart(s[..n], parts[0]) && Spelled(s[n..], parts[1..])
  }

  lemma {:induction false} ParseFromExactly(v: Text, i: nat, parts: seq<Part>)
    requires i <= |v|
    ensures ParseFrom(v, i) == Ok(parts) <==> Spelled(v[i..], parts)
    decreases |v| - i
  {
    hide ParsePart, SpelledPart;
    if i < |v| && ParsePart(v, i).Ok? {
      var (p, n) := ParsePart(v, i).value;
      ParsedIsSpelled(v, i);
      assert v[i..][..n - i] == v[i..n] && v[i..][n - i..] == v[n..];
      if parts != [] {
        ParseFromExactly(v, n, parts[1..]);
        assert parts == [parts[0]] + parts[1..];
      }
    }
    if i < |v| && parts != [] && Spelled(v[i..], parts) {
      var m :| 0 < m <= |v[i..]| && SpelledPart(v[i..][..m], parts[0]) && Spelled(v[i..][m..], parts[1..]);
      assert v[i..][..m] == v[i..i + m] && v[i..][m..] == v[i + m..];
      SpelledIsParsed(v, i, i + m, parts[0]);
    }
  }

  /** The parser takes exactly the spellings of non-empty part lists, and a text spells at most one list. */
  lemma ParsedExactly(v: Text, parts: seq<Part>)
    ensures Parse(v) == Ok(parts) <==> parts != [] && Spelled(v, parts)
  {
    hide Spelled;
    ParseFromExactly(v, 0, parts);
    assert v[0..] == v;
  }
}
