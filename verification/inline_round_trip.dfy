/** Parsing what the printer wrote gives the parts back. */
module InlineRoundTrip {
  import opened Common
  import opened Utf8
  import opened TextSearch
  import opened InlineCodec

  predicate ValidPart(p: Part) {
    ValidToken(p.id) && ValidToken(p.ctype)
  }

  predicate ValidParts(ps: seq<Part>) {
    forall i :: 0 <= i < |ps| ==> ValidPart(ps[i])
  }

  // The text w stands at position i of v.
  ghost predicate At(v: Text, i: nat, w: Text) {
    i <= |v| && w <= v[i..]
  }

  lemma AtIndex(v: Text, i: nat, w: Text, k: nat)
    requires At(v, i, w) && k < |w|
    ensures i + k < |v| && v[i + k] == w[k]
  {
    assert v[i..][k] == w[k];
  }

  lemma AtTail(v: Text, i: nat, a: Text, b: Text)
    requires At(v, i, a + b)
    ensures At(v, i, a) && At(v, i + |a|, b) && v[i..i + |a|] == a
  {
    assert (a + b)[|a|..] == b && (a + b)[..|a|] == a;
    assert v[i..][|a|..] == v[i + |a|..];
    assert v[i..][..|a|] == v[i..i + |a|];
  }

  lemma AtMatches(v: Text, i: nat, w: Text)
    requires At(v, i, w)
    ensures MatchesAt(v, w, i)
  {
    assert w + [] == w;
    AtTail(v, i, w, []);
  }

  // Whatever the text, the closing token is found right after its escaped form.
  lemma {:induction false} CloseAfterEscaped(v: Text, i: nat, t: Text)
    requires At(v, i, Escape(t) + CLOSE)
    ensures CloseFrom(v, i) == i + |Escape(t)|
    decreases t
  {
    hide At;
    BraceTokens(v, i);
    if t == [] {
      AtTail(v, i, Escape(t), CLOSE);
      AtMatches(v, i, CLOSE);
    } else {
      var head := if t[0] == BRACE then DOUBLE else [t[0]];
      assert Escape(t) + CLOSE == head + (Escape(t[1..]) + CLOSE);
      AtTail(v, i, head, Escape(t[1..]) + CLOSE);
      AtMatches(v, i, head);
      AtIndex(v, i, head, 0);
      hide MatchesAt;
      CloseAfterEscaped(v, i + |head|, t[1..]);
    }
  }

  lemma {:induction false} UnescapeEscaped(v: Text, i: nat, t: Text)
    requires i <= |v| && v[i..] == Escape(t)
    ensures UnescapeFrom(v, i) == Ok(t)
    decreases t
  {
    if t != [] {
      BraceTokens(v, i);
      var head := if t[0] == BRACE then DOUBLE else [t[0]];
      AtTail(v, i, head, Escape(t[1..]));
      AtIndex(v, i, head, 0);
      assert MatchesAt(v, PREFIX, i) ==> v[i..i + 4][0] == BRACE;
      assert v[i + |head|..] == v[i..][|head|..] == Escape(t[1..]);
      UnescapeEscaped(v, i + |head|, t[1..]);
      assert [t[0]] + t[1..] == t;
    }
  }

  lemma IndexOfEnd(v: Text, i: nat, a: Text)
    requires At(v, i, a + [END]) && END !in a
    ensures IndexOf(v, [END], i) == i + |a|
  {
    AtTail(v, i, a, [END]);
    AtTail(v, i + |a|, [END], []);
    assert [END] + [] == [END];
    var r := IndexOf(v, [END], i);
    assert MatchesAt(v, [END], i + |a|);
    assert v[r..r + 1][0] == v[r];
    forall k: nat | i <= k < i + |a| ensures v[k] != END {
      AtIndex(v, i, a, k - i);
    }
  }

  lemma SplitFour(a: Text, b: Text, c: Text, d: Text)
    requires COLON !in a && COLON !in b && COLON !in c && COLON !in d
    ensures Split(a + [COLON] + (b + [COLON] + (c + [COLON] + d)), COLON) == [a, b, c, d]
  {
    SplitFirst(a, COLON, b + [COLON] + (c + [COLON] + d));
    SplitFirst(b, COLON, c + [COLON] + d);
    SplitFirst(c, COLON, d);
    SplitPlain(d, COLON);
  }

  lemma StartsWithPrefix(v: Text, i: nat, tail: Text)
    requires At(v, i, [BRACE] + (NP + [COLON] + tail) + [END])
    ensures MatchesAt(v, PREFIX, i)
  {
    assert [BRACE] + (NP + [COLON] + tail) + [END] == PREFIX + (tail + [END]);
    AtTail(v, i, PREFIX, tail + [END]);
  }

  lemma TokenBounds(v: Text, i: nat, b: Text)
    requires At(v, i, [BRACE] + b + [END]) && END !in b
    ensures IndexOf(v, [END], i) == i + 1 + |b| && v[i + 1..i + 1 + |b|] == b
  {
    IndexOfEnd(v, i, [BRACE] + b);
    assert [BRACE] + b + [END] == [BRACE] + (b + [END]);
    AtTail(v, i, [BRACE], b + [END]);
    AtTail(v, i + 1, b, [END]);
  }

  // The opening token of a part splits into its four pieces.
  lemma OpeningPieces(v: Text, i: nat, kind: Text, p: Part)
    requires At(v, i, Opening(kind, p)) && (kind == X || kind == G)
    ensures MatchesAt(v, PREFIX, i)
    ensures var end := i + |Opening(kind, p)| - 1;
            && IndexOf(v, [END], i) == end
            && v[i + 1..end] == Body(kind, p)
    ensures Split(Body(kind, p), COLON) == [NP, kind, EncodeToken(p.id), EncodeToken(p.ctype)]
  {
    var id, ctype := EncodeToken(p.id), EncodeToken(p.ctype);
    TokenUnits(p.id);
    TokenUnits(p.ctype);
    StartsWithPrefix(v, i, kind + [COLON] + (id + [COLON] + ctype));
    TokenBounds(v, i, Body(kind, p));
    SplitFour(NP, kind, id, ctype);
  }

  lemma PlaceholderOfRendered(v: Text, i: nat, p: Part)
    requires At(v, i, RenderPart(p)) && ValidPart(p) && p.Placeholder?
    ensures ParsePart(v, i) == Ok((p, i + |RenderPart(p)|))
  {
    hide IndexOf, Split, EncodeToken, DecodeToken, CloseFrom, UnescapeFrom, Escape, Body, At, MatchesAt, ValidToken;
    TokenRoundTrip(p.id);
    TokenRoundTrip(p.ctype);
    OpeningPieces(v, i, X, p);
  }

  // The text of a group, between its tokens.
  lemma GroupText(v: Text, i: nat, open: Text, t: Text)
    requires At(v, i, open + (Escape(t) + CLOSE))
    ensures At(v, i, open) && CloseFrom(v, i + |open|) == i + |open| + |Escape(t)| <= |v|
    ensures UnescapeFrom(v[i + |open|..i + |open| + |Escape(t)|], 0) == Ok(t)
  {
    hide CloseFrom, UnescapeFrom, Escape;
    AtTail(v, i, open, Escape(t) + CLOSE);
    CloseAfterEscaped(v, i + |open|, t);
    AtTail(v, i + |open|, Escape(t), CLOSE);
    var raw := v[i + |open|..i + |open| + |Escape(t)|];
    assert raw[0..] == Escape(t);
    UnescapeEscaped(raw, 0, t);
  }

  lemma GroupOfRendered(v: Text, i: nat, p: Part)
    requires At(v, i, RenderPart(p)) && ValidPart(p) && p.Group?
    ensures ParsePart(v, i) == Ok((p, i + |RenderPart(p)|))
  {
    hide IndexOf, Split, EncodeToken, DecodeToken, CloseFrom, UnescapeFrom, Escape, Body, At, MatchesAt, ValidToken;
    TokenRoundTrip(p.id);
    TokenRoundTrip(p.ctype);
    GroupText(v, i, Opening(G, p), p.text);
    OpeningPieces(v, i, G, p);
  }

  lemma ParsePartOfRendered(v: Text, i: nat, p: Part)
    requires At(v, i, RenderPart(p)) && ValidPart(p)
    ensures ParsePart(v, i) == Ok((p, i + |RenderPart(p)|))
  {
    hide ParsePart, RenderPart, At, ValidPart;
    match p
    case Placeholder(_, _) => PlaceholderOfRendered(v, i, p);
    case Group(_, _, _) => GroupOfRendered(v, i, p);
  }

  lemma ParseFromStep(v: Text, i: nat, part: Part, next: nat, rest: seq<Part>)
    requires i < |v| && ParsePart(v, i) == Ok((part, next)) && ParseFrom(v, next) == Ok(rest)
    ensures ParseFrom(v, i) == Ok([part] + rest)
  {
  }

  lemma {:induction false} ParseFromRendered(v: Text, i: nat, ps: seq<Part>)
    requires i <= |v| && v[i..] == Render(ps) && ValidParts(ps)
    ensures ParseFrom(v, i) == Ok(ps)
    decreases ps
  {
    hide ParsePart, RenderPart;
    if ps != [] {
      var first, rest := RenderPart(ps[0]), Render(ps[1..]);
      RenderedTail(v, i, first, rest);
      ParsePartOfRendered(v, i, ps[0]);
      ParseFromRendered(v, i + |first|, ps[1..]);
      ParseFromStep(v, i, ps[0], i + |first|, ps[1..]);
      assert [ps[0]] + ps[1..] == ps;
    }
  }

  lemma RenderedTail(v: Text, i: nat, first: Text, rest: Text)
    requires i <= |v| && v[i..] == first + rest
    ensures i + |first| <= |v| && v[i + |first|..] == rest && At(v, i, first)
  {
    AtTail(v, i, first, rest);
    assert v[i + |first|..] == v[i..][|first|..];
  }

  lemma ParsedPartIsValid(v: Text, i: nat)
    requires ParsePart(v, i).Ok?
    ensures ValidPart(ParsePart(v, i).value.0)
  {
    hide IndexOf, Split, EncodeToken, DecodeToken, CloseFrom, UnescapeFrom, ValidToken;
    var end := IndexOf(v, [END], i);
    assert v[i] == v[i..i + |PREFIX|][0] && v[end] == v[end..end + 1][0];
    var pieces := Split(v[i + 1..end], COLON);
    TokensAreCanonical(pieces[2]);
    TokensAreCanonical(pieces[3]);
  }

  lemma {:induction false} ParsedAreValid(v: Text, i: nat)
    requires i <= |v| && ParseFrom(v, i).Ok?
    ensures ValidParts(ParseFrom(v, i).value)
    decreases |v| - i
  {
    if i < |v| {
      ParsedPartIsValid(v, i);
      ParsedAreValid(v, ParsePart(v, i).value.1);
    }
  }

  /** The round trip holds exactly for non-empty part lists whose ids and ctypes are valid. */
  lemma RoundTrip(ps: seq<Part>)
    ensures Parse(Render(ps)) == Ok(ps) <==> ps != [] && ValidParts(ps)
  {
    if ps != [] && ValidParts(ps) {
      ParseFromRendered(Render(ps), 0, ps);
    }
    if Parse(Render(ps)) == Ok(ps) {
      ParsedAreValid(Render(ps), 0);
    }
  }
}
