/** Protected inline text: the printer, the parser, and the round trip between them. */
module InlineCodec {
  import opened Common
  import opened Utf8
  import opened TextSearch
  import Base64Url

  type Text = seq<Unit>

  datatype Part = Placeholder(id: Text, ctype: Text) | Group(id: Text, ctype: Text, text: Text)

  datatype InlineError =
    | TextOutsideTokens | UnterminatedToken | UnknownToken | InvalidOpening | MissingClose
    | InvalidTokenValue | NestedToken | NoTokens

  const BRACE: Unit := '{' as int
  const END: Unit := '}' as int
  const COLON: Unit := ':' as int
  const PREFIX: Text := ['{' as int, 'N' as int, 'P' as int, ':' as int]
  const CLOSE: Text := ['{' as int, 'N' as int, 'P' as int, ':' as int, '/' as int, 'G' as int, '}' as int]
  const DOUBLE: Text := [BRACE, BRACE]
  const NP: Text := ['N' as int, 'P' as int]
  const X: Text := ['X' as int]
  const G: Text := ['G' as int]

  const MAX_TOKEN_LENGTH: nat := 256

  // ---- tokens ----

  function EncodeToken(v: Text): Text {
    Base64Url.Encode(Encode(v))
  }

  function DecodeToken(v: Text): Result<Text, InlineError> {
    var decoded := Decode(Base64Url.Decode(v));
    if |decoded| == 0 || |decoded| > MAX_TOKEN_LENGTH || EncodeToken(decoded) != v then Err(InvalidTokenValue)
    else Ok(decoded)
  }

  predicate ValidToken(v: Text) {
    WellFormed(v) && 1 <= |v| <= MAX_TOKEN_LENGTH
  }

  lemma TokenRoundTrip(v: Text)
    requires ValidToken(v)
    ensures DecodeToken(EncodeToken(v)) == Ok(v)
  {
    Base64Url.DecodeEncode(Encode(v));
    DecodeEncode(v);
  }

  /** The decoder accepts exactly the encodings of valid values, each in its one canonical form. */
  lemma TokensAreCanonical(v: Text)
    ensures DecodeToken(v).Ok? <==> exists s :: ValidToken(s) && v == EncodeToken(s)
    ensures DecodeToken(v).Ok? ==> ValidToken(DecodeToken(v).value) && EncodeToken(DecodeToken(v).value) == v
  {
    DecodeWellFormed(Base64Url.Decode(v));
    forall s | ValidToken(s) && v == EncodeToken(s) ensures DecodeToken(v).Ok? {
      TokenRoundTrip(s);
    }
  }

  lemma TokenUnits(v: Text)
    ensures END !in EncodeToken(v) && COLON !in EncodeToken(v)
  {
    Base64Url.DigitsInAlphabet(Base64Url.Sextets(Encode(v)));
  }

  // ---- printer ----

  function Escape(t: Text): Text {
    if t == [] then [] else (if t[0] == BRACE then DOUBLE else [t[0]]) + Escape(t[1..])
  }

  function Body(kind: Text, p: Part): Text {
    NP + [COLON] + (kind + [COLON] + (EncodeToken(p.id) + [COLON] + EncodeToken(p.ctype)))
  }

  function Opening(kind: Text, p: Part): Text {
    [BRACE] + Body(kind, p) + [END]
  }

  function RenderPart(p: Part): Text {
    match p
    case Placeholder(_, _) => Opening(X, p)
    case Group(_, _, text) => Opening(G, p) + (Escape(text) + CLOSE)
  }

  function Render(parts: seq<Part>): Text {
    if parts == [] then [] else RenderPart(parts[0]) + Render(parts[1..])
  }

  // ---- the search for the closing token ----

  // A plain left-to-right tokenizer: a doubled brace is one token.
  function CloseFrom(v: Text, i: nat): (r: int)
    ensures r == -1 || (i <= r && MatchesAt(v, CLOSE, r))
    decreases |v| - i
  {
    if i >= |v| then -1
    else if MatchesAt(v, DOUBLE, i) then CloseFrom(v, i + 2)
    else if MatchesAt(v, CLOSE, i) then i
    else CloseFrom(v, i + 1)
  }

  // The length of the brace run that ends before k, no further back than `start`.
  function BraceRun(v: Text, start: nat, k: nat): nat
    requires k <= |v|
  {
    if k > start && v[k - 1] == BRACE then 1 + BraceRun(v, start, k - 1) else 0
  }

  predicate Unescaped(v: Text, start: nat, k: nat) {
    MatchesAt(v, CLOSE, k) && k <= |v| && BraceRun(v, start, k) % 2 == 0
  }

  lemma BraceTokens(v: Text, i: nat)
    ensures MatchesAt(v, DOUBLE, i) <==> i + 1 < |v| && v[i] == BRACE && v[i + 1] == BRACE
    ensures MatchesAt(v, CLOSE, i) ==> i + 1 < |v| && v[i] == BRACE && v[i + 1] != BRACE
  {
    if MatchesAt(v, CLOSE, i) {
      assert v[i..i + 7][0] == v[i] && v[i..i + 7][1] == v[i + 1];
    }
  }

  lemma {:induction false} CloseFromIsParity(v: Text, start: nat, i: nat, k: nat)
    requires start <= i <= k
    requires i < |v| && v[i] == BRACE ==> BraceRun(v, start, i) % 2 == 0
    ensures CloseFrom(v, i) != -1 ==> Unescaped(v, start, CloseFrom(v, i))
    ensures Unescaped(v, start, k) ==> 0 <= CloseFrom(v, i) <= k
    decreases |v| - i
  {
    if i < |v| {
      BraceTokens(v, i);
      BraceTokens(v, k);
      if MatchesAt(v, DOUBLE, i) {
        CloseFromIsParity(v, start, i + 2, if k < i + 2 then i + 2 else k);
      } else if !MatchesAt(v, CLOSE, i) {
        CloseFromIsParity(v, start, i + 1, if k < i + 1 then i + 1 else k);
      }
    }
  }

  /** The jump to the next candidate and the parity of the braces before it find what the tokenizer finds. */
  method FindUnescapedClose(v: Text, start: nat) returns (r: int)
    ensures r == CloseFrom(v, start)
  {
    var position := start;
    while position < |v|
      invariant start <= position
      invariant forall k: nat :: start <= k < position ==> !Unescaped(v, start, k)
    {
      var candidate := IndexOf(v, CLOSE, position);
      if candidate < 0 {
        break;
      }
      var braces := 0;
      while candidate - braces - 1 >= start
        invariant 0 <= braces <= candidate - start
        invariant BraceRun(v, start, candidate) == braces + BraceRun(v, start, candidate - braces)
      {
        if v[candidate - braces - 1] != BRACE {
          break;
        }
        braces := braces + 1;
      }
      if braces % 2 == 0 {
        CloseFromIsParity(v, start, start, candidate);
        assert forall k: nat :: start <= k < candidate ==> !Unescaped(v, start, k);
        return candidate;
      }
      position := candidate + 1;
    }
    assert forall k: nat :: start <= k ==> !Unescaped(v, start, k);
    CloseFromIsParity(v, start, start, start);
    r := -1;
  }

  // ---- text between tokens ----

  function UnescapeFrom(v: Text, i: nat): Result<Text, InlineError>
    decreases |v| - i
  {
    if i >= |v| then Ok([])
    else if MatchesAt(v, DOUBLE, i) then Prepend(BRACE, UnescapeFrom(v, i + 2))
    else if MatchesAt(v, PREFIX, i) then Err(NestedToken)
    else Prepend(v[i], UnescapeFrom(v, i + 1))
  }

  function Prepend(u: Unit, r: Result<Text, InlineError>): Result<Text, InlineError> {
    match r
    case Ok(t) => Ok([u] + t)
    case Err(e) => Err(e)
  }

  function Append(t: Text, r: Result<Text, InlineError>): Result<Text, InlineError> {
    match r
    case Ok(u) => Ok(t + u)
    case Err(e) => Err(e)
  }

  method Unescape(v: Text) returns (r: Result<Text, InlineError>)
    ensures r == UnescapeFrom(v, 0)
  {
    var output: Text := [];
    var i := 0;
    AppendNil(UnescapeFrom(v, 0));
    while i < |v|
      invariant UnescapeFrom(v, 0) == Append(output, UnescapeFrom(v, i))
    {
      ghost var before := output;
      if MatchesAt(v, DOUBLE, i) {
        output := output + [BRACE];
        i := i + 2;
      } else if MatchesAt(v, PREFIX, i) {
        return Err(NestedToken);
      } else {
        output := output + [v[i]];
        i := i + 1;
      }
      AppendSnoc(before, output[|before|], UnescapeFrom(v, i));
    }
    assert output + [] == output;
    return Ok(output);
  }

  lemma AppendNil(r: Result<Text, InlineError>)
    ensures Append([], r) == r
  {
    if r.Ok? {
      assert [] + r.value == r.value;
    }
  }

  lemma AppendSnoc(t: Text, u: Unit, r: Result<Text, InlineError>)
    ensures Append(t, Prepend(u, r)) == Append(t + [u], r)
  {
    if r.Ok? {
      assert t + ([u] + r.value) == t + [u] + r.value;
    }
  }

  // ---- parser ----

  // The part that starts at i, and the position after it.
  function ParsePart(v: Text, i: nat): (r: Result<(Part, nat), InlineError>)
    ensures r.Ok? ==> i < r.value.1 <= |v|
  {
    if !MatchesAt(v, PREFIX, i) then Err(TextOutsideTokens)
    else
      var end := IndexOf(v, [END], i);
      if end < 0 then Err(UnterminatedToken)
      else
        assert v[i] == v[i..i + |PREFIX|][0] && v[end] == v[end..end + 1][0];
        var pieces := Split(v[i + 1..end], COLON);
        if pieces[0] != NP then Err(UnknownToken)
        else if |pieces| > 1 && pieces[1] == X && |pieces| == 4 then
          match (DecodeToken(pieces[2]), DecodeToken(pieces[3]))
          case (Ok(id), Ok(ctype)) => Ok((Placeholder(id, ctype), end + 1))
          case _ => Err(InvalidTokenValue)
        else if |pieces| < 2 || pieces[1] != G || |pieces| != 4 then Err(InvalidOpening)
        else
          var close := CloseFrom(v, end + 1);
          if close < 0 then Err(MissingClose)
          else
            match (DecodeToken(pieces[2]), DecodeToken(pieces[3]))
            case (Ok(id), Ok(ctype)) =>
              (match UnescapeFrom(v[end + 1..close], 0)
               case Ok(text) => Ok((Group(id, ctype, text), close + |CLOSE|))
               case Err(e) => Err(e))
            case _ => Err(InvalidTokenValue)
  }

  function ParseFrom(v: Text, i: nat): Result<seq<Part>, InlineError>
    requires i <= |v|
    decreases |v| - i
  {
    if i == |v| then Ok([])
    else
      match ParsePart(v, i)
      case Err(e) => Err(e)
      case Ok((part, next)) =>
        match ParseFrom(v, next)
        case Err(e) => Err(e)
        case Ok(rest) => Ok([part] + rest)
  }

  function Parse(v: Text): Result<seq<Part>, InlineError> {
    match ParseFrom(v, 0)
    case Err(e) => Err(e)
    case Ok(parts) => if parts == [] then Err(NoTokens) else Ok(parts)
  }

  function AppendParts(ps: seq<Part>, r: Result<seq<Part>, InlineError>): Result<seq<Part>, InlineError> {
    match r
    case Ok(qs) => Ok(ps + qs)
    case Err(e) => Err(e)
  }

  // One turn of the parser's loop.
  method ParsePartAt(v: Text, i: nat) returns (r: Result<(Part, nat), InlineError>)
    ensures r == ParsePart(v, i)
  {
    hide IndexOf, Split, DecodeToken, CloseFrom, UnescapeFrom;
    if !MatchesAt(v, PREFIX, i) {
      return Err(TextOutsideTokens);
    }
    var end := IndexOf(v, [END], i);
    if end < 0 {
      return Err(UnterminatedToken);
    }
    assert v[i] == v[i..i + |PREFIX|][0] && v[end] == v[end..end + 1][0];
    var pieces := Split(v[i + 1..end], COLON);
    if pieces[0] != NP {
      return Err(UnknownToken);
    }
    if |pieces| > 1 && pieces[1] == X && |pieces| == 4 {
      var id, ctype := DecodeToken(pieces[2]), DecodeToken(pieces[3]);
      if id.Err? || ctype.Err? {
        return Err(InvalidTokenValue);
      }
      return Ok((Placeholder(id.value, ctype.value), end + 1));
    }
    if |pieces| < 2 || pieces[1] != G || |pieces| != 4 {
      return Err(InvalidOpening);
    }
    var close := FindUnescapedClose(v, end + 1);
    if close < 0 {
      return Err(MissingClose);
    }
    var id, ctype := DecodeToken(pieces[2]), DecodeToken(pieces[3]);
    if id.Err? || ctype.Err? {
      return Err(InvalidTokenValue);
    }
    var text := Unescape(v[end + 1..close]);
    if text.Err? {
      return Err(text.error);
    }
    return Ok((Group(id.value, ctype.value, text.value), close + |CLOSE|));
  }

  method ParseProtectedInline(v: Text) returns (r: Result<seq<Part>, InlineError>)
    ensures r == Parse(v)
  {
    var parts: seq<Part> := [];
    var position: nat := 0;
    AppendNoParts(ParseFrom(v, 0));
    while position < |v|
      invariant position <= |v|
      invariant ParseFrom(v, 0) == AppendParts(parts, ParseFrom(v, position))
    {
      var next := ParsePartAt(v, position);
      if next.Err? {
        return Err(next.error);
      }
      StepParts(v, position, parts, next.value.0, next.value.1);
      parts := parts + [next.value.0];
      position := next.value.1;
    }
    assert parts + [] == parts;
    if parts == [] {
      return Err(NoTokens);
    }
    return Ok(parts);
  }

  lemma AppendNoParts(r: Result<seq<Part>, InlineError>)
    ensures AppendParts([], r) == r
  {
    if r.Ok? {
      assert [] + r.value == r.value;
    }
  }

  lemma StepParts(v: Text, i: nat, parts: seq<Part>, part: Part, next: nat)
    requires i < |v| && ParsePart(v, i) == Ok((part, next))
    ensures AppendParts(parts, ParseFrom(v, i)) == AppendParts(parts + [part], ParseFrom(v, next))
  {
    if ParseFrom(v, next).Ok? {
      assert parts + ([part] + ParseFrom(v, next).value) == parts + [part] + ParseFrom(v, next).value;
    }
  }
}
