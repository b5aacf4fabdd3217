/** Values over one or more lines: the scanner passes them whole, and refuses those whose brackets do not match. */
module TomlValues {
  import opened Common
  import opened Utf8
  import opened Ascii
  import opened TextSearch
  import opened TomlScan
  import opened CodexBlock
  import CodexDetect
  import JsonText

  // ---- values, piece by piece ----

  // A mark is any unit without a meaning of its own. Remarks and line breaks stand inside brackets. A multiline
  // string may end in one or two quotes more than its delimiter has.
  datatype Piece =
    | Mark(u: Unit)
    | Basic(text: Text)
    | Literal(text: Text)
    | Multiline(text: Text, quote: Unit, extra: nat)
    | Remark(text: Text)
    | Break
    | Nested(open: Unit, inner: seq<Piece>)

  function Thrice(quote: Unit): Text { [quote, quote, quote] }

  function Quotes(quote: Unit, n: nat): Text { seq(n, i => quote) }

  function Closing(open: Unit): Unit { if open == OPEN then CLOSE else CLOSE_TABLE }

  function PieceText(p: Piece): (r: Text)
    ensures r != []
    decreases p, 1
  {
    match p
    case Mark(u) => [u]
    case Basic(text) => JsonText.Quote(text)
    case Literal(text) => [APOSTROPHE] + text + [APOSTROPHE]
    case Multiline(text, quote, extra) => Thrice(quote) + (text + (Thrice(quote) + Quotes(quote, extra)))
    case Remark(text) => [HASH] + (text + [NEWLINE])
    case Break => [NEWLINE]
    case Nested(open, inner) => [open] + (PiecesText(inner) + [Closing(open)])
  }

  function PiecesText(ps: seq<Piece>): Text
    decreases ps, 0
  {
    if ps == [] then [] else PieceText(ps[0]) + PiecesText(ps[1..])
  }

  predicate Special(u: Unit) {
    u == QUOTE || u == APOSTROPHE || u == HASH || u == NEWLINE || u == OPEN || u == CLOSE || u == OPEN_TABLE
    || u == CLOSE_TABLE
  }

  // What a multiline string may hold here: no quote of its kind, and no escape.
  predicate Inert(x: Text, quote: Unit) {
    quote !in x && (quote == QUOTE ==> BACKSLASH !in x)
  }

  predicate IsString(p: Piece) { p.Basic? || p.Literal? || p.Multiline? }

  predicate ValidPiece(p: Piece, inside: bool)
    decreases p, 1
  {
    match p
    case Mark(u) => !Special(u)
    case Basic(_) => true
    case Literal(text) => APOSTROPHE !in text && NEWLINE !in text && RETURN !in text
    case Multiline(text, quote, extra) => (quote == QUOTE || quote == APOSTROPHE) && Inert(text, quote) && extra <= 2
    case Remark(text) => inside && NEWLINE !in text
    case Break => inside
    case Nested(open, inner) => (open == OPEN || open == OPEN_TABLE) && ValidPieces(inner, true)
  }

  // No string stands right behind another one.
  predicate ValidPieces(ps: seq<Piece>, inside: bool)
    decreases ps, 0
  {
    ps == [] ||
    (&& ValidPiece(ps[0], inside) && ValidPieces(ps[1..], inside)
     && (|ps| > 1 ==> !(IsString(ps[0]) && IsString(ps[1]))))
  }

  // ---- strings ----

  lemma {:induction false} MultilineCloses(t: Text, j: nat, x: Text, quote: Unit)
    requires MatchesAt(t, x + Thrice(quote), j) && Inert(x, quote)
    ensures FindClose(t, j, quote, true) == Some(j + |x|)
    decreases |x|
  {
    MatchUnits(t, x + Thrice(quote), j);
    if x == [] {
      assert t[j + 0] == quote && t[j + 1] == quote && t[j + 2] == quote;
    } else {
      assert x + Thrice(quote) == [x[0]] + (x[1..] + Thrice(quote));
      MatchHead(t, x[0], x[1..] + Thrice(quote), j);
      MultilineCloses(t, j + 1, x[1..], quote);
    }
  }

  lemma {:induction false} QuotesSkip(t: Text, j: nat, quote: Unit, n: nat, most: nat)
    requires n <= most && MatchesAt(t, Quotes(quote, n), j) && !Is(t, j + n, quote)
    ensures SkipQuotes(t, j, quote, most) == j + n
    decreases n
  {
    if n > 0 {
      assert Quotes(quote, n) == [quote] + Quotes(quote, n - 1);
      MatchHead(t, quote, Quotes(quote, n - 1), j);
      QuotesSkip(t, j + 1, quote, n - 1, most - 1);
    }
  }

  lemma MultilineParts(t: Text, i: nat, x: Text, quote: Unit, extra: nat)
    requires MatchesAt(t, Thrice(quote) + (x + (Thrice(quote) + Quotes(quote, extra))), i)
    ensures Is(t, i, quote) && Triple(t, i, quote) && i + |x| + extra + 6 <= |t|
    ensures MatchesAt(t, x + Thrice(quote), i + 3) && MatchesAt(t, Quotes(quote, extra), i + |x| + 6)
  {
    hide Quotes;
    var rest := Thrice(quote) + Quotes(quote, extra);
    QuoteCount(quote, extra);
    MatchSplit(t, Thrice(quote), x + rest, i);
    MatchUnits(t, Thrice(quote), i);
    assert t[i + 0] == quote && t[i + 1] == quote && t[i + 2] == quote;
    assert x + rest == (x + Thrice(quote)) + Quotes(quote, extra);
    MatchSplit(t, x + Thrice(quote), Quotes(quote, extra), i + 3);
  }

  lemma MultilineReads(t: Text, i: nat, x: Text, quote: Unit, extra: nat)
    requires MatchesAt(t, Thrice(quote) + (x + (Thrice(quote) + Quotes(quote, extra))), i) && Inert(x, quote)
    requires extra <= 2 && !Is(t, i + |x| + extra + 6, quote)
    ensures var end := i + |x| + extra + 6; end <= |t| && i < |t| && t[i] == quote
    ensures ReadString(t, i) == Some((t[i + 3..i + 3 + |x|], i + |x| + extra + 6))
  {
    hide FindClose, SkipQuotes, Quotes, MatchesAt, Thrice, Triple, Inert, Closes;
    MultilineParts(t, i, x, quote, extra);
    MultilineCloses(t, i + 3, x, quote);
    QuotesSkip(t, i + |x| + 6, quote, extra, 2);
  }

  lemma QuoteCount(quote: Unit, n: nat)
    ensures |Quotes(quote, n)| == n
  {
  }

  lemma MultilineSkips(t: Text, i: nat, x: Text, quote: Unit, extra: nat, brackets: seq<Unit>)
    requires quote == QUOTE || quote == APOSTROPHE
    requires MatchesAt(t, Thrice(quote) + (x + (Thrice(quote) + Quotes(quote, extra))), i) && Inert(x, quote)
    requires extra <= 2 && !AtQuote(t, i + |x| + extra + 6)
    ensures var end := i + |x| + extra + 6; end <= |t| && SkipValue(t, i, brackets) == SkipValue(t, end, brackets)
  {
    hide ReadString, Quotes, MatchesAt, Thrice, Inert;
    MultilineReads(t, i, x, quote, extra);
  }

  lemma LiteralSkips(t: Text, i: nat, x: Text, brackets: seq<Unit>)
    requires MatchesAt(t, [APOSTROPHE] + x + [APOSTROPHE], i) && !AtQuote(t, i + |x| + 2)
    requires APOSTROPHE !in x && NEWLINE !in x && RETURN !in x
    ensures i + |x| + 2 <= |t| && SkipValue(t, i, brackets) == SkipValue(t, i + |x| + 2, brackets)
  {
    hide ReadString;
    CodexDetect.LiteralReads(t, i, x);
  }

  // ---- comments ----

  lemma {:induction false} LineEnds(t: Text, i: nat, x: Text)
    requires MatchesAt(t, x, i) && NEWLINE !in x && (i + |x| < |t| ==> t[i + |x|] == NEWLINE)
    ensures LineEnd(t, i) == i + |x|
    decreases |x|
  {
    if x != [] {
      assert [x[0]] + x[1..] == x;
      MatchHead(t, x[0], x[1..], i);
      LineEnds(t, i + 1, x[1..]);
    }
  }

  lemma CommentSkips(t: Text, i: nat, x: Text, brackets: seq<Unit>)
    requires MatchesAt(t, [HASH] + x, i) && NEWLINE !in x && (i + 1 + |x| < |t| ==> t[i + 1 + |x|] == NEWLINE)
    ensures i + 1 + |x| <= |t| && SkipValue(t, i, brackets) == SkipValue(t, i + 1 + |x|, brackets)
  {
    MatchHead(t, HASH, x, i);
    LineEnds(t, i + 1, x);
  }

  lemma RemarkSkips(t: Text, i: nat, x: Text, brackets: seq<Unit>)
    requires MatchesAt(t, [HASH] + (x + [NEWLINE]), i) && NEWLINE !in x && brackets != []
    ensures i + |x| + 2 <= |t| && SkipValue(t, i, brackets) == SkipValue(t, i + |x| + 2, brackets)
  {
    assert [HASH] + (x + [NEWLINE]) == ([HASH] + x) + [NEWLINE];
    MatchLast(t, [HASH] + x, NEWLINE, i);
    CommentSkips(t, i, x, brackets);
    BreakSkips(t, i + 1 + |x|, brackets);
  }

  lemma BreakSkips(t: Text, i: nat, brackets: seq<Unit>)
    requires Is(t, i, NEWLINE) && brackets != []
    ensures SkipValue(t, i, brackets) == SkipValue(t, i + 1, brackets)
  {
  }

  // ---- pieces ----

  lemma MarkSkips(t: Text, i: nat, brackets: seq<Unit>)
    requires i < |t| && !Special(t[i])
    ensures SkipValue(t, i, brackets) == SkipValue(t, i + 1, brackets)
  {
  }

  lemma OpenSkips(t: Text, i: nat, brackets: seq<Unit>)
    requires Is(t, i, OPEN) || Is(t, i, OPEN_TABLE)
    ensures SkipValue(t, i, brackets) == SkipValue(t, i + 1, brackets + [t[i]])
  {
  }

  // A closing bracket ends the innermost group when it is of its kind, and is refused otherwise.
  lemma CloseSkips(t: Text, i: nat, brackets: seq<Unit>)
    requires Is(t, i, CLOSE) || Is(t, i, CLOSE_TABLE)
    requires brackets == [] || brackets[|brackets| - 1] == OPEN || brackets[|brackets| - 1] == OPEN_TABLE
    ensures SkipValue(t, i, brackets) ==
      if brackets != [] && t[i] == Closing(brackets[|brackets| - 1])
      then SkipValue(t, i + 1, brackets[..|brackets| - 1]) else None
  {
  }

  lemma {:induction false} PieceSkips(t: Text, i: nat, p: Piece, inside: bool, brackets: seq<Unit>)
    requires ValidPiece(p, inside) && (inside ==> brackets != []) && MatchesAt(t, PieceText(p), i)
    requires IsString(p) ==> !AtQuote(t, i + |PieceText(p)|)
    ensures i + |PieceText(p)| <= |t| && SkipValue(t, i, brackets) == SkipValue(t, i + |PieceText(p)|, brackets)
    decreases p, 1
  {
    hide MatchesAt, SkipValue, JsonText.Quote, Inert, PiecesText, ValidPieces;
    MatchInside(t, PieceText(p), i);
    match p
    case Mark(u) =>
      MatchFirst(t, [u], i);
      MarkSkips(t, i, brackets);
    case Basic(text) => StringSkips(t, i, text, brackets);
    case Literal(text) => LiteralSkips(t, i, text, brackets);
    case Multiline(text, quote, extra) => MultilineSkips(t, i, text, quote, extra, brackets);
    case Remark(text) => RemarkSkips(t, i, text, brackets);
    case Break =>
      MatchFirst(t, [NEWLINE], i);
      BreakSkips(t, i, brackets);
    case Nested(open, inner) =>
      var more := brackets + [open];
      GroupSkips(t, i, open, inner, Closing(open), brackets);
      assert more[..|more| - 1] == brackets;
      CloseSkips(t, i + 1 + |PiecesText(inner)|, more);
  }

  lemma MatchInside(t: Text, p: Text, i: nat)
    requires MatchesAt(t, p, i)
    ensures i + |p| <= |t|
  {
  }

  // From an opening bracket to the closing one, of whatever kind it is.
  lemma {:induction false} GroupSkips(t: Text, i: nat, open: Unit, inner: seq<Piece>, close: Unit, brackets: seq<Unit>)
    requires (open == OPEN || open == OPEN_TABLE) && (close == CLOSE || close == CLOSE_TABLE)
    requires ValidPieces(inner, true) && MatchesAt(t, [open] + (PiecesText(inner) + [close]), i)
    ensures var end := i + 1 + |PiecesText(inner)|;
      Is(t, end, close) && SkipValue(t, i, brackets) == SkipValue(t, end, brackets + [open])
    decreases inner, 2
  {
    hide MatchesAt, SkipValue, PiecesText, ValidPieces;
    MatchHead(t, open, PiecesText(inner) + [close], i);
    MatchLast(t, PiecesText(inner), close, i + 1);
    OpenSkips(t, i, brackets);
    PiecesSkip(t, i + 1, inner, true, brackets + [open]);
  }

  lemma NotAQuote(t: Text, i: nat, p: Piece, inside: bool)
    requires ValidPiece(p, inside) && !IsString(p) && MatchesAt(t, PieceText(p), i)
    ensures !AtQuote(t, i)
  {
    MatchFirst(t, PieceText(p), i);
  }

  /** Whatever the pieces, the scanner stands behind them with the brackets it had. */
  lemma {:induction false} PiecesSkip(t: Text, i: nat, ps: seq<Piece>, inside: bool, brackets: seq<Unit>)
    requires ValidPieces(ps, inside) && (inside ==> brackets != []) && MatchesAt(t, PiecesText(ps), i)
    requires !AtQuote(t, i + |PiecesText(ps)|)
    ensures i + |PiecesText(ps)| <= |t|
    ensures SkipValue(t, i, brackets) == SkipValue(t, i + |PiecesText(ps)|, brackets)
    decreases ps, 0
  {
    hide MatchesAt, SkipValue, PieceText, ValidPiece, AtQuote;
    MatchInside(t, PiecesText(ps), i);
    if ps != [] {
      var (first, rest) := (PieceText(ps[0]), PiecesText(ps[1..]));
      MatchSplit(t, first, rest, i);
      if |ps| > 1 {
        var next := PieceText(ps[1]);
        MatchSplit(t, next, PiecesText(ps[1..][1..]), i + |first|);
        if IsString(ps[0]) {
          NotAQuote(t, i + |first|, ps[1], inside);
        }
      } else {
        assert ps[1..] == [];
      }
      PieceSkips(t, i, ps[0], inside, brackets);
      PiecesSkip(t, i + |first|, ps[1..], inside, brackets);
    }
  }

  // ---- whole values ----

  // What may end a value: a line break or a comment up to one, or the end of the text.
  datatype Ending = Newline | Comment(text: Text) | EndOfText

  function EndingText(e: Ending): Text {
    match e
    case Newline => [NEWLINE]
    case Comment(text) => [HASH] + (text + [NEWLINE])
    case EndOfText => []
  }

  lemma EndingRead(t: Text, i: nat, e: Ending)
    requires MatchesAt(t, EndingText(e), i) && (e.EndOfText? ==> i == |t|) && (e.Comment? ==> NEWLINE !in e.text)
    ensures i <= |t| && !AtQuote(t, i) && SkipValue(t, i, []) == Some(i + |EndingText(e)|)
  {
    match e
    case Newline => MatchFirst(t, [NEWLINE], i);
    case EndOfText =>
    case Comment(x) =>
      assert [HASH] + (x + [NEWLINE]) == ([HASH] + x) + [NEWLINE];
      MatchHead(t, HASH, x + [NEWLINE], i);
      MatchLast(t, [HASH] + x, NEWLINE, i);
      CommentSkips(t, i, x, []);
      assert SkipValue(t, i + 1 + |x|, []) == Some(i + 2 + |x|);
  }

  /** A value is passed up to its end: line breaks, brackets and quotes in its strings and comments do not count. */
  lemma ValueIsPassed(t: Text, i: nat, ps: seq<Piece>, e: Ending)
    requires ValidPieces(ps, false) && MatchesAt(t, PiecesText(ps) + EndingText(e), i)
    requires (e.EndOfText? ==> i + |PiecesText(ps)| == |t|) && (e.Comment? ==> NEWLINE !in e.text)
    ensures i <= |t| && SkipValue(t, i, []) == Some(i + |PiecesText(ps)| + |EndingText(e)|)
  {
    hide MatchesAt, SkipValue, PiecesText, ValidPieces, AtQuote, EndingText;
    MatchSplit(t, PiecesText(ps), EndingText(e), i);
    EndingRead(t, i + |PiecesText(ps)|, e);
    PiecesSkip(t, i, ps, false, []);
  }

  /** A bracket closed by one of the other kind is refused, wherever it stands in a value. */
  lemma MismatchIsRefused(t: Text, i: nat, open: Unit, inner: seq<Piece>, close: Unit, brackets: seq<Unit>)
    requires (open == OPEN && close == CLOSE_TABLE) || (open == OPEN_TABLE && close == CLOSE)
    requires ValidPieces(inner, true) && MatchesAt(t, [open] + (PiecesText(inner) + [close]), i)
    ensures i <= |t| && SkipValue(t, i, brackets) == None
  {
    hide MatchesAt, SkipValue, PiecesText, ValidPieces;
    GroupSkips(t, i, open, inner, close, brackets);
    CloseSkips(t, i + 1 + |PiecesText(inner)|, brackets + [open]);
  }

  /** So is a bracket that is never closed. */
  lemma UnclosedIsRefused(t: Text, i: nat, open: Unit, inner: seq<Piece>)
    requires (open == OPEN || open == OPEN_TABLE) && ValidPieces(inner, true)
    requires i <= |t| && t[i..] == [open] + PiecesText(inner)
    ensures SkipValue(t, i, []) == None
  {
    hide MatchesAt, SkipValue, PiecesText, ValidPieces;
    MatchesRest(t, i, [open] + PiecesText(inner));
    MatchHead(t, open, PiecesText(inner), i);
    OpenSkips(t, i, []);
    PiecesSkip(t, i + 1, inner, true, [] + [open]);
    OpenAtEnd(t, [] + [open]);
  }

  /** So is a closing bracket that was never opened. */
  lemma UnopenedIsRefused(t: Text, i: nat, ps: seq<Piece>, close: Unit)
    requires (close == CLOSE || close == CLOSE_TABLE) && ValidPieces(ps, false)
    requires MatchesAt(t, PiecesText(ps) + [close], i)
    ensures i <= |t| && SkipValue(t, i, []) == None
  {
    hide MatchesAt, SkipValue, PiecesText, ValidPieces;
    MatchLast(t, PiecesText(ps), close, i);
    PiecesSkip(t, i, ps, false, []);
    CloseSkips(t, i + |PiecesText(ps)|, []);
  }

  lemma MatchesRest(t: Text, i: nat, p: Text)
    requires i <= |t| && t[i..] == p
    ensures MatchesAt(t, p, i) && i + |p| == |t|
  {
  }

  lemma OpenAtEnd(t: Text, brackets: seq<Unit>)
    requires brackets != []
    ensures SkipValue(t, |t|, brackets) == None
  {
  }

  /**
   * The scan goes on behind the value: nothing in it, not even a line that looks like a header of the server, is
   * taken for an entry.
   */
  lemma ValueHidesText(t: Text, i: nat, server: Text, m: Option<Span>, table: seq<Text>, found: bool, key: Text,
                       ps: seq<Piece>, e: Ending)
    requires MatchesAt(t, key + (MIDDLE + (PiecesText(ps) + EndingText(e))), i) && ValidPieces(ps, false)
    requires var end := i + |key| + 3 + |PiecesText(ps)|;
      (e.EndOfText? ==> end == |t|) && (e.Comment? ==> NEWLINE !in e.text)
    requires Word(key) && (Managed(m, i) || (table == [] && key != SERVERS))
    ensures i <= |t|
    ensures var next := i + |key| + 3 + |PiecesText(ps)| + |EndingText(e)|;
      next <= |t| && Scan(t, i, server, m, table, found) == Scan(t, next, server, m, table, found)
  {
    hide MatchesAt, SkipValue, KeyPath, Scan, SkipBlank, Header, Managed, PiecesText, EndingText, ValidPieces;
    var value := PiecesText(ps) + EndingText(e);
    MatchSplit(t, key, MIDDLE + value, i);
    MatchFirst(t, key, i);
    MiddleUnits(t, i + |key|, value);
    assert Join([key], DOT) == key;
    WordsPath(t, i, [key], i + |key|);
    ValueIsPassed(t, i + |key| + 3, ps, e);
    CodexDetect.BlanksSkip(t, i, []);
    assert table == [] ==> table + [key] == [key] && [key][0] == key;
    ScanEntry(t, i, server, m, table, found, table, i + |key| + 3 + |value|);
  }
}
