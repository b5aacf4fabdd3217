/** The block that connects Codex to one server, and how the scanner reads it line by line. */
module CodexBlock {
  import opened Common
  import opened Utf8
  import opened Ascii
  import opened TextSearch
  import opened TomlScan
  import JsonText

  datatype Connection =
    | Stdio(command: Text, args: seq<Text>)
    | Http(resource: Text, clientId: Text, redirectUri: Text, callbackPort: nat)

  datatype Plan = Plan(server: Text, connection: Connection)

  datatype Value = Str(text: Text) | List(items: seq<Text>) | Number(n: nat)

  datatype Line = Comment(text: Text) | Table(words: seq<Text>) | Assign(key: Text, value: Value) | Empty

  // ---- the text ----

  const COMMA: Unit := ',' as int

  function Quoted(items: seq<Text>): seq<Text> {
    seq(|items|, i requires 0 <= i < |items| => JsonText.Quote(items[i]))
  }

  function ValueText(v: Value): Text {
    match v
    case Str(text) => JsonText.Quote(text)
    case List(items) => [OPEN] + (Join(Quoted(items), COMMA) + [CLOSE])
    case Number(n) => Decimal(n)
  }

  const MIDDLE: Text := Lit(" = ")

  function LineText(line: Line): Text {
    match line
    case Comment(text) => [HASH] + text
    case Table(words) => [OPEN] + (Join(words, DOT) + [CLOSE])
    case Assign(key, value) => key + (MIDDLE + ValueText(value))
    case Empty => []
  }

  function Texts(lines: seq<Line>): seq<Text> {
    seq(|lines|, i requires 0 <= i < |lines| => LineText(lines[i]))
  }

  function Marker(server: Text, side: Text): Line {
    Comment(Lit(" nexpress-agent-connect:") + (server + side))
  }

  const START: Text := Lit(":start")
  const END: Text := Lit(":end")

  function MarkerText(server: Text, side: Text): Text { LineText(Marker(server, side)) }

  function MarkerStart(server: Text): Text { MarkerText(server, START) }

  function MarkerEnd(server: Text): Text { MarkerText(server, END) }

  function Body(plan: Plan): seq<Line> {
    var table := [SERVERS, plan.server];
    match plan.connection
    case Stdio(command, args) =>
      [Table(table),
       Assign(Lit("command"), Str(command)),
       Assign(Lit("args"), List(args)),
       Assign(Lit("env_vars"), List([Lit("NP_AGENT_SERVICE_TOKEN")]))]
    case Http(resource, clientId, redirectUri, port) =>
      [Table(table),
       Assign(Lit("url"), Str(resource)),
       Empty,
       Table(table + [Lit("oauth")]),
       Assign(Lit("client_id"), Str(clientId)),
       Assign(Lit("callback_url"), Str(redirectUri)),
       Assign(Lit("callback_port"), Number(port))]
  }

  function BlockLines(plan: Plan): seq<Line> {
    [Marker(plan.server, START)] + (Body(plan) + [Marker(plan.server, END)])
  }

  function Block(plan: Plan): Text {
    Join(Texts(BlockLines(plan)), NEWLINE)
  }

  // ---- what a plan may hold ----

  predicate NameUnit(u: Unit) {
    'a' as int <= u <= 'z' as int || IsDigit(u) || u == '_' as int || u == '-' as int
  }

  predicate ServerName(name: Text) {
    1 <= |name| <= 64 && 'a' as int <= name[0] <= 'z' as int && forall i :: 0 <= i < |name| ==> NameUnit(name[i])
  }

  // Commands, URLs and client ids hold no `#`.
  predicate ValidPlan(plan: Plan) {
    ServerName(plan.server) &&
    match plan.connection
    case Stdio(command, args) => HASH !in command && forall i :: 0 <= i < |args| ==> HASH !in args[i]
    case Http(resource, clientId, redirectUri, _) =>
      HASH !in resource && HASH !in clientId && HASH !in redirectUri
  }

  predicate Word(w: Text) { w != [] && forall i :: 0 <= i < |w| ==> Bare(w[i]) }

  predicate Words(ws: seq<Text>) { ws != [] && forall i :: 0 <= i < |ws| ==> Word(ws[i]) }

  predicate WellFormedLine(line: Line) {
    match line
    case Comment(text) => NEWLINE !in text
    case Table(words) => Words(words)
    case Assign(key, _) => Word(key)
    case Empty => true
  }

  // ---- matching pieces ----

  lemma MatchSplit(t: Text, a: Text, b: Text, i: nat)
    requires MatchesAt(t, a + b, i)
    ensures MatchesAt(t, a, i) && MatchesAt(t, b, i + |a|)
  {
    assert t[i..i + |a|] == t[i..i + |a + b|][..|a|] == a;
    assert t[i + |a|..i + |a| + |b|] == t[i..i + |a + b|][|a|..] == b;
  }

  lemma MatchHead(t: Text, u: Unit, rest: Text, i: nat)
    requires MatchesAt(t, [u] + rest, i)
    ensures Is(t, i, u) && MatchesAt(t, rest, i + 1)
  {
    MatchSplit(t, [u], rest, i);
    MatchUnits(t, [u], i);
    assert t[i + 0] == u;
  }

  // A piece, then one unit.
  lemma MatchLast(t: Text, a: Text, u: Unit, i: nat)
    requires MatchesAt(t, a + [u], i)
    ensures MatchesAt(t, a, i) && Is(t, i + |a|, u)
  {
    MatchSplit(t, a, [u], i);
    MatchUnits(t, [u], i + |a|);
    assert t[i + |a| + 0] == u;
  }

  // The first unit of a word.
  lemma MatchFirst(t: Text, w: Text, i: nat)
    requires MatchesAt(t, w, i) && w != []
    ensures Is(t, i, w[0])
  {
    MatchUnits(t, w, i);
    assert t[i + 0] == w[0];
  }

  // ---- keys ----

  lemma {:induction false} BareRun(t: Text, i: nat, w: Text)
    requires MatchesAt(t, w, i) && (forall k :: 0 <= k < |w| ==> Bare(w[k]))
    requires i + |w| < |t| ==> !Bare(t[i + |w|])
    ensures SkipBare(t, i) == i + |w|
    decreases |w|
  {
    MatchUnits(t, w, i);
    if w != [] {
      assert w[..1] + w[1..] == w;
      MatchSplit(t, w[..1], w[1..], i);
      assert t[i] == w[0];
      BareRun(t, i + 1, w[1..]);
    }
  }

  lemma WordPart(t: Text, i: nat, w: Text)
    requires MatchesAt(t, w, i) && Word(w) && (i + |w| < |t| ==> !Bare(t[i + |w|]))
    ensures SkipBlank(t, i) == i && KeyPart(t, i) == Some((w, i + |w|))
  {
    BareRun(t, i, w);
    MatchUnits(t, w, i);
    assert t[i] == w[0] && Bare(t[i]);
  }

  lemma {:induction false} WordsPath(t: Text, i: nat, ws: seq<Text>, end: nat)
    requires Words(ws) && MatchesAt(t, Join(ws, DOT), i)
    requires end == i + |Join(ws, DOT)| < |t| && !Bare(t[end]) && !Is(t, SkipBlank(t, end), DOT)
    ensures KeyPath(t, i) == Some((ws, SkipBlank(t, end)))
    decreases |ws|
  {
    hide KeyPart, MatchesAt;
    if |ws| == 1 {
      WordPart(t, i, ws[0]);
      assert ws == [ws[0]];
    } else {
      var rest := Join(ws[1..], DOT);
      MatchSplit(t, ws[0], [DOT] + rest, i);
      MatchHead(t, DOT, rest, i + |ws[0]|);
      WordPart(t, i, ws[0]);
      WordsPath(t, i + |ws[0]| + 1, ws[1..], end);
      assert [ws[0]] + ws[1..] == ws;
    }
  }

  // ---- values ----

  lemma {:induction false} InsideCloses(t: Text, j: nat, x: Text)
    requires MatchesAt(t, JsonText.Inside(x) + [QUOTE], j)
    ensures FindClose(t, j, QUOTE, false) == Some(j + |JsonText.Inside(x)|)
    decreases |x|
  {
    MatchUnits(t, JsonText.Inside(x) + [QUOTE], j);
    if x == [] {
      assert t[j + 0] == QUOTE;
    } else {
      var (piece, n) := JsonText.FirstQuoted(x);
      var rest := JsonText.Inside(x[n..]) + [QUOTE];
      assert JsonText.Inside(x) + [QUOTE] == piece + rest;
      MatchSplit(t, piece, rest, j);
      MatchUnits(t, piece, j);
      InsideCloses(t, j + |piece|, x[n..]);
      PieceSkips(t, j, x);
    }
  }

  lemma PieceSkips(t: Text, j: nat, x: Text)
    requires x != [] && MatchesAt(t, JsonText.FirstQuoted(x).0, j)
    ensures FindClose(t, j, QUOTE, false) == FindClose(t, j + |JsonText.FirstQuoted(x).0|, QUOTE, false)
  {
    var piece := JsonText.FirstQuoted(x).0;
    MatchUnits(t, piece, j);
    assert t[j + 0] == piece[0] && forall k :: 0 < k < |piece| ==> t[j + k] == piece[k];
    if |piece| == 6 {
      assert t[j + 2] == piece[2] && t[j + 3] == piece[3] && t[j + 4] == piece[4] && t[j + 5] == piece[5];
      assert FindClose(t, j, QUOTE, false) == FindClose(t, j + 2, QUOTE, false);
      assert FindClose(t, j + 2, QUOTE, false) == FindClose(t, j + 3, QUOTE, false);
      assert FindClose(t, j + 3, QUOTE, false) == FindClose(t, j + 4, QUOTE, false);
      assert FindClose(t, j + 4, QUOTE, false) == FindClose(t, j + 5, QUOTE, false);
    } else if |piece| == 2 {
      assert t[j + 1] == piece[1];
    }
  }

  lemma QuotedReads(t: Text, i: nat, x: Text)
    requires MatchesAt(t, JsonText.Quote(x), i) && !Is(t, i + |JsonText.Quote(x)|, QUOTE)
    ensures AtQuote(t, i) && !Triple(t, i, t[i])
    ensures ReadString(t, i) == Some((JsonText.Inside(x), i + |JsonText.Quote(x)|))
  {
    var inside := JsonText.Inside(x);
    assert JsonText.Quote(x) == [QUOTE] + (inside + [QUOTE]);
    MatchSplit(t, [QUOTE], inside + [QUOTE], i);
    MatchUnits(t, JsonText.Quote(x), i);
    assert t[i + 0] == QUOTE;
    InsideCloses(t, i + 1, x);
    if x == [] {
      assert i + |JsonText.Quote(x)| == i + 2;
    } else {
      var piece := JsonText.FirstQuoted(x).0;
      assert inside[0] == piece[0] != QUOTE;
      assert t[i + 1] == JsonText.Quote(x)[1] == inside[0];
    }
    assert !Triple(t, i, QUOTE);
    MatchSplit(t, inside, [QUOTE], i + 1);
  }

  lemma {:induction false} DigitsSkip(t: Text, i: nat, d: Text)
    requires MatchesAt(t, d, i) && forall k :: 0 <= k < |d| ==> IsDigit(d[k])
    ensures i <= |t| && SkipValue(t, i, []) == SkipValue(t, i + |d|, [])
    decreases |d|
  {
    if d != [] {
      MatchUnits(t, d, i);
      assert t[i + 0] == d[0];
      assert d[..1] + d[1..] == d;
      MatchSplit(t, d[..1], d[1..], i);
      DigitsSkip(t, i + 1, d[1..]);
    }
  }

  lemma CommaSkips(t: Text, i: nat, brackets: seq<Unit>)
    requires Is(t, i, COMMA)
    ensures SkipValue(t, i, brackets) == SkipValue(t, i + 1, brackets)
  {
  }

  lemma StringSkips(t: Text, i: nat, x: Text, brackets: seq<Unit>)
    requires MatchesAt(t, JsonText.Quote(x), i) && !Is(t, i + |JsonText.Quote(x)|, QUOTE)
    ensures i <= |t| && SkipValue(t, i, brackets) == SkipValue(t, i + |JsonText.Quote(x)|, brackets)
  {
    hide ReadString;
    QuotedReads(t, i, x);
  }

  lemma ListCloses(t: Text, i: nat)
    requires Is(t, i, CLOSE)
    ensures SkipValue(t, i, [OPEN]) == SkipValue(t, i + 1, [])
  {
    assert [OPEN][..0] == [];
  }

  // From the first item of a list to the position after its closing bracket.
  lemma {:induction false} ItemsSkip(t: Text, i: nat, items: seq<Text>)
    requires MatchesAt(t, Join(Quoted(items), COMMA) + [CLOSE], i)
    ensures i <= |t| && SkipValue(t, i, [OPEN]) == SkipValue(t, i + |Join(Quoted(items), COMMA)| + 1, [])
    decreases |items|
  {
    hide SkipValue, MatchesAt, JsonText.Quote;
    var text := Join(Quoted(items), COMMA);
    MatchLast(t, text, CLOSE, i);
    ListCloses(t, i + |text|);
    if |items| == 1 {
      StringSkips(t, i, items[0], [OPEN]);
    } else if |items| > 1 {
      var head := JsonText.Quote(items[0]);
      var rest := Join(Quoted(items[1..]), COMMA);
      assert Quoted(items)[1..] == Quoted(items[1..]);
      assert text + [CLOSE] == head + ([COMMA] + (rest + [CLOSE]));
      MatchSplit(t, head, [COMMA] + (rest + [CLOSE]), i);
      MatchHead(t, COMMA, rest + [CLOSE], i + |head|);
      StringSkips(t, i, items[0], [OPEN]);
      CommaSkips(t, i + |head|, [OPEN]);
      ItemsSkip(t, i + |head| + 1, items[1..]);
    }
  }

  lemma ValueSkips(t: Text, i: nat, v: Value)
    requires MatchesAt(t, ValueText(v) + [NEWLINE], i)
    ensures i <= |t| && SkipValue(t, i, []) == Some(i + |ValueText(v)| + 1)
  {
    hide ReadString, MatchesAt;
    var text := ValueText(v);
    MatchLast(t, text, NEWLINE, i);
    assert SkipValue(t, i + |text|, []) == Some(i + |text| + 1);
    match v
    case Str(x) =>
      QuotedReads(t, i, x);
    case Number(n) =>
      DigitsSkip(t, i, text);
    case List(items) =>
      var rest := Join(Quoted(items), COMMA) + [CLOSE];
      MatchHead(t, OPEN, rest, i);
      ItemsSkip(t, i + 1, items);
      assert [] + [OPEN] == [OPEN];
  }

  // ---- lines ----

  predicate Harmless(line: Line, server: Text, table: seq<Text>) {
    match line
    case Table(words) => !Conflicts(words, server)
    case Assign(key, _) => !Conflicts(table + [key], server) && table + [key] != [SERVERS]
    case _ => true
  }

  function TableAfter(line: Line, table: seq<Text>): seq<Text> {
    if line.Table? then line.words else table
  }

  lemma {:induction false} CommentEnds(t: Text, i: nat, text: Text)
    requires MatchesAt(t, text + [NEWLINE], i) && NEWLINE !in text
    ensures LineEnd(t, i) == i + |text|
    decreases |text|
  {
    MatchUnits(t, text + [NEWLINE], i);
    assert t[i + 0] == (text + [NEWLINE])[0];
    if text != [] {
      assert text[..1] + (text[1..] + [NEWLINE]) == text + [NEWLINE];
      MatchSplit(t, text[..1], text[1..] + [NEWLINE], i);
      CommentEnds(t, i + 1, text[1..]);
    }
  }

  lemma TableEntry(t: Text, i: nat, server: Text, m: Option<Span>, table: seq<Text>, found: bool, words: seq<Text>)
    requires MatchesAt(t, LineText(Table(words)) + [NEWLINE], i) && Words(words)
    requires Managed(m, i) || !Conflicts(words, server)
    ensures Is(t, i, OPEN) && SkipBlank(t, i) == i
    ensures Entry(t, i, server, m, table, found) == Next(i + |LineText(Table(words))|, words, found)
  {
    hide KeyPath, Conflicts, MatchesAt, Managed;
    var path := Join(words, DOT);
    assert LineText(Table(words)) + [NEWLINE] == [OPEN] + (path + ([CLOSE] + [NEWLINE]));
    MatchHead(t, OPEN, path + ([CLOSE] + [NEWLINE]), i);
    MatchSplit(t, path, [CLOSE] + [NEWLINE], i + 1);
    MatchHead(t, CLOSE, [NEWLINE], i + 1 + |path|);
    MatchFirst(t, path, i + 1);
    assert path[0] == words[0][0] && Bare(words[0][0]);
    WordsPath(t, i + 1, words, i + 1 + |path|);
  }

  lemma MiddleUnits(t: Text, i: nat, rest: Text)
    requires MatchesAt(t, MIDDLE + rest, i)
    ensures i + 3 <= |t| && SkipBlank(t, i) == i + 1 && Is(t, i + 1, EQUALS) && !Bare(t[i])
    ensures MatchesAt(t, rest, i + 3) && SkipValue(t, i + 2, []) == SkipValue(t, i + 3, [])
  {
    MatchSplit(t, MIDDLE, rest, i);
    MatchUnits(t, MIDDLE, i);
    assert t[i + 0] == MIDDLE[0] && t[i + 1] == MIDDLE[1] && t[i + 2] == MIDDLE[2];
  }

  lemma AssignParts(t: Text, i: nat, key: Text, v: Value)
    requires MatchesAt(t, LineText(Assign(key, v)) + [NEWLINE], i) && Word(key)
    ensures i < |t| && Bare(t[i]) && SkipBlank(t, i) == i
    ensures KeyPath(t, i) == Some(([key], i + |key| + 1)) && Is(t, i + |key| + 1, EQUALS)
    ensures SkipValue(t, i + |key| + 2, []) == Some(i + |LineText(Assign(key, v))| + 1)
  {
    hide KeyPath, MatchesAt, SkipValue, ValueText;
    var rest := ValueText(v) + [NEWLINE];
    assert LineText(Assign(key, v)) + [NEWLINE] == key + (MIDDLE + rest);
    MatchSplit(t, key, MIDDLE + rest, i);
    MatchFirst(t, key, i);
    var end := i + |key|;
    MiddleUnits(t, end, rest);
    assert Join([key], DOT) == key;
    WordsPath(t, i, [key], end);
    ValueSkips(t, end + 3, v);
  }

  lemma AssignEntry(t: Text, i: nat, server: Text, m: Option<Span>, table: seq<Text>, found: bool, key: Text, v: Value)
    requires MatchesAt(t, LineText(Assign(key, v)) + [NEWLINE], i) && Word(key)
    requires Managed(m, i) || Harmless(Assign(key, v), server, table)
    ensures i < |t| && Bare(t[i]) && SkipBlank(t, i) == i
    ensures Entry(t, i, server, m, table, found) == Next(i + |LineText(Assign(key, v))| + 1, table, found)
  {
    hide KeyPath, Conflicts, SkipValue, SkipBlank, LineText, Managed, Header, MatchesAt;
    AssignParts(t, i, key, v);
  }

  lemma ScanComment(t: Text, i: nat, server: Text, m: Option<Span>, table: seq<Text>, found: bool, end: nat)
    requires Is(t, i, HASH) && LineEnd(t, i) == end && Is(t, end, NEWLINE)
    ensures Scan(t, i, server, m, table, found) == Scan(t, end + 1, server, m, table, found || StartsBlock(m, i))
  {
    hide Entry, StartsBlock;
  }

  lemma ScanEntry(t: Text, i: nat, server: Text, m: Option<Span>, table: seq<Text>, found: bool,
                  table': seq<Text>, next: nat)
    requires i < |t| && SkipBlank(t, i) == i && t[i] != HASH && t[i] != NEWLINE
    requires Entry(t, i, server, m, table, found) == Next(next, table', found)
    ensures next <= |t| && Scan(t, i, server, m, table, found) == Scan(t, next, server, m, table', found)
  {
    hide Entry, StartsBlock;
  }

  /** The scanner passes a whole line, and only a start marker or a header changes its state. */
  lemma ScanLine(t: Text, i: nat, server: Text, m: Option<Span>, table: seq<Text>, found: bool, line: Line)
    requires MatchesAt(t, LineText(line) + [NEWLINE], i) && WellFormedLine(line)
    requires Managed(m, i) || Harmless(line, server, table)
    ensures i < |t|
    ensures Scan(t, i, server, m, table, found) ==
      Scan(t, i + |LineText(line)| + 1, server, m, TableAfter(line, table),
           found || (line.Comment? && StartsBlock(m, i)))
  {
    hide Entry, Conflicts, Managed, Join, ValueText, MatchesAt, Scan, StartsBlock;
    var text := LineText(line);
    MatchLast(t, text, NEWLINE, i);
    match line
    case Empty =>
      ScanNewline(t, i, server, m, table, found);
    case Comment(words) =>
      assert text + [NEWLINE] == [HASH] + (words + [NEWLINE]);
      MatchHead(t, HASH, words + [NEWLINE], i);
      CommentEnds(t, i + 1, words);
      ScanComment(t, i, server, m, table, found, i + |text|);
    case Table(words) =>
      TableEntry(t, i, server, m, table, found, words);
      ScanEntry(t, i, server, m, table, found, words, i + |text|);
      ScanNewline(t, i + |text|, server, m, words, found);
    case Assign(key, v) =>
      AssignEntry(t, i, server, m, table, found, key, v);
      ScanEntry(t, i, server, m, table, found, table, i + |text| + 1);
  }
}
