/** An entry of the server is found however its key is spelled, and a plan is written exactly when there is none. */
module CodexDetect {
  import opened Common
  import opened Utf8
  import opened Ascii
  import opened TextSearch
  import opened TomlScan
  import opened CodexBlock
  import opened CodexAppend
  import opened CodexKeys
  import opened CodexTheorems
  import TomlExtend
  import JsonText

  // ---- spellings of a key path ----

  datatype Style = Plain | DoubleQuoted | SingleQuoted

  // A key with its spelling and the blanks around it.
  datatype Key = Key(before: Text, name: Text, style: Style, after: Text)

  predicate Blanks(b: Text) { forall k :: 0 <= k < |b| ==> Blank(b[k]) }

  function NameText(k: Key): Text {
    match k.style
    case Plain => k.name
    case DoubleQuoted => JsonText.Quote(k.name)
    case SingleQuoted => [APOSTROPHE] + k.name + [APOSTROPHE]
  }

  function KeyText(k: Key): Text { k.before + (NameText(k) + k.after) }

  // A key TOML takes in its spelling.
  predicate ValidKey(k: Key) {
    Blanks(k.before) && Blanks(k.after) &&
    match k.style
    case Plain => Word(k.name)
    case DoubleQuoted => WellFormed(k.name)
    case SingleQuoted => APOSTROPHE !in k.name && NEWLINE !in k.name && RETURN !in k.name
  }

  predicate ValidKeys(ks: seq<Key>) { ks != [] && forall i :: 0 <= i < |ks| ==> ValidKey(ks[i]) }

  function Names(ks: seq<Key>): (r: seq<Text>)
    ensures |r| == |ks| && forall i :: 0 <= i < |ks| ==> r[i] == ks[i].name
  {
    seq(|ks|, i requires 0 <= i < |ks| => ks[i].name)
  }

  function PathText(ks: seq<Key>): Text {
    if ks == [] then []
    else if |ks| == 1 then KeyText(ks[0])
    else KeyText(ks[0]) + ([DOT] + PathText(ks[1..]))
  }

  // What may stand right after a key: blanks, or one of the marks that end or continue a path.
  predicate Ends(u: Unit) { Blank(u) || u == DOT || u == CLOSE || u == EQUALS }

  lemma {:induction false} BlanksSkip(t: Text, i: nat, b: Text)
    requires MatchesAt(t, b, i) && Blanks(b) && (i + |b| < |t| ==> !Blank(t[i + |b|]))
    ensures SkipBlank(t, i) == i + |b|
    decreases |b|
  {
    if b != [] {
      assert [b[0]] + b[1..] == b;
      MatchHead(t, b[0], b[1..], i);
      BlanksSkip(t, i + 1, b[1..]);
    }
  }

  lemma {:induction false} LiteralCloses(t: Text, j: nat, x: Text)
    requires MatchesAt(t, x + [APOSTROPHE], j) && APOSTROPHE !in x && NEWLINE !in x && RETURN !in x
    ensures FindClose(t, j, APOSTROPHE, false) == Some(j + |x|)
    decreases |x|
  {
    if x == [] {
      MatchFirst(t, x + [APOSTROPHE], j);
    } else {
      assert x + [APOSTROPHE] == [x[0]] + (x[1..] + [APOSTROPHE]);
      MatchHead(t, x[0], x[1..] + [APOSTROPHE], j);
      LiteralCloses(t, j + 1, x[1..]);
    }
  }

  // A literal string is read unit for unit.
  lemma LiteralReads(t: Text, i: nat, x: Text)
    requires MatchesAt(t, [APOSTROPHE] + x + [APOSTROPHE], i) && !Is(t, i + |x| + 2, APOSTROPHE)
    requires APOSTROPHE !in x && NEWLINE !in x && RETURN !in x
    ensures Is(t, i, APOSTROPHE) && !Triple(t, i, APOSTROPHE) && ReadString(t, i) == Some((x, i + |x| + 2))
  {
    hide FindClose;
    assert [APOSTROPHE] + x + [APOSTROPHE] == [APOSTROPHE] + (x + [APOSTROPHE]);
    MatchHead(t, APOSTROPHE, x + [APOSTROPHE], i);
    LiteralCloses(t, i + 1, x);
    MatchSplit(t, x, [APOSTROPHE], i + 1);
    if x == [] {
      assert i + |x| + 2 == i + 2;
    } else {
      MatchFirst(t, x, i + 1);
    }
  }

  lemma KeyIsRead(t: Text, i: nat, k: Key)
    requires ValidKey(k) && MatchesAt(t, NameText(k), i)
    requires i + |NameText(k)| < |t| && Ends(t[i + |NameText(k)|])
    ensures KeyPart(t, i) == Some((k.name, i + |NameText(k)|)) && i < |t| && !Blank(t[i])
  {
    hide MatchesAt, ReadString, FindClose, JsonText.Quote, SkipBare, Triple;
    match k.style
    case Plain =>
      WordPart(t, i, k.name);
      MatchFirst(t, k.name, i);
    case DoubleQuoted =>
      QuotedKeyIsRead(t, i, k.name);
      QuoteFirst(t, i, k.name);
    case SingleQuoted => LiteralReads(t, i, k.name);
  }

  // A key with its blanks, up to what stands after them.
  lemma SpelledKey(t: Text, i: nat, k: Key)
    requires ValidKey(k) && MatchesAt(t, KeyText(k), i)
    requires var end := i + |KeyText(k)|; end < |t| && Ends(t[end]) && !Blank(t[end])
    ensures var first := SkipBlank(t, i);
      first == i + |k.before| && KeyPart(t, first) == Some((k.name, first + |NameText(k)|))
      && SkipBlank(t, first + |NameText(k)|) == i + |KeyText(k)|
  {
    hide KeyPart, MatchesAt, NameText, SkipBlank;
    var (at, name) := (i + |k.before|, NameText(k));
    MatchSplit(t, k.before, name + k.after, i);
    MatchSplit(t, name, k.after, at);
    if k.after != [] {
      MatchFirst(t, k.after, at + |name|);
    }
    KeyIsRead(t, at, k);
    BlanksSkip(t, i, k.before);
    BlanksSkip(t, at + |name|, k.after);
  }

  lemma LastKey(t: Text, i: nat, k: Key)
    requires ValidKey(k) && MatchesAt(t, KeyText(k), i)
    requires var end := i + |KeyText(k)|; Is(t, end, CLOSE) || Is(t, end, EQUALS)
    ensures KeyPath(t, i) == Some(([k.name], i + |KeyText(k)|))
  {
    hide KeyPart, MatchesAt, SkipBlank, KeyText, ValidKey, NameText;
    SpelledKey(t, i, k);
  }

  lemma FirstKey(t: Text, i: nat, k: Key, rest: seq<Text>, end: nat)
    requires ValidKey(k) && MatchesAt(t, KeyText(k), i) && Is(t, i + |KeyText(k)|, DOT)
    requires KeyPath(t, i + |KeyText(k)| + 1) == Some((rest, end))
    ensures KeyPath(t, i) == Some(([k.name] + rest, end))
  {
    hide KeyPart, MatchesAt, SkipBlank, KeyText, ValidKey, NameText;
    SpelledKey(t, i, k);
  }

  /** A key path is read as its names, whatever the spelling of each and the blanks between them. */
  lemma {:induction false} SpelledPath(t: Text, i: nat, ks: seq<Key>)
    requires ValidKeys(ks) && MatchesAt(t, PathText(ks), i)
    requires var end := i + |PathText(ks)|; Is(t, end, CLOSE) || Is(t, end, EQUALS)
    ensures KeyPath(t, i) == Some((Names(ks), i + |PathText(ks)|))
    decreases |ks|
  {
    hide KeyPath, MatchesAt, KeyText, ValidKey;
    if |ks| == 1 {
      LastKey(t, i, ks[0]);
      assert Names(ks) == [ks[0].name];
    } else {
      var rest := PathText(ks[1..]);
      MatchSplit(t, KeyText(ks[0]), [DOT] + rest, i);
      MatchHead(t, DOT, rest, i + |KeyText(ks[0])|);
      SpelledPath(t, i + |KeyText(ks[0])| + 1, ks[1..]);
      FirstKey(t, i, ks[0], Names(ks[1..]), i + |PathText(ks)|);
      assert Names(ks) == [ks[0].name] + Names(ks[1..]);
    }
  }

  // ---- an entry of the server ----

  // How an entry of a server can be written at the head of a line.
  datatype Spelled =
    | TableHeader(keys: seq<Key>)     // [mcp_servers.NAME] or deeper
    | ArrayHeader(keys: seq<Key>)     // [[mcp_servers]] or deeper
    | Assignment(keys: seq<Key>)      // a key of the table in force, and `=`

  function EntryText(e: Spelled): Text {
    match e
    case TableHeader(keys) => [OPEN] + (PathText(keys) + [CLOSE])
    case ArrayHeader(keys) => [OPEN] + ([OPEN] + (PathText(keys) + ([CLOSE] + [CLOSE])))
    case Assignment(keys) => PathText(keys) + [EQUALS]
  }

  // The entry speaks of the server's table, of all servers at once, or of an array of them.
  predicate NamesServer(path: seq<Text>, server: Text) {
    |path| >= 2 && path[0] == Lit("mcp_servers") && path[1] == server
  }

  predicate Concerns(e: Spelled, server: Text, table: seq<Text>) {
    ValidKeys(e.keys) &&
    var names := Names(e.keys);
    match e
    case TableHeader(_) => NamesServer(names, server)
    case ArrayHeader(_) => names[0] == Lit("mcp_servers")
    case Assignment(_) => NamesServer(table + names, server) || table + names == [Lit("mcp_servers")]
  }

  lemma HeaderHits(t: Text, i: nat, server: Text, m: Option<Span>, table: seq<Text>, found: bool, e: Spelled)
    requires MatchesAt(t, EntryText(e), i) && Concerns(e, server, table) && !Managed(m, i) && !e.Assignment?
    ensures i < |t| && t[i] == OPEN && TomlScan.Entry(t, i, server, m, table, found) == Hit
  {
    hide KeyPath, MatchesAt, Managed, PathText;
    var (path, at) := (PathText(e.keys), if e.TableHeader? then i + 1 else i + 2);
    var close := if e.TableHeader? then [CLOSE] else [CLOSE] + [CLOSE];
    if e.TableHeader? {
      MatchHead(t, OPEN, path + close, i);
    } else {
      MatchHead(t, OPEN, [OPEN] + (path + close), i);
      MatchHead(t, OPEN, path + close, i + 1);
    }
    MatchSplit(t, path, close, at);
    MatchFirst(t, close, at + |path|);
    SpelledPath(t, at, e.keys);
    PathStarts(t, at, e.keys);
    if e.ArrayHeader? {
      MatchHead(t, CLOSE, [CLOSE], at + |path|);
      MatchFirst(t, [CLOSE], at + |path| + 1);
    }
  }

  // A path starts with none of the marks the scanner takes for something else.
  lemma PathStarts(t: Text, i: nat, ks: seq<Key>)
    requires ValidKeys(ks) && MatchesAt(t, PathText(ks), i)
    requires var end := i + |PathText(ks)|; Is(t, end, CLOSE) || Is(t, end, EQUALS)
    ensures i < |t| && t[i] != OPEN && t[i] != HASH && t[i] != NEWLINE
    ensures ks[0].before == [] ==> SkipBlank(t, i) == i
  {
    hide MatchesAt, JsonText.Quote;
    var rest := if |ks| == 1 then [] else [DOT] + PathText(ks[1..]);
    assert PathText(ks) == KeyText(ks[0]) + rest;
    MatchSplit(t, KeyText(ks[0]), rest, i);
    MatchSplit(t, ks[0].before, NameText(ks[0]) + ks[0].after, i);
    if ks[0].before != [] {
      MatchFirst(t, ks[0].before, i);
    } else {
      MatchSplit(t, NameText(ks[0]), ks[0].after, i);
      NameStarts(ks[0]);
      MatchFirst(t, NameText(ks[0]), i);
    }
  }

  lemma NameStarts(k: Key)
    requires ValidKey(k)
    ensures var name := NameText(k);
      name != [] && (Bare(name[0]) || name[0] == QUOTE || name[0] == APOSTROPHE)
  {
  }

  lemma AssignmentHits(t: Text, i: nat, server: Text, m: Option<Span>, table: seq<Text>, found: bool, e: Spelled)
    requires MatchesAt(t, EntryText(e), i) && Concerns(e, server, table) && !Managed(m, i) && e.Assignment?
    ensures i < |t| && t[i] != OPEN && t[i] != HASH && t[i] != NEWLINE
    ensures TomlScan.Entry(t, i, server, m, table, found) == Hit
  {
    hide KeyPath, MatchesAt, Managed, PathText, TomlScan.Header;
    var path := PathText(e.keys);
    MatchLast(t, path, EQUALS, i);
    SpelledPath(t, i, e.keys);
    PathStarts(t, i, e.keys);
  }

  // At the head of a line, after blanks.
  lemma ScanHits(t: Text, i: nat, server: Text, m: Option<Span>, table: seq<Text>, found: bool, indent: Text,
                 e: Spelled)
    requires MatchesAt(t, indent + EntryText(e), i) && Blanks(indent) && Concerns(e, server, table)
    requires !Managed(m, i + |indent|) && (e.Assignment? ==> e.keys[0].before == [])
    ensures i <= |t| && Scan(t, i, server, m, table, found) == Conflict
  {
    hide MatchesAt, EntryText, Concerns, Managed, TomlScan.Entry, StartsBlock;
    MatchSplit(t, indent, EntryText(e), i);
    var at := i + |indent|;
    if e.Assignment? {
      AssignmentHits(t, at, server, m, table, found, e);
      AssignmentStarts(t, at, e, server, table);
    } else {
      HeaderHits(t, at, server, m, table, found, e);
    }
    BlanksSkip(t, i, indent);
  }

  lemma AssignmentStarts(t: Text, i: nat, e: Spelled, server: Text, table: seq<Text>)
    requires MatchesAt(t, EntryText(e), i) && Concerns(e, server, table) && e.Assignment? && e.keys[0].before == []
    ensures i < |t| && !Blank(t[i])
  {
    hide MatchesAt, JsonText.Quote;
    var rest := if |e.keys| == 1 then [] else [DOT] + PathText(e.keys[1..]);
    assert PathText(e.keys) == NameText(e.keys[0]) + (e.keys[0].after + rest);
    MatchLast(t, PathText(e.keys), EQUALS, i);
    MatchSplit(t, NameText(e.keys[0]), e.keys[0].after + rest, i);
    NameStarts(e.keys[0]);
    MatchFirst(t, NameText(e.keys[0]), i);
  }

  // ---- texts with an entry ----

  /** An entry of the server after a text that scans clear is found, however it is spelled and indented. */
  lemma HeaderIsFound(s: Text, t: Text, server: Text, m: Option<Span>, indent: Text, e: Spelled)
    requires Scan(s, 0, server, m, [], false) == Clear && TomlExtend.Extends(s, t)
    requires MatchesAt(t, indent + EntryText(e), |s| + 1) && Blanks(indent)
    requires Concerns(e, server, []) && !e.Assignment? && !Managed(m, |s| + 1 + |indent|)
    ensures Scan(t, 0, server, m, [], false) == Conflict
  {
    hide MatchesAt, EntryText, Scan, Managed, Concerns;
    var table, found := TomlExtend.ScanExtends(s, t, 0, server, m, m, [], false);
    HeaderConcerns(e, server, table);
    ScanHits(t, |s| + 1, server, m, table, found, indent, e);
  }

  lemma HeaderConcerns(e: Spelled, server: Text, table: seq<Text>)
    requires !e.Assignment? && Concerns(e, server, [])
    ensures Concerns(e, server, table)
  {
  }

  // The table that a header puts in force.
  lemma HeaderPasses(t: Text, i: nat, server: Text, m: Option<Span>, table: seq<Text>, found: bool, keys: seq<Key>)
    requires MatchesAt(t, EntryText(TableHeader(keys)) + [NEWLINE], i) && ValidKeys(keys)
    requires !NamesServer(Names(keys), server)
    ensures i + |EntryText(TableHeader(keys))| < |t|
    ensures Scan(t, i, server, m, table, found) ==
      Scan(t, i + |EntryText(TableHeader(keys))| + 1, server, m, Names(keys), found)
  {
    hide KeyPath, MatchesAt, Managed, PathText, Scan, SkipBlank;
    var (path, text) := (PathText(keys), EntryText(TableHeader(keys)));
    MatchLast(t, text, NEWLINE, i);
    MatchHead(t, OPEN, path + [CLOSE], i);
    MatchLast(t, path, CLOSE, i + 1);
    SpelledPath(t, i + 1, keys);
    PathStarts(t, i + 1, keys);
    BlanksSkip(t, i, []);
    ScanEntry(t, i, server, m, table, found, Names(keys), i + |text|);
    ScanNewline(t, i + |text|, server, m, Names(keys), found);
  }

  /**
   * A key that completes the path of the table in force is found: after a header of the servers' own table it is
   * enough that it names the server.
   */
  lemma KeyAfterHeaderIsFound(s: Text, t: Text, server: Text, keys: seq<Key>, indent: Text, e: Spelled)
    requires Scan(s, 0, server, None, [], false) == Clear && TomlExtend.Extends(s, t)
    requires ValidKeys(keys) && !NamesServer(Names(keys), server)
    requires MatchesAt(t, (EntryText(TableHeader(keys)) + [NEWLINE]) + (indent + EntryText(e)), |s| + 1)
    requires Blanks(indent) && e.Assignment? && Concerns(e, server, Names(keys)) && e.keys[0].before == []
    ensures Scan(t, 0, server, None, [], false) == Conflict
  {
    hide MatchesAt, EntryText, Scan, Managed, Concerns, NamesServer;
    var table, found := TomlExtend.ScanExtends(s, t, 0, server, None, None, [], false);
    var header := EntryText(TableHeader(keys)) + [NEWLINE];
    MatchSplit(t, header, indent + EntryText(e), |s| + 1);
    HeaderPasses(t, |s| + 1, server, None, table, found, keys);
    NotManaged(|s| + 1 + |header| + |indent|);
    ScanHits(t, |s| + 1 + |header|, server, None, Names(keys), found, indent, e);
  }

  lemma NotManaged(i: nat)
    ensures !Managed(None, i)
  {
  }

  // Lines before the first header.
  predicate TopLevel(lines: seq<Line>) {
    forall i :: 0 <= i < |lines| ==>
      WellFormedLine(lines[i]) && !lines[i].Table? && (lines[i].Assign? ==> lines[i].key != SERVERS)
  }

  lemma {:induction false} TopLevelPasses(t: Text, i: nat, server: Text, lines: seq<Line>)
    requires TopLevel(lines) && MatchesAt(t, Terminated(lines), i)
    ensures i + |Terminated(lines)| <= |t|
    ensures Scan(t, i, server, None, [], false) == Scan(t, i + |Terminated(lines)|, server, None, [], false)
    decreases |lines|
  {
    hide Scan, LineText, MatchesAt, WellFormedLine, Harmless, TableAfter, StartsBlock;
    if lines == [] {
      MatchInside(t, [], i);
    } else {
      var text, rest := LineText(lines[0]), Terminated(lines[1..]);
      assert Terminated(lines) == (text + [NEWLINE]) + rest;
      MatchSplit(t, text + [NEWLINE], rest, i);
      TopIsHarmless(lines[0], server);
      ScanLine(t, i, server, None, [], false, lines[0]);
      NotStarted(i);
      TopLevelPasses(t, i + |text| + 1, server, lines[1..]);
    }
  }

  lemma TopIsHarmless(line: Line, server: Text)
    requires !line.Table? && (line.Assign? ==> line.key != SERVERS)
    ensures Harmless(line, server, []) && TableAfter(line, []) == []
  {
    if line.Assign? {
      assert [] + [line.key] == [line.key] && [line.key][0] == line.key;
    }
  }

  lemma NotStarted(i: nat)
    ensures !StartsBlock(None, i)
  {
  }

  lemma MatchInside(t: Text, p: Text, i: nat)
    requires MatchesAt(t, p, i)
    ensures i + |p| <= |t|
  {
  }

  /** A dotted key of the server, or an inline table of all servers, is found among the lines before any header. */
  lemma TopLevelKeyIsFound(t: Text, server: Text, lines: seq<Line>, indent: Text, e: Spelled)
    requires TopLevel(lines) && MatchesAt(t, Terminated(lines) + (indent + EntryText(e)), 0)
    requires Blanks(indent) && Concerns(e, server, []) && (e.Assignment? ==> e.keys[0].before == [])
    ensures Scan(t, 0, server, None, [], false) == Conflict
  {
    hide MatchesAt, EntryText, Scan, Concerns, Terminated;
    MatchSplit(t, Terminated(lines), indent + EntryText(e), 0);
    TopLevelPasses(t, 0, server, lines);
    NotManaged(|Terminated(lines)| + |indent|);
    ScanHits(t, |Terminated(lines)|, server, None, [], false, indent, e);
  }

  // ---- what is written ----

  ghost predicate HasMarker(s: Text, server: Text) {
    exists k: nat, side: Text :: Side(side) && MatchesAt(s, MarkerText(server, side), k)
  }

  // The block of the plan stands at i, and its markers stand nowhere else.
  ghost predicate OneBlock(s: Text, plan: Plan, i: nat) {
    && MatchesAt(s, Block(plan), i)
    && (forall k: nat :: MatchesAt(s, MarkerText(plan.server, START), k) ==> k == i)
    && (forall k: nat :: MatchesAt(s, MarkerText(plan.server, END), k) ==> k == MarkerPosition(i, plan, END))
  }

  // A marker is found, and found once, exactly when it stands in one place.
  lemma MarkerSearch(s: Text, server: Text, side: Text)
    requires ServerName(server) && Side(side)
    ensures var (p, first) := (MarkerText(server, side), IndexOf(s, MarkerText(server, side), 0));
      && (first == -1 <==> forall k: nat :: !MatchesAt(s, p, k))
      && (first >= 0 ==> MatchesAt(s, p, first))
      && (first >= 0 && !Repeated(s, p, first) <==>
            exists i: nat :: MatchesAt(s, p, i) && forall k: nat :: MatchesAt(s, p, k) ==> k == i)
  {
    hide MatchesAt, ServerName, MarkerText;
    MarkerUnits(server, side);
    var (p, first) := (MarkerText(server, side), IndexOf(s, MarkerText(server, side), 0));
    forall k: nat | MatchesAt(s, p, k) && first < k ensures k >= first + |p| {
      MatchFirst(s, p, k);
      if k < first + |p| {
        Avoids(s, p, first, HASH, k);
      }
    }
  }

  // The markers at the two ends of a block.
  lemma BlockEnds(s: Text, plan: Plan, i: nat)
    requires ValidPlan(plan) && MatchesAt(s, Block(plan), i)
    ensures MatchesAt(s, MarkerStart(plan.server), i)
    ensures MarkerPosition(i, plan, END) > i && MatchesAt(s, MarkerEnd(plan.server), MarkerPosition(i, plan, END))
    ensures s[i..MarkerPosition(i, plan, END) + |MarkerEnd(plan.server)|] == Block(plan)
  {
    hide Block, ValidPlan, MarkerStart, MarkerEnd;
    var middle := BlockPieces(plan);
    var (opening, closing) := (MarkerStart(plan.server), MarkerEnd(plan.server));
    assert Block(plan) == opening + (middle + closing) by {
      assert (Block(plan) + [NEWLINE])[..|Block(plan)|] == Block(plan);
      assert (opening + (middle + (closing + [NEWLINE])))[..|opening + (middle + closing)|]
        == opening + (middle + closing);
    }
    MatchSplit(s, opening, middle + closing, i);
    MatchSplit(s, middle, closing, i + |opening|);
  }

  lemma SlicedBlock(s: Text, plan: Plan, start: nat, end: nat)
    requires start <= end + |MarkerEnd(plan.server)| <= |s|
    requires s[start..end + |MarkerEnd(plan.server)|] == Block(plan)
    ensures MatchesAt(s, Block(plan), start) && end == MarkerPosition(start, plan, END)
  {
    hide Block, MarkerEnd;
  }

  lemma NoMarkers(s: Text, server: Text)
    requires ServerName(server)
    ensures HasMarker(s, server) <==> IndexOf(s, MarkerStart(server), 0) >= 0 || IndexOf(s, MarkerEnd(server), 0) >= 0
  {
    hide MatchesAt, ServerName, MarkerText, IndexOf, Repeated;
    MarkerSearch(s, server, START);
    MarkerSearch(s, server, END);
    assert Side(START) && Side(END);
  }

  // What the searches and the comparison with the plan establish.
  predicate BlockFound(s: Text, plan: Plan) {
    var (opening, closing) := (MarkerStart(plan.server), MarkerEnd(plan.server));
    var (start, end) := (IndexOf(s, opening, 0), IndexOf(s, closing, 0));
    && start >= 0 && end >= start && !Repeated(s, opening, start) && !Repeated(s, closing, end)
    && end + |closing| <= |s| && s[start..end + |closing|] == Block(plan)
  }

  lemma OneIsFound(s: Text, plan: Plan, i: nat)
    requires ValidPlan(plan) && OneBlock(s, plan, i)
    ensures BlockFound(s, plan) && IndexOf(s, MarkerStart(plan.server), 0) == i
    ensures IndexOf(s, MarkerEnd(plan.server), 0) == MarkerPosition(i, plan, END)
  {
    hide Block, MarkerText, MatchesAt, IndexOf, ValidPlan, Repeated;
    PlanServer(plan);
    BlockEnds(s, plan, i);
    MarkerSearch(s, plan.server, START);
    MarkerSearch(s, plan.server, END);
    MatchInside(s, MarkerEnd(plan.server), MarkerPosition(i, plan, END));
  }

  lemma FoundIsOne(s: Text, plan: Plan)
    requires ValidPlan(plan) && BlockFound(s, plan)
    ensures OneBlock(s, plan, IndexOf(s, MarkerStart(plan.server), 0))
  {
    hide Block, MarkerText, MatchesAt, IndexOf, ValidPlan, Repeated;
    PlanServer(plan);
    MarkerSearch(s, plan.server, START);
    MarkerSearch(s, plan.server, END);
    SlicedBlock(s, plan, IndexOf(s, MarkerStart(plan.server), 0), IndexOf(s, MarkerEnd(plan.server), 0));
  }

  // What the scan says about the text beside the block at i.
  function Outside(s: Text, plan: Plan, i: nat): Outcome {
    var end := MarkerPosition(i, plan, END);
    if end < 0 then Malformed else Scan(s, 0, plan.server, Some(Span(i, end)), [], false)
  }

  lemma MarkersFit(s: Text, plan: Plan)
    requires ValidPlan(plan)
    ensures forall side | Side(side) ::
      var (p, k) := (MarkerText(plan.server, side), IndexOf(s, MarkerText(plan.server, side), 0));
      k == -1 || 0 <= k <= k + |p| <= |s|
  {
    hide MarkerText, IndexOf, ValidPlan;
    PlanServer(plan);
    forall side | Side(side)
      ensures var (p, k) := (MarkerText(plan.server, side), IndexOf(s, MarkerText(plan.server, side), 0));
        k == -1 || 0 <= k <= k + |p| <= |s|
    {
      MarkerUnits(plan.server, side);
      FoundInside(s, MarkerText(plan.server, side));
    }
  }

  lemma NextByCases(existing: Option<Text>, plan: Plan)
    requires ValidPlan(plan)
    ensures var s := if existing.Some? then existing.value else [];
      var (next, start) := (NextContent(existing, plan), IndexOf(s, MarkerStart(plan.server), 0));
      && (start == -1 == IndexOf(s, MarkerEnd(plan.server), 0) ==>
            next == match Scan(s, 0, plan.server, None, [], false)
                    case Malformed => Err(MalformedToml)
                    case Conflict => Err(AlreadyExists)
                    case Clear => Ok(Written(Appended(s, plan), true)))
      && (start >= 0 && BlockFound(s, plan) && IndexOf(s, MarkerEnd(plan.server), 0) == MarkerPosition(start, plan, END)
          ==> next == match Outside(s, plan, start)
                      case Malformed => Err(MalformedToml)
                      case Conflict => Err(AlsoOutside)
                      case Clear => Ok(Written(s, false)))
      && (!(start == -1 == IndexOf(s, MarkerEnd(plan.server), 0)) && !BlockFound(s, plan) ==>
            next == Err(MalformedBlock) || next == Err(DiffersFromPlan))
  {
    hide Block, Scan, MarkerText, MatchesAt, IndexOf, Appended, ValidPlan;
    var s := if existing.Some? then existing.value else [];
    MarkersFit(s, plan);
  }

  /**
   * When a run appends, and when it recognises the block: no marker of the server stands in the text, or its block
   * stands in one place with no other marker; and the rest of the text has no entry of the server.
   */
  lemma WrittenExactly(existing: Option<Text>, plan: Plan)
    requires ValidPlan(plan)
    ensures var s := if existing.Some? then existing.value else [];
      var next := NextContent(existing, plan);
      && (next == Ok(Written(Appended(s, plan), true)) <==>
            !HasMarker(s, plan.server) && Scan(s, 0, plan.server, None, [], false) == Clear)
      && (next == Err(AlreadyExists) <==>
            !HasMarker(s, plan.server) && Scan(s, 0, plan.server, None, [], false) == Conflict)
      && (next == Ok(Written(s, false)) <==> exists i: nat :: OneBlock(s, plan, i) && Outside(s, plan, i) == Clear)
      && (next == Err(AlsoOutside) <==> exists i: nat :: OneBlock(s, plan, i) && Outside(s, plan, i) == Conflict)
  {
    hide NextContent, Scan, MarkerText, IndexOf, Appended, ValidPlan, OneBlock, HasMarker, BlockFound, Outside, Block;
    var s := if existing.Some? then existing.value else [];
    PlanServer(plan);
    NoMarkers(s, plan.server);
    NextByCases(existing, plan);
    MarkersFit(s, plan);
    Grows(s, plan);
    forall i: nat | OneBlock(s, plan, i)
      ensures BlockFound(s, plan) && IndexOf(s, MarkerStart(plan.server), 0) == i
      ensures IndexOf(s, MarkerEnd(plan.server), 0) == MarkerPosition(i, plan, END)
    {
      OneIsFound(s, plan, i);
    }
    if BlockFound(s, plan) {
      FoundIsOne(s, plan);
      FoundStarts(s, plan);
    }
  }

  lemma FoundStarts(s: Text, plan: Plan)
    requires BlockFound(s, plan)
    ensures IndexOf(s, MarkerStart(plan.server), 0) >= 0
  {
  }

  lemma PlanServer(plan: Plan)
    requires ValidPlan(plan)
    ensures ServerName(plan.server)
  {
  }

  lemma Grows(s: Text, plan: Plan)
    ensures Appended(s, plan) != s
  {
    assert |Appended(s, plan)| > |s|;
  }

  /** A server that has an entry already is refused, whatever plan is asked for. */
  lemma ExistingEntryIsRefused(s: Text, t: Text, plan: Plan, indent: Text, e: Spelled)
    requires ValidPlan(plan) && !HasMarker(t, plan.server)
    requires Scan(s, 0, plan.server, None, [], false) == Clear && TomlExtend.Extends(s, t)
    requires MatchesAt(t, indent + EntryText(e), |s| + 1) && Blanks(indent)
    requires Concerns(e, plan.server, []) && !e.Assignment?
    ensures NextContent(Some(t), plan) == Err(AlreadyExists)
  {
    hide NextContent, Scan, ValidPlan, HasMarker, OneBlock, Outside, Concerns, EntryText, MatchesAt, Managed;
    NotManaged(|s| + 1 + |indent|);
    HeaderIsFound(s, t, plan.server, None, indent, e);
    WrittenExactly(Some(t), plan);
  }

  // Text without `#` after a newline has no marker.
  lemma SameMarkers(s: Text, t: Text, server: Text, side: Text, k: nat)
    requires ServerName(server) && Side(side) && TomlExtend.Extends(s, t) && HASH !in t[|s|..]
    ensures MatchesAt(t, MarkerText(server, side), k) <==> MatchesAt(s, MarkerText(server, side), k)
  {
    hide ServerName, MarkerText;
    var p := MarkerText(server, side);
    MarkerUnits(server, side);
    assert k + |p| <= |s| ==> t[k..k + |p|] == t[..|s|][k..k + |p|] == s[k..k + |p|];
    assert forall j :: |s| <= j < |t| ==> t[j] == t[|s|..][j - |s|];
    if MatchesAt(t, p, k) && k + |p| > |s| {
      MatchFirst(t, p, k);
      if k < |s| {
        Avoids(t, p, k, NEWLINE, |s|);
      }
    }
  }

  /** An entry beside the managed block is found, and the run refuses to go on. */
  lemma EntryBesideBlockIsRefused(s: Text, t: Text, plan: Plan, indent: Text, e: Spelled)
    requires ValidPlan(plan) && NextContent(Some(s), plan) == Ok(Written(s, false))
    requires TomlExtend.Extends(s, t) && HASH !in t[|s|..]
    requires MatchesAt(t, indent + EntryText(e), |s| + 1) && Blanks(indent)
    requires Concerns(e, plan.server, []) && !e.Assignment?
    ensures NextContent(Some(t), plan) == Err(AlsoOutside)
  {
    hide NextContent, Scan, ValidPlan, HasMarker, Concerns, EntryText, MatchesAt, Block, MarkerText, Managed;
    WrittenExactly(Some(s), plan);
    var i: nat :| OneBlock(s, plan, i) && Outside(s, plan, i) == Clear;
    PlanServer(plan);
    forall k: nat, side | Side(side)
      ensures MatchesAt(t, MarkerText(plan.server, side), k) <==> MatchesAt(s, MarkerText(plan.server, side), k)
    {
      SameMarkers(s, t, plan.server, side, k);
    }
    MatchLonger(s, t, Block(plan), i);
    assert OneBlock(t, plan, i);
    var end := MarkerPosition(i, plan, END);
    BlockEnds(s, plan, i);
    MatchInside(s, MarkerEnd(plan.server), end);
    BeyondManaged(i, end, |s| + 1 + |indent|);
    HeaderIsFound(s, t, plan.server, Some(Span(i, end)), indent, e);
    WrittenExactly(Some(t), plan);
  }

  lemma MatchLonger(s: Text, t: Text, p: Text, i: nat)
    requires TomlExtend.Extends(s, t) && MatchesAt(s, p, i)
    ensures MatchesAt(t, p, i)
  {
    assert t[i..i + |p|] == t[..|s|][i..i + |p|];
  }

  lemma BeyondManaged(start: nat, end: nat, i: nat)
    requires i >= end
    ensures !Managed(Some(Span(start, end)), i)
  {
  }
}
