/** Appending a server's block to a Codex configuration, and recognising it afterwards. */
module CodexAppend {
  import opened Common
  import opened Utf8
  import opened Ascii
  import opened TextSearch
  import opened TomlScan
  import opened CodexBlock
  import TomlExtend
  import JsonText

  datatype CodexError = MalformedBlock | DiffersFromPlan | AlsoOutside | AlreadyExists | MalformedToml

  datatype Written = Written(content: Text, changed: bool)

  function Prefix(source: Text): Text {
    if source == [] then []
    else if source[|source| - 1] == NEWLINE then [NEWLINE]
    else [NEWLINE, NEWLINE]
  }

  function Appended(source: Text, plan: Plan): Text {
    source + (Prefix(source) + (Block(plan) + [NEWLINE]))
  }

  // The first match of p, and whether there is a second one past its end.
  predicate Repeated(s: Text, p: Text, first: int) {
    first >= 0 && IndexOf(s, p, first + |p|) >= 0
  }

  function NextContent(existing: Option<Text>, plan: Plan): Result<Written, CodexError> {
    var source := if existing.Some? then existing.value else [];
    var (opening, closing) := (MarkerStart(plan.server), MarkerEnd(plan.server));
    var start := IndexOf(source, opening, 0);
    var end := IndexOf(source, closing, 0);
    if (start == -1) != (end == -1) || (start != -1 && end < start)
       || Repeated(source, opening, start) || Repeated(source, closing, end)
    then Err(MalformedBlock)
    else if start != -1 then
      if source[start..end + |closing|] != Block(plan) then Err(DiffersFromPlan)
      else
        match Scan(source, 0, plan.server, Some(Span(start, end)), [], false)
        case Malformed => Err(MalformedToml)
        case Conflict => Err(AlsoOutside)
        case Clear => Ok(Written(source, false))
    else
      match Scan(source, 0, plan.server, None, [], false)
      case Malformed => Err(MalformedToml)
      case Conflict => Err(AlreadyExists)
      case Clear => Ok(Written(Appended(source, plan), true))
  }

  // ---- the block as lines ----

  function Terminated(lines: seq<Line>): Text {
    if lines == [] then [] else LineText(lines[0]) + ([NEWLINE] + Terminated(lines[1..]))
  }

  lemma {:induction false} JoinedLines(lines: seq<Line>, last: Line)
    ensures Join(Texts(lines + [last]), NEWLINE) == Terminated(lines) + LineText(last)
  {
    var texts := Texts(lines + [last]);
    if lines != [] {
      assert (lines + [last])[1..] == lines[1..] + [last];
      assert texts[1..] == Texts(lines[1..] + [last]);
      JoinedLines(lines[1..], last);
    }
  }

  lemma BlockShape(plan: Plan)
    ensures Block(plan) ==
      MarkerStart(plan.server) + ([NEWLINE] + (Terminated(Body(plan)) + MarkerEnd(plan.server)))
  {
    hide Body, Marker, LineText;
    var lines := [Marker(plan.server, START)] + Body(plan);
    JoinedLines(lines, Marker(plan.server, END));
    assert BlockLines(plan) == lines + [Marker(plan.server, END)];
    assert lines[1..] == Body(plan);
  }

  // ---- scanning the block ----

  predicate PlainLines(lines: seq<Line>) {
    forall i :: 0 <= i < |lines| ==> WellFormedLine(lines[i]) && !lines[i].Comment?
  }

  predicate AllHarmless(lines: seq<Line>, server: Text, table: seq<Text>) {
    lines == [] ||
    (Harmless(lines[0], server, table) && AllHarmless(lines[1..], server, TableAfter(lines[0], table)))
  }

  lemma {:induction false} ScanLines(t: Text, i: nat, server: Text, m: Option<Span>, table: seq<Text>, found: bool,
                                     lines: seq<Line>)
    returns (table': seq<Text>)
    requires MatchesAt(t, Terminated(lines), i) && PlainLines(lines)
    requires (m.Some? && m.value.start < i && i + |Terminated(lines)| <= m.value.end)
             || AllHarmless(lines, server, table)
    ensures i + |Terminated(lines)| <= |t|
    ensures Scan(t, i, server, m, table, found) == Scan(t, i + |Terminated(lines)|, server, m, table', found)
    decreases |lines|
  {
    hide Scan, LineText, Harmless;
    if lines == [] {
      table' := table;
    } else {
      var text, rest := LineText(lines[0]), Terminated(lines[1..]);
      assert Terminated(lines) == (text + [NEWLINE]) + rest;
      MatchSplit(t, text + [NEWLINE], rest, i);
      ScanLine(t, i, server, m, table, found, lines[0]);
      table' := ScanLines(t, i + |text| + 1, server, m, TableAfter(lines[0], table), found, lines[1..]);
    }
  }

  lemma NamesAreWords(name: Text)
    requires ServerName(name)
    ensures Word(name) && ':' as int !in name && HASH !in name && NEWLINE !in name
  {
    assert forall i :: 0 <= i < |name| ==> NameUnit(name[i]);
  }

  lemma FixedWords()
    ensures Word(SERVERS) && Word(Lit("oauth")) && Word(Lit("command")) && Word(Lit("args")) && Word(Lit("env_vars"))
    ensures Word(Lit("url")) && Word(Lit("client_id")) && Word(Lit("callback_url")) && Word(Lit("callback_port"))
  {
  }

  lemma BodyIsPlain(plan: Plan)
    requires ServerName(plan.server)
    ensures PlainLines(Body(plan))
  {
    hide Word;
    NamesAreWords(plan.server);
    FixedWords();
  }

  // A body enters only its own server's tables.
  lemma BodyIsHarmless(plan: Plan, server: Text, table: seq<Text>)
    requires plan.server != server
    ensures AllHarmless(Body(plan), server, table)
  {
    var lines := Body(plan);
    var own := [SERVERS, plan.server];
    match plan.connection
    case Stdio(_, _) =>
      KeysAreHarmless(lines[1..], server, own, plan.server);
    case Http(_, _, _, _) =>
      KeysAreHarmless(lines[4..], server, own + [Lit("oauth")], plan.server);
      assert lines[3..][1..] == lines[4..];
      assert AllHarmless(lines[3..], server, own);
      assert lines[2..][1..] == lines[3..];
      assert AllHarmless(lines[2..], server, own);
      assert lines[1..][1..] == lines[2..];
  }

  lemma {:induction false} KeysAreHarmless(lines: seq<Line>, server: Text, table: seq<Text>, own: Text)
    requires own != server && |table| >= 2 && table[1] == own
    requires forall i :: 0 <= i < |lines| ==> lines[i].Assign?
    ensures AllHarmless(lines, server, table)
  {
    if lines != [] {
      KeysAreHarmless(lines[1..], server, table, own);
    }
  }

  /** The scanner passes the block of a plan when it is the managed one, or when it is for another server. */
  lemma ScanBlock(t: Text, i: nat, plan: Plan, server: Text, m: Option<Span>, table: seq<Text>, found: bool)
    returns (table': seq<Text>)
    requires ServerName(plan.server) && MatchesAt(t, Block(plan) + [NEWLINE], i)
    requires if plan.server == server then m == Some(Span(i, i + |Block(plan)| - |MarkerEnd(server)|))
             else m.Some? ==> m.value.start < i
    ensures i + |Block(plan)| + 1 <= |t|
    ensures Scan(t, i, server, m, table, found) ==
      Scan(t, i + |Block(plan)| + 1, server, m, table', found || StartsBlock(m, i))
  {
    hide Scan, LineText, MatchesAt, Body, PlainLines, AllHarmless;
    BlockShape(plan);
    NamesAreWords(plan.server);
    var (opening, body, closing) := (MarkerStart(plan.server), Terminated(Body(plan)), MarkerEnd(plan.server));
    assert Block(plan) + [NEWLINE] == (opening + [NEWLINE]) + (body + (closing + [NEWLINE]));
    MatchSplit(t, opening + [NEWLINE], body + (closing + [NEWLINE]), i);
    var second := i + |opening| + 1;
    MatchSplit(t, body, closing + [NEWLINE], second);
    MarkersAreComments(plan.server);
    ScanLine(t, i, server, m, table, found, Marker(plan.server, START));
    BodyIsPlain(plan);
    if plan.server != server {
      BodyIsHarmless(plan, server, table);
    }
    var found1 := found || StartsBlock(m, i);
    table' := ScanLines(t, second, server, m, table, found1, Body(plan));
    ScanLine(t, second + |body|, server, m, table', found1, Marker(plan.server, END));
  }

  lemma MarkersAreComments(server: Text)
    requires ServerName(server)
    ensures WellFormedLine(Marker(server, START)) && WellFormedLine(Marker(server, END))
  {
    NamesAreWords(server);
    assert NEWLINE !in Lit(" nexpress-agent-connect:") && NEWLINE !in START && NEWLINE !in END;
  }

  // ---- where markers stand ----

  lemma {:induction false} JoinHasNoHash(parts: seq<Text>, sep: Unit)
    requires sep != HASH && forall i :: 0 <= i < |parts| ==> HASH !in parts[i]
    ensures HASH !in Join(parts, sep)
  {
    if |parts| > 1 {
      JoinHasNoHash(parts[1..], sep);
    }
  }

  predicate CleanValue(v: Value) {
    match v
    case Str(text) => HASH !in text
    case List(items) => forall i :: 0 <= i < |items| ==> HASH !in items[i]
    case Number(_) => true
  }

  lemma ValueHasNoHash(v: Value)
    requires CleanValue(v)
    ensures HASH !in ValueText(v)
  {
    match v
    case Str(text) =>
      JsonText.InsideAvoids(text, HASH);
    case Number(_) =>
    case List(items) =>
      forall i | 0 <= i < |items| ensures HASH !in Quoted(items)[i] {
        JsonText.InsideAvoids(items[i], HASH);
      }
      JoinHasNoHash(Quoted(items), COMMA);
  }

  lemma {:induction false} LinesHaveNoHash(lines: seq<Line>)
    requires PlainLines(lines)
    requires forall i :: 0 <= i < |lines| && lines[i].Assign? ==> CleanValue(lines[i].value)
    ensures HASH !in Terminated(lines)
  {
    if lines != [] {
      LinesHaveNoHash(lines[1..]);
      match lines[0]
      case Empty =>
      case Table(words) =>
        assert WellFormedLine(lines[0]);
        assert forall i :: 0 <= i < |words| ==> Word(words[i]);
        JoinHasNoHash(words, DOT);
      case Assign(key, v) =>
        ValueHasNoHash(v);
        assert HASH !in key && HASH !in MIDDLE;
    }
  }

  lemma BodyHasNoHash(plan: Plan)
    requires ValidPlan(plan)
    ensures HASH !in Terminated(Body(plan))
  {
    hide PlainLines, Terminated;
    BodyIsPlain(plan);
    assert HASH !in Lit("NP_AGENT_SERVICE_TOKEN");
    LinesHaveNoHash(Body(plan));
  }

  // One of the two markers of a server.
  predicate Side(side: Text) { side == START || side == END }

  const LEAD: Text := Lit("# nexpress-agent-connect:")

  lemma MarkerUnits(server: Text, side: Text)
    requires ServerName(server) && Side(side)
    ensures MarkerText(server, side) == LEAD + (server + side)
    ensures HASH !in MarkerText(server, side)[1..] && NEWLINE !in MarkerText(server, side)
    ensures MarkerText(server, side)[0] == HASH
  {
    NamesAreWords(server);
    var words := Lit(" nexpress-agent-connect:");
    assert HASH !in words && HASH !in START && HASH !in END;
    assert NEWLINE !in words && NEWLINE !in START && NEWLINE !in END;
    assert MarkerText(server, side)[1..] == words + (server + side);
    assert [HASH] + words == LEAD;
  }

  lemma Avoids(t: Text, p: Text, i: nat, u: Unit, k: nat)
    requires MatchesAt(t, p, i) && i <= k < i + |p| && (u !in p || (k > i && u !in p[1..]))
    ensures !Is(t, k, u)
  {
    MatchUnits(t, p, i);
    assert t[i + (k - i)] == p[k - i];
    assert k > i ==> p[k - i] == p[1..][k - i - 1];
  }

  // A name followed by a colon is read in one way only.
  lemma SameName(t: Text, at: nat, a: Text, b: Text)
    requires MatchesAt(t, a, at) && MatchesAt(t, b, at) && ':' as int !in a && ':' as int !in b
    requires Is(t, at + |a|, ':' as int) && Is(t, at + |b|, ':' as int)
    ensures a == b
  {
    hide Is;
    if |a| < |b| {
      Avoids(t, b, at, ':' as int, at + |a|);
    } else if |b| < |a| {
      Avoids(t, a, at, ':' as int, at + |b|);
    }
  }

  // A marker that starts where a marker line stands is that line's marker.
  lemma MarkerMatch(t: Text, i: nat, a: Text, side: Text, b: Text, side': Text)
    requires ServerName(a) && ServerName(b) && Side(side) && Side(side')
    requires MatchesAt(t, MarkerText(a, side), i) && MatchesAt(t, MarkerText(b, side'), i)
    ensures a == b && side == side'
  {
    hide MatchesAt, LineText, ServerName, MarkerText;
    MarkerUnits(a, side);
    MarkerUnits(b, side');
    NamesAreWords(a);
    NamesAreWords(b);
    MatchSplit(t, LEAD, a + side, i);
    MatchSplit(t, LEAD, b + side', i);
    var at := i + |LEAD|;
    MatchSplit(t, a, side, at);
    MatchSplit(t, b, side', at);
    MatchFirst(t, side, at + |a|);
    MatchFirst(t, side', at + |b|);
    SameName(t, at, a, b);
    SameSide(t, at + |a|, side, side');
  }

  lemma SameSide(t: Text, at: nat, side: Text, side': Text)
    requires Side(side) && Side(side') && MatchesAt(t, side, at) && MatchesAt(t, side', at)
    ensures side == side'
  {
    hide MatchesAt;
    MatchUnits(t, side, at);
    MatchUnits(t, side', at);
    assert t[at + 1] == side[1] == side'[1];
  }

  function MarkerPosition(i: nat, plan: Plan, side: Text): int {
    if side == START then i else i + |Block(plan)| - |MarkerEnd(plan.server)|
  }

  lemma HashesInPieces(t: Text, i: nat, a: Text, m: Text, c: Text, k: nat)
    requires MatchesAt(t, a + (m + c), i) && i <= k < i + |a + (m + c)| && Is(t, k, HASH)
    requires a != [] && c != [] && HASH !in a[1..] && HASH !in m && HASH !in c[1..]
    ensures k == i || k == i + |a| + |m|
  {
    hide MatchesAt, Is;
    MatchSplit(t, a, m + c, i);
    MatchSplit(t, m, c, i + |a|);
    var last := i + |a| + |m|;
    if i < k < i + |a| {
      Avoids(t, a, i, HASH, k);
    } else if i < k < last {
      Avoids(t, m, i + |a|, HASH, k);
    } else if last < k {
      Avoids(t, c, last, HASH, k);
    }
  }

  lemma BlockPieces(plan: Plan)
    returns (middle: Text)
    requires ValidPlan(plan)
    ensures var (opening, closing) := (MarkerStart(plan.server), MarkerEnd(plan.server) + [NEWLINE]);
      Block(plan) + [NEWLINE] == opening + (middle + closing)
      && opening != [] && HASH !in opening[1..] && HASH !in middle && HASH !in closing[1..]
  {
    hide LineText, Block, Body, ServerName, Terminated, MarkerText;
    BlockShape(plan);
    BodyHasNoHash(plan);
    MarkerUnits(plan.server, START);
    MarkerUnits(plan.server, END);
    middle := [NEWLINE] + Terminated(Body(plan));
    assert (MarkerEnd(plan.server) + [NEWLINE])[1..] == MarkerEnd(plan.server)[1..] + [NEWLINE];
  }

  // Inside a block a `#` stands only at the start of a marker.
  lemma HashesInBlock(t: Text, i: nat, plan: Plan, k: nat)
    requires ValidPlan(plan) && MatchesAt(t, Block(plan) + [NEWLINE], i)
    requires i <= k <= i + |Block(plan)| && Is(t, k, HASH)
    ensures MatchesAt(t, MarkerStart(plan.server), i)
    ensures 0 <= MarkerPosition(i, plan, END) && MatchesAt(t, MarkerEnd(plan.server), MarkerPosition(i, plan, END))
    ensures k == i || k == MarkerPosition(i, plan, END)
  {
    hide MatchesAt, Block, ValidPlan, MarkerStart, MarkerEnd, Is;
    var middle := BlockPieces(plan);
    var (opening, closing) := (MarkerStart(plan.server), MarkerEnd(plan.server) + [NEWLINE]);
    HashesInPieces(t, i, opening, middle, closing, k);
    MatchSplit(t, opening, middle + closing, i);
    MatchSplit(t, middle, closing, i + |opening|);
    MatchLast(t, MarkerEnd(plan.server), NEWLINE, i + |opening| + |middle|);
  }

  lemma MarkersInBlock(t: Text, i: nat, plan: Plan, server: Text, side: Text, k: nat)
    requires ValidPlan(plan) && ServerName(server) && Side(side)
    requires MatchesAt(t, Block(plan) + [NEWLINE], i) && i <= k <= i + |Block(plan)|
    requires MatchesAt(t, MarkerText(server, side), k)
    ensures server == plan.server && k == MarkerPosition(i, plan, side)
  {
    hide MatchesAt, LineText, Block, ServerName, MarkerText;
    MarkerUnits(server, side);
    MatchFirst(t, MarkerText(server, side), k);
    HashesInBlock(t, i, plan, k);
    if k == i {
      MarkerMatch(t, i, server, side, plan.server, START);
    }
    if k == MarkerPosition(i, plan, END) {
      MarkerMatch(t, k, server, side, plan.server, END);
    }
  }
}
