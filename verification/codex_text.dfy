/** The managed block, spelled out, and its values read back. */
module CodexText {
  import opened Common
  import opened Utf8
  import opened Ascii
  import opened TextSearch
  import opened TomlScan
  import opened CodexBlock
  import opened CodexKeys
  import opened CodexAppend
  import JsonText

  function MarkerLine(server: Text, side: Text): Text {
    [HASH] + (Lit(" nexpress-agent-connect:") + (server + side))
  }

  function TableLine(names: Text): Text { [OPEN] + (names + [CLOSE]) }

  function Dotted(a: Text, b: Text): Text { a + ([DOT] + b) }

  function AssignLine(key: Text, value: Text): Text { key + (Lit(" = ") + value) }

  lemma TableSpelled(server: Text)
    ensures LineText(Table([SERVERS, server])) == TableLine(Dotted(Lit("mcp_servers"), server))
    ensures LineText(Table([SERVERS, server] + [Lit("oauth")]))
      == TableLine(Dotted(Lit("mcp_servers"), Dotted(server, Lit("oauth"))))
  {
    hide Lit;
    var (two, oauth) := ([SERVERS, server], Lit("oauth"));
    assert two[1..] == [server];
    assert two + [oauth] == [SERVERS, server, oauth] && [SERVERS, server, oauth][1..] == [server, oauth];
    assert [server, oauth][1..] == [oauth];
    assert Join(two, DOT) == Dotted(SERVERS, server) && Join([server, oauth], DOT) == Dotted(server, oauth);
    assert Join(two + [oauth], DOT) == Dotted(SERVERS, Dotted(server, oauth));
  }

  lemma BlockOf(lines: seq<Line>, texts: seq<Text>)
    requires |lines| == |texts| && forall i :: 0 <= i < |lines| ==> LineText(lines[i]) == texts[i]
    ensures Join(Texts(lines), NEWLINE) == Join(texts, NEWLINE)
  {
    hide LineText;
    assert Texts(lines) == texts;
  }

  /** The block of a stdio connection, line by line. */
  lemma StdioBlock(plan: Plan)
    requires plan.connection.Stdio?
    ensures Block(plan) == Join([
      MarkerLine(plan.server, Lit(":start")),
      TableLine(Dotted(Lit("mcp_servers"), plan.server)),
      AssignLine(Lit("command"), JsonText.Quote(plan.connection.command)),
      AssignLine(Lit("args"), [OPEN] + (Join(Quoted(plan.connection.args), COMMA) + [CLOSE])),
      AssignLine(Lit("env_vars"), [OPEN] + (JsonText.Quote(Lit("NP_AGENT_SERVICE_TOKEN")) + [CLOSE])),
      MarkerLine(plan.server, Lit(":end"))], NEWLINE)
  {
    hide Lit, Join, JsonText.Quote;
    var Stdio(command, args) := plan.connection;
    var lines := [
      Marker(plan.server, START), Table([SERVERS, plan.server]), Assign(Lit("command"), Str(command)),
      Assign(Lit("args"), List(args)), Assign(Lit("env_vars"), List([Lit("NP_AGENT_SERVICE_TOKEN")])),
      Marker(plan.server, END)];
    TableSpelled(plan.server);
    JoinOne(JsonText.Quote(Lit("NP_AGENT_SERVICE_TOKEN")));
    assert Quoted([Lit("NP_AGENT_SERVICE_TOKEN")]) == [JsonText.Quote(Lit("NP_AGENT_SERVICE_TOKEN"))];
    assert BlockLines(plan) == lines;
    BlockOf(lines, [
      MarkerLine(plan.server, Lit(":start")),
      TableLine(Dotted(Lit("mcp_servers"), plan.server)),
      AssignLine(Lit("command"), JsonText.Quote(command)),
      AssignLine(Lit("args"), [OPEN] + (Join(Quoted(args), COMMA) + [CLOSE])),
      AssignLine(Lit("env_vars"), [OPEN] + (JsonText.Quote(Lit("NP_AGENT_SERVICE_TOKEN")) + [CLOSE])),
      MarkerLine(plan.server, Lit(":end"))]);
  }

  lemma JoinOne(x: Text)
    ensures Join([x], COMMA) == x
  {
  }

  /** The block of an HTTP connection, line by line. */
  lemma HttpBlock(plan: Plan)
    requires plan.connection.Http?
    ensures Block(plan) == Join([
      MarkerLine(plan.server, Lit(":start")),
      TableLine(Dotted(Lit("mcp_servers"), plan.server)),
      AssignLine(Lit("url"), JsonText.Quote(plan.connection.resource)),
      [],
      TableLine(Dotted(Lit("mcp_servers"), Dotted(plan.server, Lit("oauth")))),
      AssignLine(Lit("client_id"), JsonText.Quote(plan.connection.clientId)),
      AssignLine(Lit("callback_url"), JsonText.Quote(plan.connection.redirectUri)),
      AssignLine(Lit("callback_port"), Decimal(plan.connection.callbackPort)),
      MarkerLine(plan.server, Lit(":end"))], NEWLINE)
  {
    hide Lit, Join, JsonText.Quote, Decimal;
    var Http(resource, clientId, redirectUri, port) := plan.connection;
    var table := [SERVERS, plan.server];
    var lines := [
      Marker(plan.server, START), Table(table), Assign(Lit("url"), Str(resource)), Empty,
      Table(table + [Lit("oauth")]), Assign(Lit("client_id"), Str(clientId)),
      Assign(Lit("callback_url"), Str(redirectUri)), Assign(Lit("callback_port"), Number(port)),
      Marker(plan.server, END)];
    TableSpelled(plan.server);
    assert BlockLines(plan) == lines;
    BlockOf(lines, [
      MarkerLine(plan.server, Lit(":start")),
      TableLine(Dotted(Lit("mcp_servers"), plan.server)),
      AssignLine(Lit("url"), JsonText.Quote(resource)),
      [],
      TableLine(Dotted(Lit("mcp_servers"), Dotted(plan.server, Lit("oauth")))),
      AssignLine(Lit("client_id"), JsonText.Quote(clientId)),
      AssignLine(Lit("callback_url"), JsonText.Quote(redirectUri)),
      AssignLine(Lit("callback_port"), Decimal(port)),
      MarkerLine(plan.server, Lit(":end"))]);
  }

  /** A value after its key is read back as the plan's own text, for every well-formed text. */
  lemma ValueReadsBack(t: Text, i: nat, key: Text, x: Text)
    requires MatchesAt(t, LineText(Assign(key, Str(x))) + [NEWLINE], i) && Word(key) && WellFormed(x)
    ensures KeyPath(t, i) == Some(([key], i + |key| + 1)) && Is(t, i + |key| + 1, EQUALS)
    ensures var at := i + |key| + 3;
      at < |t| && ReadString(t, at) == Some((JsonText.Inside(x), at + |JsonText.Quote(x)|))
      && Unescape(JsonText.Inside(x)) == Some(x)
  {
    hide MatchesAt, ReadString, Unescape, KeyPath, JsonText.Quote, JsonText.Inside;
    AssignParts(t, i, key, Str(x));
    var rest := JsonText.Quote(x) + [NEWLINE];
    assert LineText(Assign(key, Str(x))) + [NEWLINE] == key + (MIDDLE + rest);
    MatchSplit(t, key, MIDDLE + rest, i);
    MatchSplit(t, MIDDLE, rest, i + |key|);
    MatchLast(t, JsonText.Quote(x), NEWLINE, i + |key| + 3);
    QuotedReads(t, i + |key| + 3, x);
    UnescapeInside(x);
  }

  /** The block stands after an empty line, or at the top of an empty file, and a line break ends the file. */
  lemma AppendedExactly(source: Text, plan: Plan)
    ensures Appended(source, plan) ==
      if source == [] then Block(plan) + [10]
      else if source[|source| - 1] == 10 then source + [10] + Block(plan) + [10]
      else source + [10, 10] + Block(plan) + [10]
  {
    hide Block;
    assert [10, 10] == [10] + [10];
    assert source == [] ==> Appended(source, plan) == Block(plan) + [10];
  }
}
