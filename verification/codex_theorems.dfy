/** Appending is idempotent, keeps other servers' blocks recognised, and does not depend on the order. */
module CodexTheorems {
  import opened Common
  import opened Utf8
  import opened TextSearch
  import opened TomlScan
  import opened CodexBlock
  import opened CodexAppend
  import TomlExtend

  // Where the block starts in the appended text.
  function BlockStart(source: Text): nat { |source| + |Prefix(source)| }

  lemma AppendedShape(source: Text, plan: Plan)
    ensures var t := Appended(source, plan);
      |t| == BlockStart(source) + |Block(plan)| + 1
      && source <= t
      && MatchesAt(t, Block(plan) + [NEWLINE], BlockStart(source))
      && (forall k :: |source| <= k < BlockStart(source) ==> t[k] == NEWLINE)
      && (source != [] ==> TomlExtend.Extends(source, t))
  {
    hide Block;
    var t := Appended(source, plan);
    assert t == source + Prefix(source) + (Block(plan) + [NEWLINE]);
    assert t[BlockStart(source)..] == Block(plan) + [NEWLINE];
  }

  // ---- markers of the appended text ----

  lemma MarkersInAppended(source: Text, plan: Plan, server: Text, side: Text, k: nat)
    requires ValidPlan(plan) && ServerName(server) && Side(side)
    ensures MatchesAt(Appended(source, plan), MarkerText(server, side), k) <==>
      (MatchesAt(source, MarkerText(server, side), k)
       || (server == plan.server && k == MarkerPosition(BlockStart(source), plan, side)))
  {
    hide Block, ServerName, MarkerText, Appended, ValidPlan;
    var t, p, at := Appended(source, plan), MarkerText(server, side), BlockStart(source);
    AppendedShape(source, plan);
    MarkerUnits(server, side);
    assert k + |p| <= |source| ==> t[k..k + |p|] == source[k..k + |p|];
    if server == plan.server && k == MarkerPosition(at, plan, side) {
      OwnMarkers(t, at, plan);
    }
    if MatchesAt(t, p, k) && k + |p| > |source| {
      MatchUnits(t, p, k);
      assert t[k + 0] == HASH;
      if k < |source| {
        Avoids(t, p, k, NEWLINE, |source|);
      } else {
        MarkersInBlock(t, at, plan, server, side, k);
      }
    }
  }

  lemma OwnMarkers(t: Text, at: nat, plan: Plan)
    requires ValidPlan(plan) && MatchesAt(t, Block(plan) + [NEWLINE], at)
    ensures MatchesAt(t, MarkerStart(plan.server), at)
    ensures MarkerPosition(at, plan, END) > at
    ensures MatchesAt(t, MarkerEnd(plan.server), MarkerPosition(at, plan, END))
  {
    hide MatchesAt, Block, ValidPlan, MarkerStart, MarkerEnd;
    var middle := BlockPieces(plan);
    var (opening, closing) := (MarkerStart(plan.server), MarkerEnd(plan.server) + [NEWLINE]);
    MatchSplit(t, opening, middle + closing, at);
    MatchSplit(t, middle, closing, at + |opening|);
    MatchLast(t, MarkerEnd(plan.server), NEWLINE, at + |opening| + |middle|);
  }

  // The search results NextContent works from: the first marker, and whether there is another.
  lemma SearchInAppended(source: Text, plan: Plan, server: Text, side: Text)
    requires ValidPlan(plan) && ServerName(server) && Side(side)
    requires server == plan.server ==> IndexOf(source, MarkerText(server, side), 0) == -1
    requires !Repeated(source, MarkerText(server, side), IndexOf(source, MarkerText(server, side), 0))
    ensures var (t, p) := (Appended(source, plan), MarkerText(server, side));
      IndexOf(t, p, 0) == (if server == plan.server then MarkerPosition(BlockStart(source), plan, side)
                           else IndexOf(source, p, 0))
      && !Repeated(t, p, IndexOf(t, p, 0))
  {
    hide Block, ServerName, MarkerText, Appended, ValidPlan, MatchesAt, IndexOf, Prefix;
    var t, p := Appended(source, plan), MarkerText(server, side);
    forall k: nat
      ensures MatchesAt(t, p, k) <==>
        (MatchesAt(source, p, k) || (server == plan.server && k == MarkerPosition(BlockStart(source), plan, side)))
    {
      MarkersInAppended(source, plan, server, side, k);
    }
    MarkerUnits(server, side);
    AppendedShape(source, plan);
    if server == plan.server {
      OwnMarkers(t, BlockStart(source), plan);
    }
  }

  // ---- the scan of the appended text ----

  lemma ScanAppended(source: Text, plan: Plan, server: Text, m: Option<Span>, m': Option<Span>)
    requires ServerName(plan.server) && Scan(source, 0, server, m, [], false) == Clear
    requires if plan.server == server
             then m == None && m' == Some(Span(BlockStart(source), MarkerPosition(BlockStart(source), plan, END)))
             else m' == m && (m.Some? ==> m.value.start < |source|)
    requires MarkerPosition(BlockStart(source), plan, END) >= 0
    ensures Scan(Appended(source, plan), 0, server, m', [], false) == Clear
  {
    hide Block, Appended, MatchesAt, Step, ServerName;
    var t, at := Appended(source, plan), BlockStart(source);
    AppendedShape(source, plan);
    var table: seq<Text>, found := [], false;
    if source != [] {
      table, found := TomlExtend.ScanExtends(source, t, 0, server, m, m', [], false);
      if |Prefix(source)| == 2 {
        ScanNewline(t, |source| + 1, server, m', table, found);
      }
    }
    var table' := ScanBlock(t, at, plan, server, m', table, found);
  }

  /**
   * When a run appends the block, the old text is a prefix of the new one, and a second run of the same
   * plan recognises the block and leaves the text alone.
   */
  lemma AppendThenRecognise(existing: Option<Text>, plan: Plan, content: Text)
    requires ValidPlan(plan) && NextContent(existing, plan) == Ok(Written(content, true))
    ensures existing.Some? ==> existing.value <= content
    ensures MatchesAt(content, Block(plan), |content| - |Block(plan)| - 1)
    ensures NextContent(Some(content), plan) == Ok(Written(content, false))
  {
    hide Block, ServerName, MatchesAt, Scan, MarkerText, IndexOf, Appended, Prefix, Repeated;
    var source := if existing.Some? then existing.value else [];
    var at := BlockStart(source);
    AppendedShape(source, plan);
    MatchLast(content, Block(plan), NEWLINE, at);
    OwnMarkers(content, at, plan);
    SearchInAppended(source, plan, plan.server, START);
    SearchInAppended(source, plan, plan.server, END);
    var end := MarkerPosition(at, plan, END);
    ScanAppended(source, plan, plan.server, None, Some(Span(at, end)));
    MatchedSlice(content, Block(plan), at);
  }

  lemma MatchedSlice(t: Text, p: Text, i: nat)
    requires MatchesAt(t, p, i)
    ensures i + |p| <= |t| && t[i..i + |p|] == p
  {
  }

  /** A recognised server stays recognised, byte for byte, when another server's block is appended. */
  lemma RecognisedStays(content: Text, plan: Plan, other: Plan, next: Text)
    requires ValidPlan(plan) && ValidPlan(other) && plan.server != other.server
    requires NextContent(Some(content), plan) == Ok(Written(content, false))
    requires NextContent(Some(content), other) == Ok(Written(next, true))
    ensures NextContent(Some(next), plan) == Ok(Written(next, false))
  {
    hide Block, ServerName, MatchesAt, Scan, MarkerText, IndexOf, Appended, Prefix, Repeated;
    AppendedShape(content, other);
    OwnMarkers(next, BlockStart(content), other);
    MarkerUnits(plan.server, START);
    MarkerUnits(plan.server, END);
    SearchInAppended(content, other, plan.server, START);
    SearchInAppended(content, other, plan.server, END);
    var start, end := IndexOf(content, MarkerStart(plan.server), 0), IndexOf(content, MarkerEnd(plan.server), 0);
    FoundInside(content, MarkerStart(plan.server));
    FoundInside(content, MarkerEnd(plan.server));
    var stop := end + |MarkerEnd(plan.server)|;
    assert next[..|content|] == content;
    assert next[start..stop] == next[..|content|][start..stop];
    ScanAppended(content, other, plan.server, Some(Span(start, end)), Some(Span(start, end)));
  }

  lemma FoundInside(s: Text, p: Text)
    requires p != []
    ensures IndexOf(s, p, 0) == -1 || 0 <= IndexOf(s, p, 0) <= IndexOf(s, p, 0) + |p| <= |s|
  {
  }

  /** Two servers that could each be added first can be added in either order. */
  lemma AppendsAreIndependent(existing: Option<Text>, plan: Plan, other: Plan, a: Text, b: Text)
    requires ValidPlan(plan) && ValidPlan(other) && plan.server != other.server
    requires NextContent(existing, plan) == Ok(Written(a, true))
    requires NextContent(existing, other) == Ok(Written(b, true))
    ensures NextContent(Some(a), other) == Ok(Written(Appended(a, other), true))
  {
    hide Block, ServerName, MatchesAt, Scan, MarkerText, IndexOf, Appended, Prefix, Repeated;
    var source := if existing.Some? then existing.value else [];
    AppendedShape(source, plan);
    OwnMarkers(a, BlockStart(source), plan);
    SearchInAppended(source, plan, other.server, START);
    SearchInAppended(source, plan, other.server, END);
    ScanAppended(source, plan, other.server, None, None);
  }

  // ---- whole histories ----

  // The configuration after connecting the plans in order; None when one of them is refused.
  function ConnectAll(content: Option<Text>, plans: seq<Plan>): Option<Option<Text>>
    decreases |plans|
  {
    if plans == [] then Some(content)
    else
      match NextContent(content, plans[0])
      case Err(_) => None
      case Ok(written) => ConnectAll(Some(written.content), plans[1..])
  }

  /** Whatever was connected once stays recognised through every later connection of other servers. */
  lemma {:induction false} ConnectedStaysConnected(content: Text, plan: Plan, plans: seq<Plan>)
    requires ValidPlan(plan) && NextContent(Some(content), plan) == Ok(Written(content, false))
    requires forall i :: 0 <= i < |plans| ==> ValidPlan(plans[i]) && plans[i].server != plan.server
    requires ConnectAll(Some(content), plans).Some?
    ensures ConnectAll(Some(content), plans).value.Some?
    ensures var last := ConnectAll(Some(content), plans).value.value;
      content <= last && NextContent(Some(last), plan) == Ok(Written(last, false))
    decreases |plans|
  {
    hide NextContent, ValidPlan;
    if plans != [] {
      var written := NextContent(Some(content), plans[0]).value;
      NextGrows(content, plans[0]);
      if written.changed {
        RecognisedStays(content, plan, plans[0], written.content);
      }
      ConnectedStaysConnected(written.content, plan, plans[1..]);
    }
  }

  lemma NextGrows(content: Text, plan: Plan)
    requires NextContent(Some(content), plan).Ok?
    ensures content <= NextContent(Some(content), plan).value.content
    ensures !NextContent(Some(content), plan).value.changed ==>
      NextContent(Some(content), plan).value.content == content
  {
    hide Block, Scan, IndexOf;
    AppendedShape(content, plan);
  }
}
