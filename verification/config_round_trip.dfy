/** Adding an entry and removing it again. */
module ConfigRoundTrip {
  import opened Common
  import opened Utf8
  import opened Ascii
  import opened TextSearch
  import opened Whitespace
  import opened ConfigEditor
  import opened ConfigTheorems
  import S = Subsequences

  predicate OneLine(t: Text) { NEWLINE !in t }

  predicate AllOneLine(lines: seq<Text>) {
    forall i :: 0 <= i < |lines| ==> OneLine(lines[i])
  }

  // The one layout the two insertions cannot serve: the list ends no later than the line that opens an empty
  // imports region.
  predicate ListBeforeEmptyImports(imports: Span, list: Span) {
    list.end <= imports.start && imports.end == imports.start + 1
  }

  // ---- the added lines ----

  lemma IndentIsBlank(lines: seq<Text>, startMarker: Text, endMarker: Text)
    requires FindSpan(lines, startMarker, endMarker).Some? && AllOneLine(lines)
    ensures var s := FindSpan(lines, startMarker, endMarker).value; Blank(s.indent) && OneLine(s.indent)
  {
    var start := FirstLine(lines, startMarker, 0).value;
    var line := lines[start];
    assert OneLine(line);
    var indent := line[..SkipSpaces(line, 0)];
    assert forall k :: 0 <= k < |indent| ==> indent[k] == line[k] && Space(line[k]);
  }

  lemma EntryLinesAreOneLine(indent: Text, e: Entry, kind: ConfigKind)
    requires ValidEntry(e) && OneLine(indent)
    ensures OneLine(ListLine(indent, e)) && OneLine(ImportLine(indent, e, kind))
  {
    assert forall k :: 0 <= k < |e.identifier| ==> Alphanumeric(e.identifier[k]);
    assert NEWLINE !in e.identifier;
    assert forall k :: 0 <= k < |e.packageName| ==> !Space(e.packageName[k]);
    assert NEWLINE !in e.packageName;
    assert NEWLINE !in Lit("import ") && NEWLINE !in Lit(" from ") && NEWLINE !in Lit("{ ") && NEWLINE !in Lit(" }");
  }

  // Where a region stands after both insertions.
  function AddedSpan(imports: Span, list: Span, s: Span): Span {
    ShiftSpan(imports.end, ShiftSpan(list.end, s))
  }

  // The regions of the longer text, and the place of the import line.
  lemma AddedSpans(lines: seq<Text>, imports: Span, list: Span, e: Entry, kind: ConfigKind)
    requires ValidEntry(e) && AllOneLine(lines) && HasSpans(lines, kind, imports, list)
    ensures imports.end < |lines| && list.end < |lines|
    ensures var (added, imports') := (AddedLines(lines, imports, list, e, kind), AddedSpan(imports, list, imports));
      && AllOneLine(added) && HasSpans(added, kind, imports', AddedSpan(imports, list, list))
      && added[imports.end] == ImportLine(imports.indent, e, kind)
      && (if ListBeforeEmptyImports(imports, list) then imports'.end == imports'.start + 1
          else Inside(imports', imports.end))
  {
    hide FindSpan, Includes, IsListLine, IsImportLine, ListLine, ImportLine, ValidEntry, MarkerFree;
    var (ie, le) := (imports.end, list.end);
    var (x, y) := (ListLine(list.indent, e), ImportLine(imports.indent, e, kind));
    EntryFacts(lines, imports, list, e, kind);
    SpansAfterInsert(lines, le, x, kind, imports, list);
    SpansAfterInsert(Insert(lines, le, x), ie, y, kind, ShiftSpan(le, imports), ShiftSpan(le, list));
  }

  // What a removal keeps of the longer text.
  lemma AddedDrops(lines: seq<Text>, imports: Span, list: Span, e: Entry, kind: ConfigKind)
    requires ValidEntry(e) && AllOneLine(lines) && HasSpans(lines, kind, imports, list)
    requires NoneOf(Drops(lines, imports, list, e))
    ensures imports.end < |lines| && list.end < |lines|
    ensures var added := AddedLines(lines, imports, list, e, kind);
      var drops := Drops(added, AddedSpan(imports, list, imports), AddedSpan(imports, list, list), e);
      && !NoneOf(drops)
      && (!ListBeforeEmptyImports(imports, list) ==> Kept(added, drops) == lines)
      && (ListBeforeEmptyImports(imports, list) ==> |Kept(added, drops)| == |lines| + 1)
  {
    hide FindSpan, Includes, IsListLine, IsImportLine, ListLine, ImportLine, ValidEntry, Drops, Kept, MarkerFree,
      NoneOf;
    var (ie, le) := (imports.end, list.end);
    var (x, y) := (ListLine(list.indent, e), ImportLine(imports.indent, e, kind));
    EntryFacts(lines, imports, list, e, kind);
    var mid := Insert(lines, le, x);
    var (i1, l1) := (ShiftSpan(le, imports), ShiftSpan(le, list));
    DropsAfterInsert(lines, le, x, imports, list, e);
    DropsAfterInsert(mid, ie, y, i1, l1, e);
    var drops := Drops(lines, imports, list, e);
    var drops1 := Insert(drops, le, true);
    assert Dropped(mid, i1, l1, e, le);
    assert Drops(mid, i1, l1, e) == drops1;
    var dropped := Dropped(Insert(mid, ie, y), ShiftSpan(ie, i1), ShiftSpan(ie, l1), e, ie);
    assert dropped <==> !ListBeforeEmptyImports(imports, list);
    KeptAfterInsert(lines, drops, le, x, true);
    KeepAll(lines, drops);
    KeptAfterInsert(mid, drops1, ie, y, dropped);
    SomeDropped(drops1, le, ie, dropped);
  }

  lemma SomeDropped(drops: seq<bool>, le: nat, ie: nat, dropped: bool)
    requires le < |drops| && drops[le] && ie <= |drops|
    ensures !NoneOf(Insert(drops, ie, dropped))
  {
    var more := Insert(drops, ie, dropped);
    assert more[Up(ie, le)] == drops[le];
  }

  lemma EntryFacts(lines: seq<Text>, imports: Span, list: Span, e: Entry, kind: ConfigKind)
    requires ValidEntry(e) && AllOneLine(lines) && HasSpans(lines, kind, imports, list)
    ensures imports.start < imports.end < |lines| && list.start < list.end < |lines|
    ensures var (x, y) := (ListLine(list.indent, e), ImportLine(imports.indent, e, kind));
      && MarkerFree(x, kind) && MarkerFree(y, kind)
      && IsListLine(x, e) && IsImportLine(y, e) && !IsListLine(y, e)
      && AllOneLine(AddedLines(lines, imports, list, e, kind))
  {
    hide IsListLine, IsImportLine, ListLine, ImportLine, MarkerFree, Includes, MarkerOf;
    IndentIsBlank(lines, MarkerOf(kind, IMPORTS_START), MarkerOf(kind, IMPORTS_END));
    IndentIsBlank(lines, MarkerOf(kind, LIST_START), MarkerOf(kind, LIST_END));
    ListLineIsListLine(list.indent, e);
    ImportLineIsImportLine(imports.indent, e, kind);
    ImportLineIsNoListLine(imports.indent, e, kind);
    ListLineNoComment(list.indent, e);
    ImportLineNoComment(imports.indent, e, kind);
    NoCommentNoMarker(ListLine(list.indent, e), kind);
    NoCommentNoMarker(ImportLine(imports.indent, e, kind), kind);
    EntryLinesAreOneLine(list.indent, e, kind);
    EntryLinesAreOneLine(imports.indent, e, kind);
    OneLineInsert(lines, list.end, ListLine(list.indent, e));
    OneLineInsert(Insert(lines, list.end, ListLine(list.indent, e)), imports.end, ImportLine(imports.indent, e, kind));
  }

  lemma OneLineInsert(lines: seq<Text>, at: nat, line: Text)
    requires AllOneLine(lines) && OneLine(line) && at <= |lines|
    ensures AllOneLine(Insert(lines, at, line))
  {
    var more := Insert(lines, at, line);
    forall i | 0 <= i < |more| ensures OneLine(more[i]) {
      assert i > at ==> more[(i - 1) + 1] == lines[i - 1];
    }
  }

  // ---- texts and lines ----

  lemma LinesOf(content: Text)
    ensures Lines(content) != [] && AllOneLine(Lines(content)) && Join(Lines(content), NEWLINE) == content
  {
    JoinSplit(content, NEWLINE);
  }

  // A text put together from lines with both regions has them.
  lemma RegionsOfJoined(lines: seq<Text>, kind: ConfigKind, imports: Span, list: Span)
    requires lines != [] && AllOneLine(lines) && HasSpans(lines, kind, imports, list)
    ensures Lines(Join(lines, NEWLINE)) == lines
    ensures Regions(Join(lines, NEWLINE), kind) == Some((imports, list))
  {
    hide Includes, MarkerOf;
    SplitJoin(lines, NEWLINE);
    SpanIncluded(lines, MarkerOf(kind, IMPORTS_START), MarkerOf(kind, IMPORTS_END));
    SpanIncluded(lines, MarkerOf(kind, LIST_START), MarkerOf(kind, LIST_END));
  }

  lemma SpanIncluded(lines: seq<Text>, startMarker: Text, endMarker: Text)
    requires FindSpan(lines, startMarker, endMarker).Some?
    ensures Includes(Join(lines, NEWLINE), startMarker) && Includes(Join(lines, NEWLINE), endMarker)
  {
    hide Includes;
    var start := FirstLine(lines, startMarker, 0).value;
    JoinIncludes(lines, NEWLINE, start, startMarker);
    JoinIncludes(lines, NEWLINE, FirstLine(lines, endMarker, start + 1).value, endMarker);
  }

  // ---- the theorems ----

  /**
   * If an entry is not in the regions yet, removing it after adding it gives the exact old text, unless the
   * list region ends no later than an empty imports region begins; and then it never does.
   */
  lemma RemoveUndoesAdd(content: Text, e: Entry, kind: ConfigKind, added: Text)
    requires ValidEntry(e) && Add(content, e, kind) == Edited(added) && Remove(content, e, kind) == NoOp
    ensures Regions(content, kind).Some?
    ensures var (imports, list) := Regions(content, kind).value;
      Remove(added, e, kind) == Edited(content) <==> !ListBeforeEmptyImports(imports, list)
  {
    hide Drops, Kept, AddedLines, NoneOf, HasSpans, Lines, ListBeforeEmptyImports, Includes;
    var (imports, list) := Regions(content, kind).value;
    var lines := Lines(content);
    LinesOf(content);
    RegionsAreSpans(content, kind);
    AddedSpans(lines, imports, list, e, kind);
    AddedDrops(lines, imports, list, e, kind);
    var (imports', list') := (AddedSpan(imports, list, imports), AddedSpan(imports, list, list));
    var next := AddedLines(lines, imports, list, e, kind);
    RegionsOfJoined(next, kind, imports', list');
    var kept := Kept(next, Drops(next, imports', list', e));
    assert Remove(added, e, kind) == Edited(Join(kept, NEWLINE));
    if ListBeforeEmptyImports(imports, list) {
      KeptOneLine(next, Drops(next, imports', list', e));
      SplitJoin(kept, NEWLINE);
      assert Lines(Join(kept, NEWLINE)) == kept && |kept| != |lines| by {
        LinesOfJoin(kept);
      }
    }
  }

  lemma LinesOfJoin(lines: seq<Text>)
    requires lines != [] && AllOneLine(lines)
    ensures Lines(Join(lines, NEWLINE)) == lines
  {
    SplitJoin(lines, NEWLINE);
  }

  lemma RegionsAreSpans(content: Text, kind: ConfigKind)
    requires Regions(content, kind).Some?
    ensures HasSpans(Lines(content), kind, Regions(content, kind).value.0, Regions(content, kind).value.1)
  {
    hide MissingMarker;
  }

  lemma KeptOneLine(lines: seq<Text>, drops: seq<bool>)
    requires |lines| == |drops| && AllOneLine(lines)
    ensures AllOneLine(Kept(lines, drops))
  {
    KeptIsPart(lines, drops);
    S.Members(Kept(lines, drops), lines);
    var kept := Kept(lines, drops);
    forall i | 0 <= i < |kept| ensures OneLine(kept[i]) {
      assert kept[i] in lines;
    }
  }

  /** Adding an entry a second time changes nothing, under the same condition, whatever the regions held before. */
  lemma SecondAddIsNoOp(content: Text, e: Entry, kind: ConfigKind, added: Text)
    requires ValidEntry(e) && Add(content, e, kind) == Edited(added)
    ensures Regions(content, kind).Some?
    ensures var (imports, list) := Regions(content, kind).value;
      Add(added, e, kind) == NoOp <==> !ListBeforeEmptyImports(imports, list)
  {
    hide Drops, Kept, AddedLines, NoneOf, HasSpans, Lines, ListBeforeEmptyImports, Includes, ImportLine;
    var (imports, list) := Regions(content, kind).value;
    LinesOf(content);
    RegionsAreSpans(content, kind);
    SpanBounds(Lines(content), kind, imports, list);
    AddedSpans(Lines(content), imports, list, e, kind);
    var (imports', list') := (AddedSpan(imports, list, imports), AddedSpan(imports, list, list));
    var next := AddedLines(Lines(content), imports, list, e, kind);
    assert next[imports.end] == ImportLine(imports.indent, e, kind);
    RegionsOfJoined(next, kind, imports', list');
    SpanBounds(next, kind, imports', list');
    BlockNamesEntry(next, imports', imports, e, kind, ListBeforeEmptyImports(imports, list));
  }

  // The imports block names the package exactly when the import line went into it.
  lemma BlockNamesEntry(lines: seq<Text>, span: Span, before: Span, e: Entry, kind: ConfigKind, empty: bool)
    requires span.start < span.end < |lines| && before.end < |lines|
    requires lines[before.end] == ImportLine(before.indent, e, kind)
    requires if empty then span.end == span.start + 1 else Inside(span, before.end)
    ensures Includes(ImportsBlock(lines, span), Lit("from ") + QuotedName(e)) <==> !empty
  {
    hide Includes, ImportLine;
    var (from, region) := (Lit("from ") + QuotedName(e), lines[span.start + 1..span.end]);
    if empty {
      assert region == [];
      NothingIncludes(from);
    } else {
      var i := before.end - span.start - 1;
      assert region[i] == lines[before.end];
      ImportLineNames(before.indent, e, kind);
      JoinIncludes(region, NEWLINE, i, from);
    }
  }

  lemma SpanBounds(lines: seq<Text>, kind: ConfigKind, imports: Span, list: Span)
    requires HasSpans(lines, kind, imports, list)
    ensures imports.start < imports.end < |lines| && list.start < list.end < |lines|
  {
  }

  lemma NothingIncludes(p: Text)
    requires p != []
    ensures !Includes([], p)
  {
  }

  lemma ImportLineNames(indent: Text, e: Entry, kind: ConfigKind)
    ensures Includes(ImportLine(indent, e, kind), Lit("from ") + QuotedName(e))
  {
    var p := Lit("from ") + QuotedName(e);
    NameIncluded(p);
    var (name, binding, space, from) := (QuotedName(e), Binding(e, kind), Lit(" "), Lit("from "));
    var before := indent + (Lit("import ") + (binding + space));
    IncludesAround(before, p, [SEMICOLON], p);
    assert space + from == Lit(" from ");
    Regroup(indent, Lit("import "), binding, space, from + name, [SEMICOLON]);
    assert space + ((from + name) + [SEMICOLON]) == (space + from) + (name + [SEMICOLON]);
  }

  /** An addition inserts two lines and touches no other. */
  lemma AddKeepsLines(content: Text, e: Entry, kind: ConfigKind, after: Text)
    requires ValidEntry(e) && Add(content, e, kind) == Edited(after)
    ensures S.Subsequence(Lines(content), Lines(after)) && |Lines(after)| == |Lines(content)| + 2
  {
    hide Includes, Dropped;
    LinesOf(content);
    var (imports, list) := Regions(content, kind).value;
    RegionsAreSpans(content, kind);
    EntryFacts(Lines(content), imports, list, e, kind);
    var mid := Insert(Lines(content), list.end, ListLine(list.indent, e));
    InsertIsMore(Lines(content), list.end, ListLine(list.indent, e));
    InsertIsMore(mid, imports.end, ImportLine(imports.indent, e, kind));
    SubsequenceTransitive(Lines(content), mid, AddedLines(Lines(content), imports, list, e, kind));
    LinesOfJoin(AddedLines(Lines(content), imports, list, e, kind));
  }

  lemma {:induction false} SubsequenceTransitive(a: seq<Text>, b: seq<Text>, c: seq<Text>)
    requires S.Subsequence(a, b) && S.Subsequence(b, c)
    ensures S.Subsequence(a, c)
    decreases |c|
  {
    if a != [] {
      if b[0] == c[0] && S.Subsequence(b[1..], c[1..]) {
        if a[0] == b[0] && S.Subsequence(a[1..], b[1..]) {
          SubsequenceTransitive(a[1..], b[1..], c[1..]);
        } else {
          SubsequenceTransitive(a, b[1..], c[1..]);
        }
      } else {
        SubsequenceTransitive(a, b, c[1..]);
      }
    }
  }

  // ---- the excluded layout exists ----

  predicate Tail(t: Text) { t == IMPORTS_START || t == IMPORTS_END || t == LIST_START || t == LIST_END }

  lemma TailsDiffer(t: Text, u: Text)
    requires Tail(t) && Tail(u) && u <= t
    ensures t == u
  {
    assert t[1] == u[1];
    assert |u| > 9 && |t| > 9 ==> t[9] == u[9];
    assert t[6] == u[6];
  }

  const BASE: Text := Lit("// @nexpress:plugins")

  lemma MarkerIsBase(t: Text)
    ensures MarkerOf(Plugins, t) == BASE + t
    ensures |BASE| == 20 && BASE[0] == '/' as int && BASE[2] == ' ' as int
  {
  }

  lemma PrefixTail(base: Text, t: Text, u: Text)
    requires MatchesAt(base + t, base + u, 0)
    ensures u <= t
  {
    var (whole, n) := (base + t, |base + u|);
    assert whole[|base|..] == t && (base + u)[|base|..] == u;
    assert whole[|base|..][..|u|] == whole[0..n][|base|..];
  }

  lemma MarkerInMarker(t: Text, u: Text)
    requires Tail(t) && Tail(u)
    ensures Includes(MarkerOf(Plugins, t), MarkerOf(Plugins, u)) <==> t == u
  {
    hide MarkerOf, MatchesAt, Tail;
    var (line, m) := (MarkerOf(Plugins, t), MarkerOf(Plugins, u));
    MarkerIsBase(t);
    MarkerIsBase(u);
    NameIncluded(m);
    if Includes(line, m) {
      var k := IndexOf(line, m, 0);
      MatchedComment(line, m, k);
      OnlyFirstSlash(t, k);
      PrefixTail(BASE, t, u);
      TailsDiffer(t, u);
    }
  }

  lemma OnlyFirstSlash(t: Text, k: nat)
    requires Tail(t) && k + 2 < |BASE + t| && (BASE + t)[k] == '/' as int && (BASE + t)[k + 2] == ' ' as int
    ensures k == 0
  {
    assert '/' as int !in t;
    assert forall j :: |BASE| <= j < |BASE + t| ==> (BASE + t)[j] == t[j - |BASE|];
  }

  // A configuration whose list region comes first and whose imports region is empty.
  function ReversedLines(): seq<Text> {
    [MarkerOf(Plugins, LIST_START), MarkerOf(Plugins, LIST_END),
     MarkerOf(Plugins, IMPORTS_START), MarkerOf(Plugins, IMPORTS_END)]
  }

  lemma ReversedSpans()
    ensures ImportsSpan(ReversedLines(), Plugins).Some? && ListSpan(ReversedLines(), Plugins).Some?
    ensures ImportsSpan(ReversedLines(), Plugins).value.start == 2
    ensures ImportsSpan(ReversedLines(), Plugins).value.end == 3
    ensures ListSpan(ReversedLines(), Plugins).value.start == 0 && ListSpan(ReversedLines(), Plugins).value.end == 1
  {
    hide MarkerOf, Includes, SkipSpaces;
    forall t, u | Tail(t) && Tail(u) ensures Includes(MarkerOf(Plugins, t), MarkerOf(Plugins, u)) <==> t == u {
      MarkerInMarker(t, u);
    }
    var lines := ReversedLines();
    assert LIST_START[6] != LIST_END[6] && LIST_START[1] != IMPORTS_START[1] && LIST_END[1] != IMPORTS_START[1];
    assert IMPORTS_START[9] != IMPORTS_END[9] && LIST_START[1] != IMPORTS_END[1] && LIST_END[1] != IMPORTS_END[1];
    assert FirstLine(lines, MarkerOf(Plugins, LIST_START), 0) == Some(0);
    assert FirstLine(lines, MarkerOf(Plugins, LIST_END), 1) == Some(1);
    FirstIs(lines, MarkerOf(Plugins, IMPORTS_START), 0, 2);
    FirstIs(lines, MarkerOf(Plugins, IMPORTS_END), 3, 3);
  }

  lemma {:induction false} FirstIs(lines: seq<Text>, marker: Text, from: nat, k: nat)
    requires from <= k < |lines| && Includes(lines[k], marker)
    requires forall j :: from <= j < k ==> !Includes(lines[j], marker)
    ensures FirstLine(lines, marker, from) == Some(k)
    decreases k - from
  {
    hide Includes;
    if from < k {
      FirstIs(lines, marker, from + 1, k);
    }
  }

  /**
   * With the list region first and the imports region empty, adding an entry and removing it leaves the import
   * behind.
   */
  lemma ReversedOrderBreaksRemoval(e: Entry)
    requires ValidEntry(e)
    ensures var content := Join(ReversedLines(), NEWLINE);
      exists added :: Add(content, e, Plugins) == Edited(added) && Remove(added, e, Plugins) != Edited(content)
        && Add(added, e, Plugins) != NoOp
  {
    hide Includes, IsImportLine, IsListLine, MarkerOf, FindSpan, Join, FirstLine;
    var lines := ReversedLines();
    ReversedSpans();
    var (imports, list) := (ImportsSpan(lines, Plugins).value, ListSpan(lines, Plugins).value);
    ReversedIsOneLine();
    RegionsOfJoined(lines, Plugins, imports, list);
    var content := Join(lines, NEWLINE);
    assert lines[imports.start + 1..imports.end] == [];
    JoinNothing();
    NothingIncludes(Lit("from ") + QuotedName(e));
    var added := Join(AddedLines(lines, imports, list, e, Plugins), NEWLINE);
    assert Add(content, e, Plugins) == Edited(added);
    assert Remove(content, e, Plugins) == NoOp;
    RemoveUndoesAdd(content, e, Plugins, added);
    SecondAddIsNoOp(content, e, Plugins, added);
  }

  lemma JoinNothing()
    ensures Join<Unit>([], NEWLINE) == []
  {
  }

  lemma ReversedIsOneLine()
    ensures AllOneLine(ReversedLines())
  {
    assert NEWLINE !in LIST_START && NEWLINE !in LIST_END && NEWLINE !in IMPORTS_START && NEWLINE !in IMPORTS_END;
    assert NEWLINE !in Lit("// @nexpress:") && NEWLINE !in Lit("plugins");
  }
}
