/** What a removal keeps, and what a second removal finds. */
module ConfigRemoval {
  import opened Common
  import opened Utf8
  import opened Ascii
  import opened TextSearch
  import opened Whitespace
  import opened ConfigEditor
  import opened ConfigTheorems
  import opened ConfigRoundTrip
  import S = Subsequences

  // ---- where a kept line goes ----

  // How many lines before line i are kept.
  function Rank(drops: seq<bool>, i: nat): (r: nat)
    requires i <= |drops|
    ensures r <= i
  {
    if i == 0 then 0 else Rank(drops, i - 1) + if drops[i - 1] then 0 else 1
  }

  lemma {:induction false} KeptUpTo(lines: seq<Text>, drops: seq<bool>, i: nat)
    requires i <= |lines| == |drops|
    ensures |Kept(lines, drops)| == Rank(drops, i) + |Kept(lines[i..], drops[i..])|
    ensures Kept(lines, drops)[Rank(drops, i)..] == Kept(lines[i..], drops[i..])
  {
    if i == 0 {
      assert lines[0..] == lines && drops[0..] == drops;
    } else {
      KeptUpTo(lines, drops, i - 1);
      assert lines[i - 1..][1..] == lines[i..] && drops[i - 1..][1..] == drops[i..];
    }
  }

  lemma KeptAtRank(lines: seq<Text>, drops: seq<bool>, i: nat)
    requires i < |lines| == |drops| && !drops[i]
    ensures Rank(drops, i) < |Kept(lines, drops)| && Kept(lines, drops)[Rank(drops, i)] == lines[i]
  {
    KeptUpTo(lines, drops, i);
    assert Kept(lines, drops)[Rank(drops, i)..][0] == lines[i];
  }

  lemma {:induction false} RankGrows(drops: seq<bool>, i: nat, j: nat)
    requires i <= j <= |drops|
    ensures Rank(drops, i) <= Rank(drops, j)
    ensures i < j && !drops[i] ==> Rank(drops, i) < Rank(drops, j)
  {
    if i < j {
      RankGrows(drops, i, j - 1);
    }
  }

  // Every line of the shorter text comes from a kept line.
  lemma {:induction false} Origin(drops: seq<bool>, n: nat, k: nat) returns (i: nat)
    requires n <= |drops| && k < Rank(drops, n)
    ensures i < n && !drops[i] && Rank(drops, i) == k
  {
    if k < Rank(drops, n - 1) {
      i := Origin(drops, n - 1, k);
    } else {
      i := n - 1;
    }
  }

  lemma KeptCount(lines: seq<Text>, drops: seq<bool>)
    requires |lines| == |drops|
    ensures |Kept(lines, drops)| == Rank(drops, |drops|)
  {
    KeptUpTo(lines, drops, |drops|);
  }

  // The first kept line from `from` on that includes a marker.
  function FirstKept(lines: seq<Text>, drops: seq<bool>, marker: Text, from: nat): (r: Option<nat>)
    requires |lines| == |drops|
    ensures r.Some? ==> from <= r.value < |lines| && !drops[r.value] && Includes(lines[r.value], marker)
    ensures forall j :: from <= j < (if r.Some? then r.value else |lines|) && !drops[j] ==> !Includes(lines[j], marker)
    decreases |lines| - from
  {
    if from >= |lines| then None
    else if !drops[from] && Includes(lines[from], marker) then Some(from)
    else FirstKept(lines, drops, marker, from + 1)
  }

  lemma {:induction false} FirstOfKept(lines: seq<Text>, drops: seq<bool>, marker: Text, from: nat)
    requires from <= |lines| == |drops|
    ensures FirstLine(Kept(lines, drops), marker, Rank(drops, from)) ==
      match FirstKept(lines, drops, marker, from)
      case None => None
      case Some(i) => Some(Rank(drops, i))
    decreases |lines| - from
  {
    hide Includes, Kept;
    KeptCount(lines, drops);
    if from < |lines| {
      if !drops[from] {
        KeptAtRank(lines, drops, from);
      }
      FirstOfKept(lines, drops, marker, from + 1);
    }
  }

  // The region of the shorter text: its marker lines are those of the longer text, found among the kept lines.
  function KeptSpan(lines: seq<Text>, drops: seq<bool>, startMarker: Text, endMarker: Text): (r: Option<(nat, nat)>)
    requires |lines| == |drops|
    ensures r.Some? ==> r.value.0 < r.value.1 < |lines| && !drops[r.value.0] && !drops[r.value.1]
  {
    match FirstKept(lines, drops, startMarker, 0)
    case None => None
    case Some(start) =>
      match FirstKept(lines, drops, endMarker, start + 1)
      case None => None
      case Some(end) => Some((start, end))
  }

  lemma SpanOfKept(lines: seq<Text>, drops: seq<bool>, startMarker: Text, endMarker: Text)
    requires |lines| == |drops|
    ensures var (before, after) := (KeptSpan(lines, drops, startMarker, endMarker),
                                    FindSpan(Kept(lines, drops), startMarker, endMarker));
      && (before.None? <==> after.None?)
      && (before.Some? ==>
            after.value.start == Rank(drops, before.value.0) && after.value.end == Rank(drops, before.value.1))
  {
    hide Includes, Kept, FirstLine, FirstKept, SkipSpaces;
    FirstOfKept(lines, drops, startMarker, 0);
    var start := FirstKept(lines, drops, startMarker, 0);
    if start.Some? {
      FirstOfKept(lines, drops, endMarker, start.value + 1);
    }
  }

  // Kept marker lines are found where they were.
  lemma SpanStays(lines: seq<Text>, drops: seq<bool>, startMarker: Text, endMarker: Text)
    requires |lines| == |drops| && FindSpan(lines, startMarker, endMarker).Some?
    requires var s := FindSpan(lines, startMarker, endMarker).value; !drops[s.start] && !drops[s.end]
    ensures var s := FindSpan(lines, startMarker, endMarker).value;
      KeptSpan(lines, drops, startMarker, endMarker) == Some((s.start, s.end))
  {
    hide Includes;
  }

  // ---- a removal touches the regions alone ----

  // The lines in a region.
  function InRegions(lines: seq<Text>, imports: Span, list: Span): (r: seq<bool>)
    ensures |r| == |lines|
  {
    seq(|lines|, i requires 0 <= i < |lines| => Inside(imports, i) || Inside(list, i))
  }

  lemma {:induction false} KeptMore(lines: seq<Text>, fewer: seq<bool>, more: seq<bool>)
    requires |lines| == |fewer| == |more| && forall i :: 0 <= i < |lines| && fewer[i] ==> more[i]
    ensures S.Subsequence(Kept(lines, more), Kept(lines, fewer))
  {
    if lines != [] {
      KeptMore(lines[1..], fewer[1..], more[1..]);
      var (a, b) := (Kept(lines[1..], more[1..]), Kept(lines[1..], fewer[1..]));
      S.Same([lines[0]]);
      S.Concat(if more[0] then [] else [lines[0]], if fewer[0] then [] else [lines[0]], a, b);
    }
  }

  // The earlier of the two start lines stands in no region.
  lemma SomethingKept(lines: seq<Text>, imports: Span, list: Span, e: Entry)
    requires imports.start < imports.end < |lines| && list.start < list.end < |lines|
    ensures Kept(lines, Drops(lines, imports, list, e)) != []
  {
    hide IsImportLine, IsListLine;
    var first := if imports.start <= list.start then imports.start else list.start;
    KeptAtRank(lines, Drops(lines, imports, list, e), first);
  }

  lemma LinesAfterRemoval(content: Text, e: Entry, kind: ConfigKind, after: Text)
    requires Remove(content, e, kind) == Edited(after)
    ensures var (imports, list) := Regions(content, kind).value;
      var kept := Kept(Lines(content), Drops(Lines(content), imports, list, e));
      Lines(after) == kept && kept != [] && AllOneLine(kept)
  {
    hide Drops, Kept, Lines, Includes;
    var (imports, list) := Regions(content, kind).value;
    var lines := Lines(content);
    LinesOf(content);
    RegionsAreSpans(content, kind);
    SpanBounds(lines, kind, imports, list);
    SomethingKept(lines, imports, list, e);
    KeptOneLine(lines, Drops(lines, imports, list, e));
    LinesOfJoin(Kept(lines, Drops(lines, imports, list, e)));
  }

  /** A removal drops lines of the two regions: every other line is kept, and none is added or moved. */
  lemma RemoveKeepsLines(content: Text, e: Entry, kind: ConfigKind, after: Text)
    requires Remove(content, e, kind) == Edited(after)
    ensures var (imports, list) := Regions(content, kind).value;
      S.Subsequence(Kept(Lines(content), InRegions(Lines(content), imports, list)), Lines(after))
    ensures S.Subsequence(Lines(after), Lines(content))
  {
    hide Kept, Lines, IsImportLine, IsListLine;
    var (imports, list) := Regions(content, kind).value;
    var drops := Drops(Lines(content), imports, list, e);
    LinesAfterRemoval(content, e, kind, after);
    KeptIsPart(Lines(content), drops);
    KeptMore(Lines(content), drops, InRegions(Lines(content), imports, list));
  }

  // ---- removing twice ----

  // The list region the kept markers bound holds no further line of the entry.
  predicate ListStaysClean(lines: seq<Text>, drops: seq<bool>, e: Entry, kind: ConfigKind)
    requires |lines| == |drops|
  {
    match KeptSpan(lines, drops, MarkerOf(kind, LIST_START), MarkerOf(kind, LIST_END))
    case None => false
    case Some((start, end)) => forall i :: start < i < end && IsListLine(lines[i], e) ==> drops[i]
  }

  lemma ListLineHasNoMarker(line: Text, e: Entry, kind: ConfigKind)
    requires ValidIdentifier(e) && IsListLine(line, e)
    ensures MarkerFree(line, kind)
  {
    var i := SkipSpaces(line, 0);
    var j := SkipSpaces(line, i + |e.identifier|);
    MatchUnits(line, e.identifier, i);
    forall k | 0 <= k < |line| ensures line[k] != '/' as int {
      if i <= k < i + |e.identifier| {
        assert line[i + (k - i)] == e.identifier[k - i] && Alphanumeric(e.identifier[k - i]);
      }
    }
    NoCommentNoMarker(line, kind);
  }

  // No marker line of the imports region is ever dropped.
  lemma ImportsStay(lines: seq<Text>, imports: Span, list: Span, e: Entry, kind: ConfigKind)
    requires ValidIdentifier(e) && HasSpans(lines, kind, imports, list)
    ensures imports.start < imports.end < |lines|
    ensures KeptSpan(lines, Drops(lines, imports, list, e), MarkerOf(kind, IMPORTS_START), MarkerOf(kind, IMPORTS_END))
      == Some((imports.start, imports.end))
  {
    hide Includes, IsImportLine, IsListLine, KeptSpan, MarkerOf;
    var drops := Drops(lines, imports, list, e);
    if IsListLine(lines[imports.start], e) {
      ListLineHasNoMarker(lines[imports.start], e, kind);
    }
    if IsListLine(lines[imports.end], e) {
      ListLineHasNoMarker(lines[imports.end], e, kind);
    }
    SpanStays(lines, drops, MarkerOf(kind, IMPORTS_START), MarkerOf(kind, IMPORTS_END));
  }

  // No line of the entry is left in the imports region, and none in a clean list region.
  lemma NothingLeft(lines: seq<Text>, imports: Span, list: Span, e: Entry, kind: ConfigKind, list': Span)
    requires ValidIdentifier(e) && HasSpans(lines, kind, imports, list)
    requires var drops := Drops(lines, imports, list, e);
      ListSpan(Kept(lines, drops), kind) == Some(list') && ListStaysClean(lines, drops, e, kind)
    ensures var kept := Kept(lines, Drops(lines, imports, list, e));
      ImportsSpan(kept, kind).Some? && NoneOf(Drops(kept, ImportsSpan(kept, kind).value, list', e))
  {
    hide IsImportLine, IsListLine, Kept, KeptSpan, FindSpan, MarkerOf, Rank;
    var drops := Drops(lines, imports, list, e);
    var kept := Kept(lines, drops);
    ImportsStay(lines, imports, list, e, kind);
    SpanOfKept(lines, drops, MarkerOf(kind, IMPORTS_START), MarkerOf(kind, IMPORTS_END));
    SpanOfKept(lines, drops, MarkerOf(kind, LIST_START), MarkerOf(kind, LIST_END));
    var imports' := ImportsSpan(kept, kind).value;
    var (start, end) := KeptSpan(lines, drops, MarkerOf(kind, LIST_START), MarkerOf(kind, LIST_END)).value;
    KeptCount(lines, drops);
    forall k | 0 <= k < |kept| ensures !Dropped(kept, imports', list', e, k) {
      var i := Origin(drops, |drops|, k);
      KeptAtRank(lines, drops, i);
      Between(drops, imports.start, i, imports.end);
      Between(drops, start, i, end);
      assert !Dropped(lines, imports, list, e, i);
    }
  }

  // A kept line stands between two others exactly when it does afterwards.
  lemma Between(drops: seq<bool>, start: nat, i: nat, end: nat)
    requires start < end < |drops| && i < |drops| && !drops[start] && !drops[i] && !drops[end]
    ensures start < i < end <==> Rank(drops, start) < Rank(drops, i) < Rank(drops, end)
  {
    if start < i {
      RankGrows(drops, start, i);
    } else {
      RankGrows(drops, i, start);
    }
    if i < end {
      RankGrows(drops, i, end);
    } else {
      RankGrows(drops, end, i);
    }
  }

  lemma SomethingLeft(lines: seq<Text>, imports: Span, list: Span, e: Entry, kind: ConfigKind, imports': Span,
                      list': Span)
    requires var drops := Drops(lines, imports, list, e);
      ListSpan(Kept(lines, drops), kind) == Some(list') && !ListStaysClean(lines, drops, e, kind)
    ensures !NoneOf(Drops(Kept(lines, Drops(lines, imports, list, e)), imports', list', e))
  {
    hide IsImportLine, IsListLine, Kept, KeptSpan, FindSpan, MarkerOf, Rank, Drops;
    var drops := Drops(lines, imports, list, e);
    SpanOfKept(lines, drops, MarkerOf(kind, LIST_START), MarkerOf(kind, LIST_END));
    var (start, end) := KeptSpan(lines, drops, MarkerOf(kind, LIST_START), MarkerOf(kind, LIST_END)).value;
    var i :| start < i < end && IsListLine(lines[i], e) && !drops[i];
    KeptAtRank(lines, drops, i);
    Between(drops, start, i, end);
    DropsSome(Kept(lines, drops), imports', list', e, Rank(drops, i));
  }

  lemma DropsSome(lines: seq<Text>, imports: Span, list: Span, e: Entry, k: nat)
    requires k < |lines| && Inside(list, k) && IsListLine(lines[k], e)
    ensures !NoneOf(Drops(lines, imports, list, e))
  {
    assert Drops(lines, imports, list, e)[k] == Dropped(lines, imports, list, e, k);
  }

  /**
   * A second removal is a no-op if and only if the first one leaves a list region, between the first kept start
   * line and the first kept end line after it, in which no line of the entry was spared. Where no such region is
   * left, the second removal finds no markers; otherwise it edits the text again.
   */
  lemma SecondRemoveExactly(content: Text, e: Entry, kind: ConfigKind, after: Text)
    requires ValidIdentifier(e) && Remove(content, e, kind) == Edited(after)
    ensures var (imports, list) := Regions(content, kind).value;
      var drops := Drops(Lines(content), imports, list, e);
      && (Remove(after, e, kind) == NoOp <==> ListStaysClean(Lines(content), drops, e, kind))
      && (Remove(after, e, kind) == NoMarkers <==>
            KeptSpan(Lines(content), drops, MarkerOf(kind, LIST_START), MarkerOf(kind, LIST_END)).None?)
  {
    hide Drops, Kept, NoneOf, Lines, ListStaysClean, KeptSpan, FindSpan, Includes, MarkerOf;
    var (imports, list) := Regions(content, kind).value;
    var lines := Lines(content);
    var drops := Drops(lines, imports, list, e);
    var kept := Kept(lines, drops);
    RegionsAreSpans(content, kind);
    LinesAfterRemoval(content, e, kind, after);
    SpanOfKept(lines, drops, MarkerOf(kind, LIST_START), MarkerOf(kind, LIST_END));
    ImportsStay(lines, imports, list, e, kind);
    SpanOfKept(lines, drops, MarkerOf(kind, IMPORTS_START), MarkerOf(kind, IMPORTS_END));
    var (i', l') := (ImportsSpan(kept, kind), ListSpan(kept, kind));
    if l'.None? {
      NoListRegion(after, e, kind);
      CleanNeedsRegion(lines, drops, e, kind);
    } else {
      RegionsOfJoined(kept, kind, i'.value, l'.value);
      if ListStaysClean(lines, drops, e, kind) {
        NothingLeft(lines, imports, list, e, kind, l'.value);
      } else {
        SomethingLeft(lines, imports, list, e, kind, i'.value, l'.value);
      }
    }
  }

  lemma CleanNeedsRegion(lines: seq<Text>, drops: seq<bool>, e: Entry, kind: ConfigKind)
    requires |lines| == |drops| && KeptSpan(lines, drops, MarkerOf(kind, LIST_START), MarkerOf(kind, LIST_END)).None?
    ensures !ListStaysClean(lines, drops, e, kind)
  {
  }

  lemma NoListRegion(content: Text, e: Entry, kind: ConfigKind)
    requires ListSpan(Lines(content), kind).None?
    ensures Remove(content, e, kind) == NoMarkers
  {
  }

  /** So it is one whenever the removal drops neither marker line of the list region. */
  lemma SecondRemoveIsNoOp(content: Text, e: Entry, kind: ConfigKind, after: Text)
    requires ValidIdentifier(e) && Remove(content, e, kind) == Edited(after)
    requires var (imports, list) := Regions(content, kind).value;
      var lines := Lines(content);
      !Dropped(lines, imports, list, e, list.start) && !Dropped(lines, imports, list, e, list.end)
    ensures Remove(after, e, kind) == NoOp
  {
    hide Kept, Lines, IsImportLine, IsListLine, Includes, MarkerOf, FirstLine, FirstKept;
    var (imports, list) := Regions(content, kind).value;
    RegionsAreSpans(content, kind);
    SpanStays(Lines(content), Drops(Lines(content), imports, list, e), MarkerOf(kind, LIST_START),
              MarkerOf(kind, LIST_END));
    SecondRemoveExactly(content, e, kind, after);
  }

  // ---- a file where the second removal edits again ----

  // An import line of the entry that also holds the end marker of the list.
  function MarkedImport(e: Entry): Text {
    ImportLine([], e, Plugins) + ([SPACE] + MarkerOf(Plugins, LIST_END))
  }

  const SPACE: Unit := ' ' as int

  // The list region ends early, at that import line.
  function MarkedLines(e: Entry): seq<Text> {
    [MarkerOf(Plugins, LIST_START), MarkerOf(Plugins, IMPORTS_START), MarkedImport(e),
     MarkerOf(Plugins, IMPORTS_END), ListLine([], e), MarkerOf(Plugins, LIST_END)]
  }

  lemma MarkedIsImport(e: Entry)
    requires ValidEntry(e)
    ensures IsImportLine(MarkedImport(e), e)
  {
    hide ImportLine, Includes, MarkerOf, ValidEntry;
    var (line, tail) := (ImportLine([], e, Plugins), [SPACE] + MarkerOf(Plugins, LIST_END));
    ImportLineShape([], e, Plugins);
    ImportLineQuotesName([], e, Plugins);
    IncludesAround([], line, tail, QuotedName(e));
    assert [] + line + tail == MarkedImport(e);
    assert line[0..6] == MarkedImport(e)[0..6] == IMPORT;
    assert IMPORT[0] == 'i' as int && line[0] == line[0..6][0];
    SkipOver(MarkedImport(e), 0, 0);
  }

  lemma MarkedMarkers(e: Entry, t: Text)
    requires ValidEntry(e) && Tail(t)
    ensures Includes(MarkedImport(e), MarkerOf(Plugins, t)) <==> t == LIST_END
  {
    hide ImportLine, MarkerOf, MatchesAt, Tail, ValidEntry, NoComment;
    var (line, end, m) := (ImportLine([], e, Plugins), MarkerOf(Plugins, LIST_END), MarkerOf(Plugins, t));
    TailOfListEnd();
    MarkerInMarker(LIST_END, t);
    if t == LIST_END {
      IncludesAround(line + [SPACE], end, [], m);
      assert line + [SPACE] + end + [] == MarkedImport(e);
    }
    if Includes(MarkedImport(e), m) {
      var k := IndexOf(MarkedImport(e), m, 0);
      MarkerIsBase(t);
      MatchedComment(MarkedImport(e), m, k);
      ImportLineNoComment([], e, Plugins);
      ImportLineEnds(e);
      CommentInTail(line, end, k);
      assert line + [SPACE] + end == MarkedImport(e);
      MatchInTail(line + [SPACE], end, m, k);
    }
  }

  lemma TailOfListEnd()
    ensures Tail(LIST_END)
  {
  }

  lemma ImportLineEnds(e: Entry)
    ensures var line := ImportLine([], e, Plugins);
      |line| >= 2 && line[|line| - 2] == DOUBLE_QUOTE && line[|line| - 1] == SEMICOLON
  {
    var before := Lit("import ") + (Binding(e, Plugins) + (Lit(" from ") + ([DOUBLE_QUOTE] + e.packageName)));
    assert ImportLine([], e, Plugins) == before + [DOUBLE_QUOTE, SEMICOLON];
  }

  lemma CommentInTail(line: Text, end: Text, k: nat)
    requires |line| >= 2 && NoComment(line) && line[|line| - 2] == DOUBLE_QUOTE && line[|line| - 1] == SEMICOLON
    requires var whole := line + ([SPACE] + end);
      k + 2 < |whole| && whole[k] == '/' as int && whole[k + 2] == ' ' as int
    ensures k > |line|
  {
  }

  lemma MatchInTail(before: Text, end: Text, m: Text, k: nat)
    requires |before| <= k && MatchesAt(before + end, m, k)
    ensures Includes(end, m)
  {
    var j := k - |before|;
    assert end[j..j + |m|] == (before + end)[k..k + |m|];
    assert MatchesAt(end, m, j);
  }

  lemma MarkedAreOneLine(e: Entry)
    requires ValidEntry(e)
    ensures AllOneLine(MarkedLines(e))
  {
    EntryLinesAreOneLine([], e, Plugins);
    assert NEWLINE !in LIST_START && NEWLINE !in LIST_END && NEWLINE !in IMPORTS_START && NEWLINE !in IMPORTS_END;
    assert NEWLINE !in Lit("// @nexpress:") && NEWLINE !in Lit("plugins");
  }

  // Which of the lines include which markers.
  lemma MarkedIncludes(e: Entry)
    requires ValidEntry(e)
    ensures var lines := MarkedLines(e);
      && (forall k | 0 <= k < 6 :: Includes(lines[k], MarkerOf(Plugins, LIST_START)) <==> k == 0)
      && (forall k | 0 <= k < 6 :: Includes(lines[k], MarkerOf(Plugins, LIST_END)) <==> k == 2 || k == 5)
      && (forall k | 0 <= k < 6 :: Includes(lines[k], MarkerOf(Plugins, IMPORTS_START)) <==> k == 1)
      && (forall k | 0 <= k < 6 :: Includes(lines[k], MarkerOf(Plugins, IMPORTS_END)) <==> k == 3)
  {
    hide ImportLine, ListLine, MarkerOf, Includes, NoComment, ValidEntry;
    ListLineNoComment([], e);
    NoCommentNoMarker(ListLine([], e), Plugins);
    MarkedMarker(e, LIST_START);
    MarkedMarker(e, LIST_END);
    MarkedMarker(e, IMPORTS_START);
    MarkedMarker(e, IMPORTS_END);
    assert LIST_START[6] != LIST_END[6] && LIST_START[1] != IMPORTS_START[1] && LIST_END[1] != IMPORTS_START[1];
    assert IMPORTS_START[9] != IMPORTS_END[9] && LIST_START[1] != IMPORTS_END[1] && LIST_END[1] != IMPORTS_END[1];
  }

  lemma MarkedMarker(e: Entry, t: Text)
    requires ValidEntry(e) && Tail(t)
    ensures Includes(MarkedImport(e), MarkerOf(Plugins, t)) <==> t == LIST_END
    ensures Includes(MarkerOf(Plugins, LIST_START), MarkerOf(Plugins, t)) <==> t == LIST_START
    ensures Includes(MarkerOf(Plugins, LIST_END), MarkerOf(Plugins, t)) <==> t == LIST_END
    ensures Includes(MarkerOf(Plugins, IMPORTS_START), MarkerOf(Plugins, t)) <==> t == IMPORTS_START
    ensures Includes(MarkerOf(Plugins, IMPORTS_END), MarkerOf(Plugins, t)) <==> t == IMPORTS_END
  {
    MarkedMarkers(e, t);
    MarkerInMarker(LIST_START, t);
    MarkerInMarker(LIST_END, t);
    MarkerInMarker(IMPORTS_START, t);
    MarkerInMarker(IMPORTS_END, t);
  }

  lemma MarkedSpans(e: Entry)
    requires ValidEntry(e)
    ensures var (imports, list) := (ImportsSpan(MarkedLines(e), Plugins), ListSpan(MarkedLines(e), Plugins));
      && imports.Some? && imports.value.start == 1 && imports.value.end == 3
      && list.Some? && list.value.start == 0 && list.value.end == 2
  {
    hide MarkerOf, Includes, SkipSpaces, MarkedLines, FirstLine;
    MarkedIncludes(e);
    var lines := MarkedLines(e);
    assert |lines| == 6 by {
      MarkedCount(e);
    }
    FirstIs(lines, MarkerOf(Plugins, IMPORTS_START), 0, 1);
    FirstIs(lines, MarkerOf(Plugins, IMPORTS_END), 2, 3);
    FirstIs(lines, MarkerOf(Plugins, LIST_START), 0, 0);
    FirstIs(lines, MarkerOf(Plugins, LIST_END), 1, 2);
  }

  lemma MarkedCount(e: Entry)
    ensures |MarkedLines(e)| == 6
  {
  }

  // The removal drops the import line alone.
  lemma MarkedDrops(e: Entry, imports: Span, list: Span)
    requires ValidEntry(e) && imports.start == 1 && imports.end == 3 && list.start == 0 && list.end == 2
    ensures var drops := Drops(MarkedLines(e), imports, list, e);
      drops[2] && !drops[0] && !drops[1] && !drops[3] && !drops[4] && !drops[5]
  {
    hide IsImportLine, IsListLine, MarkerOf, ListLine, Includes, ImportLine;
    MarkedIsImport(e);
    MarkerInMarker(IMPORTS_START, IMPORTS_START);
    var line := MarkerOf(Plugins, IMPORTS_START);
    if IsListLine(line, e) {
      ListLineHasNoMarker(line, e, Plugins);
    }
  }

  /** Dropping an import line that holds the list's end marker moves the region, and a second removal edits again. */
  lemma SecondRemoveEditsAgain(e: Entry)
    requires ValidEntry(e)
    ensures var content := Join(MarkedLines(e), NEWLINE);
      exists after :: Remove(content, e, Plugins) == Edited(after) && Remove(after, e, Plugins).Edited?
  {
    hide IsImportLine, IsListLine, MarkerOf, ListLine, Includes, MarkedLines, Kept, Drops, FindSpan;
    var lines := MarkedLines(e);
    MarkedCount(e);
    MarkedSpans(e);
    MarkedAreOneLine(e);
    var (imports, list) := (ImportsSpan(lines, Plugins).value, ListSpan(lines, Plugins).value);
    RegionsOfJoined(lines, Plugins, imports, list);
    MarkedDrops(e, imports, list);
    var drops := Drops(lines, imports, list, e);
    var (content, after) := (Join(lines, NEWLINE), Join(Kept(lines, drops), NEWLINE));
    assert Remove(content, e, Plugins) == Edited(after);
    SecondRemoveExactly(content, e, Plugins, after);
    MarkedIncludes(e);
    assert FirstKept(lines, drops, MarkerOf(Plugins, LIST_START), 0) == Some(0);
    assert FirstKept(lines, drops, MarkerOf(Plugins, LIST_END), 1) == Some(5);
    assert KeptSpan(lines, drops, MarkerOf(Plugins, LIST_START), MarkerOf(Plugins, LIST_END)) == Some((0, 5));
    ListLineIsListLine([], e);
    assert lines[4] == ListLine([], e) by {
      MarkedFifth(e);
    }
  }

  lemma MarkedFifth(e: Entry)
    ensures |MarkedLines(e)| == 6 && MarkedLines(e)[4] == ListLine([], e)
  {
  }
}
