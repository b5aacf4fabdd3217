/** When removing undoes adding, and what a second edit does. */
module ConfigTheorems {
  import opened Common
  import opened Utf8
  import opened Ascii
  import opened TextSearch
  import opened Whitespace
  import opened ConfigEditor
  import S = Subsequences

  // ---- inserting a line that has no marker ----

  function Up(at: nat, i: nat): nat { if i < at then i else i + 1 }

  function ShiftSpan(at: nat, s: Span): Span { Span(Up(at, s.start), Up(at, s.end), s.indent) }

  function ShiftLine(at: nat, r: Option<nat>): Option<nat> {
    match r
    case None => None
    case Some(i) => Some(Up(at, i))
  }

  // A search that starts at or after the new line, and one that starts before it.
  lemma {:induction false} FirstAfter(lines: seq<Text>, at: nat, line: Text, marker: Text, from: nat)
    requires at <= |lines| && at <= from
    ensures FirstLine(Insert(lines, at, line), marker, from + 1) == ShiftLine(at, FirstLine(lines, marker, from))
    decreases |lines| - from
  {
    hide Includes, Insert;
    if from < |lines| {
      assert Insert(lines, at, line)[from + 1] == lines[from];
      FirstAfter(lines, at, line, marker, from + 1);
    }
  }

  lemma {:induction false} FirstBefore(lines: seq<Text>, at: nat, line: Text, marker: Text, from: nat)
    requires at <= |lines| && from <= at && !Includes(line, marker)
    ensures FirstLine(Insert(lines, at, line), marker, from) == ShiftLine(at, FirstLine(lines, marker, from))
    decreases at - from
  {
    hide Includes, Insert;
    if from == at {
      FirstAfter(lines, at, line, marker, at);
    } else {
      assert Insert(lines, at, line)[from] == lines[from];
      FirstBefore(lines, at, line, marker, from + 1);
    }
  }

  lemma SpanAfterInsert(lines: seq<Text>, at: nat, line: Text, startMarker: Text, endMarker: Text)
    requires at <= |lines| && !Includes(line, startMarker) && !Includes(line, endMarker)
    ensures FindSpan(lines, startMarker, endMarker).Some? ==>
      FindSpan(Insert(lines, at, line), startMarker, endMarker)
        == Some(ShiftSpan(at, FindSpan(lines, startMarker, endMarker).value))
    ensures FindSpan(lines, startMarker, endMarker).None? ==>
      FindSpan(Insert(lines, at, line), startMarker, endMarker).None?
  {
    hide Includes, FirstLine, Insert, SkipSpaces;
    FirstBefore(lines, at, line, startMarker, 0);
    var start := FirstLine(lines, startMarker, 0);
    if start.Some? {
      var more := Insert(lines, at, line);
      assert more[Up(at, start.value)] == lines[start.value];
      if start.value < at {
        FirstBefore(lines, at, line, endMarker, start.value + 1);
      } else {
        FirstAfter(lines, at, line, endMarker, start.value + 1);
      }
    }
  }

  // A line that holds none of the four markers of a kind.
  predicate MarkerFree(line: Text, kind: ConfigKind) {
    && !Includes(line, MarkerOf(kind, IMPORTS_START)) && !Includes(line, MarkerOf(kind, IMPORTS_END))
    && !Includes(line, MarkerOf(kind, LIST_START)) && !Includes(line, MarkerOf(kind, LIST_END))
  }

  predicate HasSpans(lines: seq<Text>, kind: ConfigKind, imports: Span, list: Span) {
    ImportsSpan(lines, kind) == Some(imports) && ListSpan(lines, kind) == Some(list)
  }

  lemma SpansAfterInsert(lines: seq<Text>, at: nat, line: Text, kind: ConfigKind, imports: Span, list: Span)
    requires at <= |lines| && MarkerFree(line, kind) && HasSpans(lines, kind, imports, list)
    ensures HasSpans(Insert(lines, at, line), kind, ShiftSpan(at, imports), ShiftSpan(at, list))
  {
    hide Includes, MarkerOf;
    SpanAfterInsert(lines, at, line, MarkerOf(kind, IMPORTS_START), MarkerOf(kind, IMPORTS_END));
    SpanAfterInsert(lines, at, line, MarkerOf(kind, LIST_START), MarkerOf(kind, LIST_END));
  }

  // ---- what is dropped, and what is kept ----

  lemma DropsAfterInsert(lines: seq<Text>, at: nat, line: Text, imports: Span, list: Span, e: Entry)
    requires at <= |lines|
    ensures var more := Insert(lines, at, line);
      Drops(more, ShiftSpan(at, imports), ShiftSpan(at, list), e)
      == Insert(Drops(lines, imports, list, e), at, Dropped(more, ShiftSpan(at, imports), ShiftSpan(at, list), e, at))
  {
    hide IsImportLine, IsListLine, Insert;
    var more := Insert(lines, at, line);
    var (i', l') := (ShiftSpan(at, imports), ShiftSpan(at, list));
    var drops := Drops(lines, imports, list, e);
    var drops' := Insert(drops, at, Dropped(more, i', l', e, at));
    assert forall j :: 0 <= j < at ==>
      drops'[j] == drops[j] && Dropped(more, i', l', e, j) == Dropped(lines, imports, list, e, j);
    forall j | at < j < |more| ensures drops'[j] == Dropped(more, i', l', e, j) {
      assert drops'[(j - 1) + 1] == drops[j - 1] && more[(j - 1) + 1] == lines[j - 1];
    }
    assert forall j :: 0 <= j < |more| ==> Drops(more, i', l', e)[j] == Dropped(more, i', l', e, j);
    assert Drops(more, i', l', e) == drops';
  }

  lemma {:induction false} KeptAfterInsert(lines: seq<Text>, drops: seq<bool>, at: nat, line: Text, dropped: bool)
    requires at <= |lines| == |drops|
    ensures |Kept(Insert(lines, at, line), Insert(drops, at, dropped))|
      == |Kept(lines, drops)| + if dropped then 0 else 1
    ensures dropped ==> Kept(Insert(lines, at, line), Insert(drops, at, dropped)) == Kept(lines, drops)
    decreases at
  {
    var (ls, ds) := (Insert(lines, at, line), Insert(drops, at, dropped));
    if at == 0 {
      assert ls[1..] == lines && ds[1..] == drops;
    } else {
      assert ls[0] == lines[0] && ds[0] == drops[0];
      assert ls[1..] == Insert(lines[1..], at - 1, line) && ds[1..] == Insert(drops[1..], at - 1, dropped);
      KeptAfterInsert(lines[1..], drops[1..], at - 1, line, dropped);
    }
  }

  lemma {:induction false} KeepAll(lines: seq<Text>, drops: seq<bool>)
    requires |lines| == |drops| && NoneOf(drops)
    ensures Kept(lines, drops) == lines
  {
    if lines != [] {
      assert forall i :: 0 <= i < |drops[1..]| ==> drops[1..][i] == drops[i + 1];
      KeepAll(lines[1..], drops[1..]);
      assert lines == [lines[0]] + lines[1..];
    }
  }

  lemma {:induction false} KeptIsPart(lines: seq<Text>, drops: seq<bool>)
    requires |lines| == |drops|
    ensures S.Subsequence(Kept(lines, drops), lines)
  {
    if lines != [] {
      KeptIsPart(lines[1..], drops[1..]);
      var rest := Kept(lines[1..], drops[1..]);
      assert [] + rest == rest && ([lines[0]] + rest)[1..] == rest;
    }
  }

  lemma {:induction false} InsertIsMore(lines: seq<Text>, at: nat, line: Text)
    requires at <= |lines|
    ensures S.Subsequence(lines, Insert(lines, at, line))
  {
    S.Same(lines[..at]);
    S.Same(lines[at..]);
    S.Concat([], [line], lines[at..], lines[at..]);
    S.Concat(lines[..at], lines[..at], [] + lines[at..], [line] + lines[at..]);
    assert lines[..at] + ([] + lines[at..]) == lines && lines[..at] + ([line] + lines[at..]) == Insert(lines, at, line);
  }

  // ---- the entry's own lines ----

  predicate Alphanumeric(u: Unit) {
    'A' as int <= u <= 'Z' as int || 'a' as int <= u <= 'z' as int || IsDigit(u)
  }

  // The identifiers the CLI derives.
  predicate ValidIdentifier(e: Entry) {
    e.identifier != [] && forall i :: 0 <= i < |e.identifier| ==> Alphanumeric(e.identifier[i])
  }

  // And a package name without white space.
  predicate ValidEntry(e: Entry) {
    ValidIdentifier(e) && forall i :: 0 <= i < |e.packageName| ==> !Space(e.packageName[i])
  }

  predicate Blank(t: Text) { forall i :: 0 <= i < |t| ==> Space(t[i]) }

  lemma {:induction false} SkipOver(t: Text, i: nat, n: nat)
    requires i <= n <= |t| && (forall k :: i <= k < n ==> Space(t[k])) && (n < |t| ==> !Space(t[n]))
    ensures SkipSpaces(t, i) == n
    decreases n - i
  {
    if i < n {
      SkipOver(t, i + 1, n);
    }
  }

  lemma ListLineIsListLine(indent: Text, e: Entry)
    requires ValidEntry(e) && Blank(indent)
    ensures IsListLine(ListLine(indent, e), e)
  {
    var (line, i) := (ListLine(indent, e), |indent|);
    var j := i + |e.identifier|;
    assert line[i] == e.identifier[0] && line[j] == COMMA;
    SkipOver(line, 0, i);
    assert line[i..j] == e.identifier;
    SkipOver(line, j, j);
    SkipOver(line, j + 1, |line|);
  }

  const IMPORT: Text := Lit("import")

  // The line after its indentation.
  lemma ImportLineShape(indent: Text, e: Entry, kind: ConfigKind)
    requires ValidEntry(e) && Blank(indent)
    ensures var (line, i) := (ImportLine(indent, e, kind), |indent|);
      |line| > i + 7 && SkipSpaces(line, 0) == i && MatchesAt(line, IMPORT, i) && line[i + 6] == ' ' as int
      && line[i + 7] == Binding(e, kind)[0]
  {
    var (line, i) := (ImportLine(indent, e, kind), |indent|);
    var rest := Binding(e, kind) + (Lit(" from ") + (QuotedName(e) + [SEMICOLON]));
    assert line == indent + (Lit("import ") + rest);
    assert line[i..i + 6] == Lit("import ")[..6] == IMPORT;
    assert line[i + 7] == rest[0] == Binding(e, kind)[0];
    assert line[i] == 'i' as int;
    SkipOver(line, 0, i);
  }

  lemma ImportLineQuotesName(indent: Text, e: Entry, kind: ConfigKind)
    ensures Includes(ImportLine(indent, e, kind), QuotedName(e))
  {
    var (keyword, binding, from, name) := (Lit("import "), Binding(e, kind), Lit(" from "), QuotedName(e));
    NameIncluded(name);
    IncludesAround(indent + (keyword + (binding + from)), name, [SEMICOLON], name);
    Regroup(indent, keyword, binding, from, name, [SEMICOLON]);
  }

  lemma Regroup(a: Text, b: Text, c: Text, d: Text, f: Text, g: Text)
    ensures a + (b + (c + d)) + f + g == a + (b + (c + (d + (f + g))))
  {
  }

  lemma ImportLineIsImportLine(indent: Text, e: Entry, kind: ConfigKind)
    requires ValidEntry(e) && Blank(indent)
    ensures IsImportLine(ImportLine(indent, e, kind), e)
  {
    hide ImportLine, Binding, Includes;
    ImportLineShape(indent, e, kind);
    ImportLineQuotesName(indent, e, kind);
  }

  lemma NameIncluded(p: Text)
    ensures Includes(p, p)
  {
    assert p[0..|p|] == p && MatchesAt(p, p, 0);
  }

  lemma BindingStarts(e: Entry, kind: ConfigKind)
    requires ValidEntry(e)
    ensures !Space(Binding(e, kind)[0]) && Binding(e, kind)[0] != COMMA
  {
    assert Alphanumeric(e.identifier[0]);
  }

  // An identifier at the start of an import line is no longer than the keyword.
  lemma IdentifierInKeyword(line: Text, i: nat, e: Entry)
    requires ValidEntry(e) && MatchesAt(line, IMPORT, i) && i + 6 < |line| && line[i + 6] == ' ' as int
    requires MatchesAt(line, e.identifier, i)
    ensures var n := |e.identifier|; n <= 6 && (n < 6 ==> 'a' as int <= line[i + n] <= 'z' as int)
  {
    MatchUnits(line, IMPORT, i);
    MatchUnits(line, e.identifier, i);
    var n := |e.identifier|;
    assert n > 6 ==> Alphanumeric(e.identifier[6]);
    assert n < 6 ==> line[i + n] == IMPORT[n];
  }

  lemma ImportLineIsNoListLine(indent: Text, e: Entry, kind: ConfigKind)
    requires ValidEntry(e) && Blank(indent)
    ensures !IsListLine(ImportLine(indent, e, kind), e)
  {
    hide ImportLine, Binding, MatchesAt, ValidEntry;
    ImportLineShape(indent, e, kind);
    BindingStarts(e, kind);
    var (line, i, n) := (ImportLine(indent, e, kind), |indent|, |e.identifier|);
    if MatchesAt(line, e.identifier, i) {
      IdentifierInKeyword(line, i, e);
      if n == 6 {
        SkipOver(line, i + 6, i + 7);
      } else {
        SkipOver(line, i + n, i + n);
      }
    }
  }

  // A text where no slash is two before a space holds no marker.
  predicate NoComment(t: Text) {
    forall k :: 0 <= k < |t| - 2 && t[k] == '/' as int ==> t[k + 2] != ' ' as int
  }

  lemma NoCommentNoMarker(t: Text, kind: ConfigKind)
    requires NoComment(t)
    ensures MarkerFree(t, kind)
  {
    NoCommentExcludes(t, kind, IMPORTS_START);
    NoCommentExcludes(t, kind, IMPORTS_END);
    NoCommentExcludes(t, kind, LIST_START);
    NoCommentExcludes(t, kind, LIST_END);
  }

  lemma NoCommentExcludes(t: Text, kind: ConfigKind, tail: Text)
    requires NoComment(t)
    ensures !Includes(t, MarkerOf(kind, tail))
  {
    var m := MarkerOf(kind, tail);
    assert m[0] == '/' as int && m[2] == ' ' as int;
    if Includes(t, m) {
      MatchedComment(t, m, IndexOf(t, m, 0));
    }
  }

  lemma MatchedComment(t: Text, m: Text, k: nat)
    requires MatchesAt(t, m, k) && |m| > 2 && m[0] == '/' as int && m[2] == ' ' as int
    ensures k + 2 < |t| && t[k] == '/' as int && t[k + 2] == ' ' as int
  {
    assert t[k] == t[k..k + |m|][0] && t[k + 2] == t[k..k + |m|][2];
  }

  lemma ListLineNoComment(indent: Text, e: Entry)
    requires ValidEntry(e) && Blank(indent)
    ensures NoComment(ListLine(indent, e))
  {
    var line := ListLine(indent, e);
    forall k | 0 <= k < |line| ensures line[k] != '/' as int {
      if k < |indent| {
        assert Space(indent[k]);
      } else if k < |indent| + |e.identifier| {
        assert line[k] == e.identifier[k - |indent|] && Alphanumeric(e.identifier[k - |indent|]);
      }
    }
  }

  lemma ImportLineNoComment(indent: Text, e: Entry, kind: ConfigKind)
    requires ValidEntry(e) && Blank(indent)
    ensures NoComment(ImportLine(indent, e, kind))
  {
    hide Lit;
    var line := ImportLine(indent, e, kind);
    var binding := Binding(e, kind);
    var head := indent + (Lit("import ") + (binding + (Lit(" from ") + [DOUBLE_QUOTE])));
    var name := e.packageName;
    assert line == head + (name + [DOUBLE_QUOTE, SEMICOLON]);
    assert Lit("import ") == ['i' as int, 'm' as int, 'p' as int, 'o' as int, 'r' as int, 't' as int, ' ' as int];
    assert Lit(" from ") == [' ' as int, 'f' as int, 'r' as int, 'o' as int, 'm' as int, ' ' as int];
    assert Lit("{ ") == ['{' as int, ' ' as int] && Lit(" }") == [' ' as int, '}' as int];
    assert '/' as int !in indent by {
      assert forall k :: 0 <= k < |indent| ==> Space(indent[k]);
    }
    assert '/' as int !in e.identifier by {
      assert forall k :: 0 <= k < |e.identifier| ==> Alphanumeric(e.identifier[k]);
    }
    assert '/' as int !in head;
    assert forall k :: 0 <= k < |head| ==> line[k] == head[k] && line[k] in head;
    forall k | 0 <= k < |line| - 2 && line[k] == '/' as int ensures line[k + 2] != ' ' as int {
      var j := k - |head|;
      assert line[k + 2] == (name + [DOUBLE_QUOTE, SEMICOLON])[j + 2];
      assert j + 2 < |name| ==> !Space(name[j + 2]);
    }
  }
}
