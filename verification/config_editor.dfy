/** Adding and removing entries between the markers of a configuration file. */
module ConfigEditor {
  import opened Common
  import opened Utf8
  import opened Ascii
  import opened TextSearch
  import opened Whitespace

  type Text = seq<Unit>

  datatype ConfigKind = Plugins | Themes

  datatype Entry = Entry(packageName: Text, identifier: Text)

  datatype Outcome = Edited(content: Text) | NoMarkers | NoOp

  // A marker region: its marker lines, and the indentation of the first.
  datatype Span = Span(start: nat, end: nat, indent: Text)

  const NEWLINE: Unit := 10
  const COMMA: Unit := ',' as int

  function KindName(kind: ConfigKind): Text {
    if kind == Plugins then Lit("plugins") else Lit("themes")
  }

  function MarkerOf(kind: ConfigKind, tail: Text): Text {
    Lit("// @nexpress:") + (KindName(kind) + tail)
  }

  const IMPORTS_START: Text := Lit("-imports-start")
  const IMPORTS_END: Text := Lit("-imports-end")
  const LIST_START: Text := Lit("-list-start")
  const LIST_END: Text := Lit("-list-end")

  // ---- regions ----

  // The first line from `from` on that includes a marker.
  function FirstLine(lines: seq<Text>, marker: Text, from: nat): (r: Option<nat>)
    ensures r.Some? ==> from <= r.value < |lines| && Includes(lines[r.value], marker)
    ensures forall j :: from <= j < (if r.Some? then r.value else |lines|) ==> !Includes(lines[j], marker)
    decreases |lines| - from
  {
    if from >= |lines| then None
    else if Includes(lines[from], marker) then Some(from)
    else FirstLine(lines, marker, from + 1)
  }

  function SkipSpaces(t: Text, i: nat): (r: nat)
    ensures i <= r && (i <= |t| ==> r <= |t|)
    ensures forall k :: i <= k < r && k < |t| ==> Space(t[k])
    decreases |t| - i
  {
    if i < |t| && Space(t[i]) then SkipSpaces(t, i + 1) else i
  }

  function FindSpan(lines: seq<Text>, startMarker: Text, endMarker: Text): (r: Option<Span>)
    ensures r.Some? ==> r.value.start < r.value.end < |lines|
  {
    match FirstLine(lines, startMarker, 0)
    case None => None
    case Some(start) =>
      match FirstLine(lines, endMarker, start + 1)
      case None => None
      case Some(end) => Some(Span(start, end, lines[start][..SkipSpaces(lines[start], 0)]))
  }

  method LocateSpan(lines: seq<Text>, startMarker: Text, endMarker: Text) returns (r: Option<Span>)
    ensures r == FindSpan(lines, startMarker, endMarker)
  {
    var startLine, endLine := -1, -1;
    var indent: Text := [];
    var i := 0;
    while i < |lines|
      invariant 0 <= i <= |lines| && endLine == -1
      invariant startLine == -1 ==> FirstLine(lines, startMarker, 0) == FirstLine(lines, startMarker, i)
      invariant startLine != -1 ==>
        0 <= startLine < i && FirstLine(lines, startMarker, 0) == Some(startLine)
        && indent == lines[startLine][..SkipSpaces(lines[startLine], 0)]
        && FirstLine(lines, endMarker, startLine + 1) == FirstLine(lines, endMarker, i)
    {
      if startLine == -1 && Includes(lines[i], startMarker) {
        startLine := i;
        indent := lines[i][..SkipSpaces(lines[i], 0)];
      } else if startLine != -1 && Includes(lines[i], endMarker) {
        return Some(Span(startLine, i, indent));
      }
      i := i + 1;
    }
    return None;
  }

  function ImportsSpan(lines: seq<Text>, kind: ConfigKind): Option<Span> {
    FindSpan(lines, MarkerOf(kind, IMPORTS_START), MarkerOf(kind, IMPORTS_END))
  }

  function ListSpan(lines: seq<Text>, kind: ConfigKind): Option<Span> {
    FindSpan(lines, MarkerOf(kind, LIST_START), MarkerOf(kind, LIST_END))
  }

  // The early check of the whole text.
  predicate MissingMarker(content: Text, kind: ConfigKind) {
    !Includes(content, MarkerOf(kind, IMPORTS_START)) || !Includes(content, MarkerOf(kind, IMPORTS_END))
    || !Includes(content, MarkerOf(kind, LIST_START)) || !Includes(content, MarkerOf(kind, LIST_END))
  }

  function Lines(content: Text): seq<Text> { Split(content, NEWLINE) }

  // The lines and the two regions; None when a marker is missing or a pair is malformed.
  function Regions(content: Text, kind: ConfigKind): Option<(Span, Span)> {
    if MissingMarker(content, kind) then None
    else
      match (ImportsSpan(Lines(content), kind), ListSpan(Lines(content), kind))
      case (Some(imports), Some(list)) => Some((imports, list))
      case _ => None
  }

  // ---- add ----

  function ListLine(indent: Text, e: Entry): Text {
    indent + (e.identifier + [COMMA])
  }

  function Binding(e: Entry, kind: ConfigKind): Text {
    if kind == Themes then Lit("{ ") + (e.identifier + Lit(" }")) else e.identifier
  }

  function ImportLine(indent: Text, e: Entry, kind: ConfigKind): Text {
    indent + (Lit("import ") + (Binding(e, kind) + (Lit(" from ") + (QuotedName(e) + [SEMICOLON]))))
  }

  const DOUBLE_QUOTE: Unit := '\"' as int
  const SEMICOLON: Unit := ';' as int

  function QuotedName(e: Entry): Text {
    [DOUBLE_QUOTE] + (e.packageName + [DOUBLE_QUOTE])
  }

  function Insert<T>(lines: seq<T>, at: nat, line: T): (r: seq<T>)
    requires at <= |lines|
    ensures |r| == |lines| + 1 && r[at] == line
    ensures forall i :: 0 <= i < at ==> r[i] == lines[i]
    ensures forall i :: at <= i < |lines| ==> r[i + 1] == lines[i]
  {
    lines[..at] + [line] + lines[at..]
  }

  // What the imports region says, as one text.
  function ImportsBlock(lines: seq<Text>, imports: Span): Text
    requires imports.start < imports.end < |lines|
  {
    Join(lines[imports.start + 1..imports.end], NEWLINE)
  }

  // The list line first, then the import line at its offset from before.
  function AddedLines(lines: seq<Text>, imports: Span, list: Span, e: Entry, kind: ConfigKind): (r: seq<Text>)
    requires imports.end < |lines| && list.end < |lines|
    ensures |r| == |lines| + 2
  {
    Insert(Insert(lines, list.end, ListLine(list.indent, e)), imports.end, ImportLine(imports.indent, e, kind))
  }

  function Add(content: Text, e: Entry, kind: ConfigKind): Outcome {
    match Regions(content, kind)
    case None => NoMarkers
    case Some((imports, list)) =>
      if Includes(ImportsBlock(Lines(content), imports), Lit("from ") + QuotedName(e)) then NoOp
      else Edited(Join(AddedLines(Lines(content), imports, list, e, kind), NEWLINE))
  }

  method AddConfigEntry(content: Text, e: Entry, kind: ConfigKind) returns (r: Outcome)
    ensures r == Add(content, e, kind)
  {
    hide Regions, Includes, Lines, ImportLine, ListLine;
    var regions := Regions(content, kind);
    if regions.None? {
      return NoMarkers;
    }
    RegionBounds(content, kind);
    var (imports, list) := regions.value;
    var next := Lines(content);
    if Includes(ImportsBlock(next, imports), Lit("from ") + QuotedName(e)) {
      return NoOp;
    }
    next := Insert(next, list.end, ListLine(list.indent, e));
    next := Insert(next, imports.end, ImportLine(imports.indent, e, kind));
    return Edited(Join(next, NEWLINE));
  }

  lemma RegionBounds(content: Text, kind: ConfigKind)
    requires Regions(content, kind).Some?
    ensures var ((imports, list), n) := (Regions(content, kind).value, |Lines(content)|);
      imports.start < imports.end < n && list.start < list.end < n
  {
  }

  // ---- remove ----

  // ^\s*import\s+ , and the quoted package name anywhere.
  predicate IsImportLine(line: Text, e: Entry) {
    var i := SkipSpaces(line, 0);
    MatchesAt(line, Lit("import"), i) && i + 6 < |line| && Space(line[i + 6]) && Includes(line, QuotedName(e))
  }

  // ^\s*IDENTIFIER\s*,?\s*$
  predicate IsListLine(line: Text, e: Entry) {
    var i := SkipSpaces(line, 0);
    MatchesAt(line, e.identifier, i) &&
    var j := SkipSpaces(line, i + |e.identifier|);
    j == |line| || (line[j] == COMMA && SkipSpaces(line, j + 1) == |line|)
  }

  predicate Inside(s: Span, i: nat) { s.start < i < s.end }

  predicate Dropped(lines: seq<Text>, imports: Span, list: Span, e: Entry, i: nat)
    requires i < |lines|
  {
    (Inside(imports, i) && IsImportLine(lines[i], e)) || (Inside(list, i) && IsListLine(lines[i], e))
  }

  // Which lines a removal drops.
  function Drops(lines: seq<Text>, imports: Span, list: Span, e: Entry): (r: seq<bool>)
    ensures |r| == |lines|
  {
    seq(|lines|, i requires 0 <= i < |lines| => Dropped(lines, imports, list, e, i))
  }

  function Kept(lines: seq<Text>, drops: seq<bool>): seq<Text>
    requires |lines| == |drops|
  {
    if lines == [] then []
    else (if drops[0] then [] else [lines[0]]) + Kept(lines[1..], drops[1..])
  }

  predicate NoneOf(drops: seq<bool>) {
    forall i :: 0 <= i < |drops| ==> !drops[i]
  }

  function Remove(content: Text, e: Entry, kind: ConfigKind): Outcome {
    match Regions(content, kind)
    case None => NoMarkers
    case Some((imports, list)) =>
      var drops := Drops(Lines(content), imports, list, e);
      if NoneOf(drops) then NoOp else Edited(Join(Kept(Lines(content), drops), NEWLINE))
  }

  lemma KeptStep(lines: seq<Text>, drops: seq<bool>, i: nat, next: seq<Text>)
    requires |lines| == |drops| && i < |lines|
    ensures next + Kept(lines[i..], drops[i..]) ==
      (if drops[i] then next else next + [lines[i]]) + Kept(lines[i + 1..], drops[i + 1..])
  {
    assert lines[i..][1..] == lines[i + 1..] && drops[i..][1..] == drops[i + 1..];
    assert lines[i..][0] == lines[i] && drops[i..][0] == drops[i];
  }

  // The copying loop: every line but the dropped ones.
  method CopyKept(lines: seq<Text>, imports: Span, list: Span, e: Entry) returns (next: seq<Text>, removed: bool)
    ensures next == Kept(lines, Drops(lines, imports, list, e))
    ensures removed == !NoneOf(Drops(lines, imports, list, e))
  {
    hide Dropped, Kept;
    ghost var drops := Drops(lines, imports, list, e);
    next, removed := [], false;
    var i := 0;
    assert lines[0..] == lines && drops[0..] == drops && [] + Kept(lines, drops) == Kept(lines, drops);
    while i < |lines|
      invariant i <= |lines|
      invariant Kept(lines, drops) == next + Kept(lines[i..], drops[i..])
      invariant !removed ==> forall j :: 0 <= j < i ==> !drops[j]
      invariant removed ==> !NoneOf(drops)
    {
      KeptStep(lines, drops, i, next);
      assert drops[i] == Dropped(lines, imports, list, e, i);
      if Dropped(lines, imports, list, e, i) {
        removed := true;
      } else {
        next := next + [lines[i]];
      }
      i := i + 1;
    }
    KeptNothing();
    assert lines[i..] == [] && drops[i..] == [] && next + [] == next;
  }

  lemma KeptNothing()
    ensures Kept([], []) == []
  {
  }

  method RemoveConfigEntry(content: Text, e: Entry, kind: ConfigKind) returns (r: Outcome)
    ensures r == Remove(content, e, kind)
  {
    hide Drops, Kept, NoneOf, Lines;
    var regions := Regions(content, kind);
    if regions.None? {
      return NoMarkers;
    }
    var next, removed := CopyKept(Lines(content), regions.value.0, regions.value.1, e);
    return if removed then Edited(Join(next, NEWLINE)) else NoOp;
  }
}
