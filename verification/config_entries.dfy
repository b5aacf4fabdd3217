/** The lines an addition writes, and the lines of other entries, which a removal leaves alone. */
module ConfigEntries {
  import opened Common
  import opened Utf8
  import opened Ascii
  import opened TextSearch
  import opened Whitespace
  import opened ConfigEditor
  import opened ConfigTheorems
  import opened ConfigRoundTrip
  import opened ConfigRemoval

  // ---- what an addition writes ----

  /** A plugin is a default import, a theme a named one; both from the quoted package. */
  lemma ImportLineSpelled(indent: Text, e: Entry)
    ensures ImportLine(indent, e, Plugins) ==
      indent + Lit("import ") + e.identifier + Lit(" from ")
        + ([DOUBLE_QUOTE] + e.packageName + [DOUBLE_QUOTE, SEMICOLON])
    ensures ImportLine(indent, e, Themes) ==
      indent + Lit("import ") + (Lit("{ ") + e.identifier + Lit(" }")) + Lit(" from ")
        + ([DOUBLE_QUOTE] + e.packageName + [DOUBLE_QUOTE, SEMICOLON])
  {
    hide Lit;
    var name := [DOUBLE_QUOTE] + e.packageName + [DOUBLE_QUOTE, SEMICOLON];
    assert QuotedName(e) + [SEMICOLON] == name;
    assert Lit("{ ") + (e.identifier + Lit(" }")) == Lit("{ ") + e.identifier + Lit(" }");
    Regroup4(indent, Lit("import "), Binding(e, Plugins), Lit(" from "), name);
    Regroup4(indent, Lit("import "), Binding(e, Themes), Lit(" from "), name);
  }

  lemma Regroup4(a: Text, b: Text, c: Text, d: Text, f: Text)
    ensures a + (b + (c + (d + f))) == a + b + c + d + f
  {
  }

  /** An addition writes the import line and the list line, each indented as its region. */
  lemma AddWrites(content: Text, e: Entry, kind: ConfigKind, after: Text)
    requires ValidEntry(e) && Add(content, e, kind) == Edited(after)
    ensures var (imports, list) := Regions(content, kind).value;
      ImportLine(imports.indent, e, kind) in Lines(after) && list.indent + (e.identifier + [COMMA]) in Lines(after)
  {
    hide Includes, ImportLine, FindSpan, IsListLine, IsImportLine;
    LinesOf(content);
    var (imports, list) := Regions(content, kind).value;
    RegionsAreSpans(content, kind);
    EntryFacts(Lines(content), imports, list, e, kind);
    var added := AddedLines(Lines(content), imports, list, e, kind);
    LinesOfJoin(added);
    assert added[imports.end] == ImportLine(imports.indent, e, kind);
    assert added[Up(imports.end, list.end)] == ListLine(list.indent, e);
  }

  // ---- lines of other entries ----

  lemma ListLineOf(indent: Text, o: Entry, e: Entry)
    requires ValidIdentifier(o) && ValidIdentifier(e) && Blank(indent)
    ensures IsListLine(ListLine(indent, o), e) <==> o.identifier == e.identifier
  {
    hide MatchesAt, SkipSpaces, ListLine, ValidIdentifier;
    var (line, i) := (ListLine(indent, o), |indent|);
    var (a, b) := (|o.identifier|, |e.identifier|);
    ListLineParts(indent, o);
    SkipOver(line, 0, i);
    if MatchesAt(line, e.identifier, i) {
      MatchedUnits(line, e, i);
      if b < a {
        SkipOver(line, i + b, i + b);
      } else {
        SameIdentifier(line, i, o, e);
      }
    }
    if o.identifier == e.identifier {
      MatchIs(line, o.identifier, i);
      SkipOver(line, i + a, i + a);
      SkipOver(line, i + a + 1, |line|);
    }
  }

  lemma ListLineParts(indent: Text, o: Entry)
    requires ValidIdentifier(o) && Blank(indent)
    ensures var (line, i, a) := (ListLine(indent, o), |indent|, |o.identifier|);
      && |line| == i + a + 1 && line[i..i + a] == o.identifier && line[i + a] == COMMA
      && (forall k :: 0 <= k < i ==> Space(line[k])) && (forall k :: i <= k < i + a ==> Alphanumeric(line[k]))
  {
    var (line, i) := (ListLine(indent, o), |indent|);
    assert forall k :: 0 <= k < |o.identifier| ==> line[i + k] == o.identifier[k];
    assert forall k :: i <= k < i + |o.identifier| ==> line[k] == o.identifier[k - i];
  }

  lemma MatchedUnits(line: Text, e: Entry, i: nat)
    requires ValidIdentifier(e) && MatchesAt(line, e.identifier, i)
    ensures i + |e.identifier| <= |line| && forall k :: i <= k < i + |e.identifier| ==> Alphanumeric(line[k])
  {
    hide MatchesAt;
    MatchUnits(line, e.identifier, i);
    forall k | i <= k < i + |e.identifier| ensures Alphanumeric(line[k]) {
      assert line[i + (k - i)] == e.identifier[k - i];
    }
  }

  lemma SameIdentifier(line: Text, i: nat, o: Entry, e: Entry)
    requires MatchesAt(line, e.identifier, i) && |e.identifier| == |o.identifier|
    requires i + |o.identifier| <= |line| && line[i..i + |o.identifier|] == o.identifier
    ensures e.identifier == o.identifier
  {
  }

  lemma MatchIs(t: Text, p: Text, i: nat)
    requires i + |p| <= |t| && t[i..i + |p|] == p
    ensures MatchesAt(t, p, i)
  {
  }

  // No import line is a list line, whoever wrote it.
  lemma ImportIsNoList(indent: Text, o: Entry, kind: ConfigKind, e: Entry)
    requires ValidEntry(o) && ValidIdentifier(e) && Blank(indent)
    ensures !IsListLine(ImportLine(indent, o, kind), e)
  {
    hide ImportLine, MatchesAt, SkipSpaces, IsListLine;
    var line := ImportLine(indent, o, kind);
    ImportQuotes(indent, o, kind);
    if IsListLine(line, e) {
      ListLineHasNoQuote(line, e);
    }
  }

  lemma ListLineHasNoQuote(line: Text, e: Entry)
    requires ValidIdentifier(e) && IsListLine(line, e)
    ensures DOUBLE_QUOTE !in line
  {
    var i := SkipSpaces(line, 0);
    MatchUnits(line, e.identifier, i);
    forall k | 0 <= k < |line| ensures line[k] != DOUBLE_QUOTE {
      if i <= k < i + |e.identifier| {
        assert line[i + (k - i)] == e.identifier[k - i] && Alphanumeric(e.identifier[k - i]);
      }
    }
  }

  // The position of the quoted name, and its two quotes, the only ones when the name has none.
  function NameAt(indent: Text, o: Entry, kind: ConfigKind): nat {
    |indent| + |Lit("import ")| + |Binding(o, kind)| + |Lit(" from ")|
  }

  lemma ImportQuotes(indent: Text, o: Entry, kind: ConfigKind)
    requires ValidEntry(o) && Blank(indent)
    ensures var (line, q) := (ImportLine(indent, o, kind), NameAt(indent, o, kind));
      && |line| == q + |o.packageName| + 3 && line[q] == DOUBLE_QUOTE && DOUBLE_QUOTE in line
      && line[q + 1..q + 1 + |o.packageName|] == o.packageName && line[q + |o.packageName| + 1] == DOUBLE_QUOTE
      && (DOUBLE_QUOTE !in o.packageName ==>
            forall k :: 0 <= k < |line| && line[k] == DOUBLE_QUOTE ==> k == q || k == q + |o.packageName| + 1)
  {
    hide Lit;
    var line := ImportLine(indent, o, kind);
    var binding := Binding(o, kind);
    var head := indent + Lit("import ") + binding + Lit(" from ");
    var name := [DOUBLE_QUOTE] + o.packageName + [DOUBLE_QUOTE, SEMICOLON];
    assert line == head + name by {
      assert QuotedName(o) + [SEMICOLON] == name;
      Regroup4(indent, Lit("import "), binding, Lit(" from "), name);
    }
    HeadHasNoQuote(indent, o, kind);
    assert |head| == NameAt(indent, o, kind);
    assert forall k :: |head| <= k < |line| ==> line[k] == name[k - |head|];
    assert forall k :: 0 <= k < |head| ==> line[k] == head[k] && head[k] in head;
    assert line[|head| + 1..|head| + 1 + |o.packageName|] == o.packageName;
    assert forall k :: 0 < k <= |o.packageName| ==> name[k] == o.packageName[k - 1] && name[k] in o.packageName;
  }

  lemma HeadHasNoQuote(indent: Text, o: Entry, kind: ConfigKind)
    requires ValidEntry(o) && Blank(indent)
    ensures DOUBLE_QUOTE !in indent + Lit("import ") + Binding(o, kind) + Lit(" from ")
  {
    assert DOUBLE_QUOTE !in Lit("import ") && DOUBLE_QUOTE !in Lit(" from ") && DOUBLE_QUOTE !in Lit("{ ");
    assert DOUBLE_QUOTE !in Lit(" }");
    assert DOUBLE_QUOTE !in indent by {
      assert forall k :: 0 <= k < |indent| ==> Space(indent[k]);
    }
    assert DOUBLE_QUOTE !in o.identifier by {
      assert forall k :: 0 <= k < |o.identifier| ==> Alphanumeric(o.identifier[k]);
    }
  }

  lemma ImportLineOf(indent: Text, o: Entry, kind: ConfigKind, e: Entry)
    requires ValidEntry(o) && Blank(indent) && DOUBLE_QUOTE !in o.packageName && DOUBLE_QUOTE !in e.packageName
    ensures IsImportLine(ImportLine(indent, o, kind), e) <==> o.packageName == e.packageName
  {
    hide ImportLine, Includes, MatchesAt;
    var (line, q) := (ImportLine(indent, o, kind), NameAt(indent, o, kind));
    ImportQuotes(indent, o, kind);
    ImportLineIsImportLine(indent, o, kind);
    if IsImportLine(line, e) {
      var k, n := FindName(line, e);
      assert k == q && n == q + |o.packageName| + 1;
      assert line[q + 1..n] == e.packageName;
    }
  }

  // Where the quoted name of an entry stands in a line that includes it.
  lemma FindName(line: Text, e: Entry) returns (k: nat, n: nat)
    requires Includes(line, QuotedName(e)) && DOUBLE_QUOTE !in e.packageName
    ensures n == k + |e.packageName| + 1 < |line| && line[k] == DOUBLE_QUOTE && line[n] == DOUBLE_QUOTE
    ensures line[k + 1..n] == e.packageName
  {
    k := IndexOf(line, QuotedName(e), 0);
    n := k + |e.packageName| + 1;
    var p := line[k..k + |QuotedName(e)|];
    assert p == QuotedName(e);
    assert p[0] == line[k] && p[|e.packageName| + 1] == line[n];
    assert forall j :: 0 <= j < |e.packageName| ==> p[j + 1] == e.packageName[j] && p[j + 1] == line[k + 1 + j];
    assert line[k + 1..n] == e.packageName;
  }

  /**
   * A removal leaves the lines of every other entry: a list line unless it has the identifier, and an import line
   * unless it names the package.
   */
  lemma OtherEntriesStay(content: Text, e: Entry, o: Entry, kind: ConfigKind, after: Text, i: nat, indent: Text)
    requires ValidEntry(e) && ValidEntry(o) && Blank(indent) && i < |Lines(content)|
    requires DOUBLE_QUOTE !in e.packageName && DOUBLE_QUOTE !in o.packageName
    requires Remove(content, e, kind) == Edited(after)
    requires (Lines(content)[i] == ListLine(indent, o) && o.identifier != e.identifier)
             || (Lines(content)[i] == ImportLine(indent, o, kind) && o.packageName != e.packageName)
    ensures Lines(content)[i] in Lines(after)
  {
    hide Lines, ListLine, ImportLine, IsListLine, Includes, Kept, Rank;
    var (imports, list) := Regions(content, kind).value;
    var line := Lines(content)[i];
    LinesAfterRemoval(content, e, kind, after);
    if line == ListLine(indent, o) && o.identifier != e.identifier {
      ListLineOf(indent, o, e);
      ListIsNoImport(indent, o, e);
    } else {
      ImportLineOf(indent, o, kind, e);
      ImportIsNoList(indent, o, kind, e);
    }
    KeptAtRank(Lines(content), Drops(Lines(content), imports, list, e), i);
  }

  lemma ListIsNoImport(indent: Text, o: Entry, e: Entry)
    requires ValidEntry(o) && ValidEntry(e) && Blank(indent) && DOUBLE_QUOTE !in e.packageName
    ensures !IsImportLine(ListLine(indent, o), e)
  {
    hide SkipSpaces, MatchesAt, Includes;
    var line := ListLine(indent, o);
    forall k | 0 <= k < |line| ensures line[k] != DOUBLE_QUOTE {
      if k < |indent| {
        assert Space(indent[k]);
      } else if k < |indent| + |o.identifier| {
        assert line[k] == o.identifier[k - |indent|] && Alphanumeric(o.identifier[k - |indent|]);
      }
    }
    if IsImportLine(line, e) {
      var k, n := FindName(line, e);
    }
  }
}
