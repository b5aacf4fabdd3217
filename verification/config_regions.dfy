/** Exactly where the two regions of a configuration file are, and which lines a removal takes for its entry. */
module ConfigRegions {
  import opened Common
  import opened Utf8
  import opened Ascii
  import opened TextSearch
  import opened Whitespace
  import opened ConfigEditor
  import opened ConfigTheorems

  // The region from the first line with the opening marker to the first later line with the closing one, with the
  // white space the first line begins with.
  predicate Encloses(lines: seq<Text>, span: Span, opening: Text, closing: Text) {
    && span.start < span.end < |lines|
    && Includes(lines[span.start], opening) && (forall i :: 0 <= i < span.start ==> !Includes(lines[i], opening))
    && Includes(lines[span.end], closing)
    && (forall i :: span.start < i < span.end ==> !Includes(lines[i], closing))
    && Indents(span.indent, lines[span.start])
  }

  predicate Indents(indent: Text, line: Text) {
    indent <= line && Blank(indent) && (indent != line ==> !Space(line[|indent|]))
  }

  lemma {:induction false} SpacesSkipped(t: Text, i: nat)
    requires i <= |t|
    ensures SkipSpaces(t, i) < |t| ==> !Space(t[SkipSpaces(t, i)])
    decreases |t| - i
  {
    if i < |t| && Space(t[i]) {
      SpacesSkipped(t, i + 1);
    }
  }

  lemma IndentExactly(line: Text, indent: Text)
    ensures Indents(indent, line) <==> indent == line[..SkipSpaces(line, 0)]
  {
    var n := SkipSpaces(line, 0);
    SpacesSkipped(line, 0);
    assert forall k :: 0 <= k < n ==> line[..n][k] == line[k];
    if Indents(indent, line) {
      forall k | 0 <= k < |indent| ensures Space(line[k]) {
        assert indent[k] == line[k];
      }
      assert indent == line[..|indent|];
    }
  }

  /** The search finds exactly the region that is there. */
  lemma SpanExactly(lines: seq<Text>, opening: Text, closing: Text, span: Span)
    ensures FindSpan(lines, opening, closing) == Some(span) <==> Encloses(lines, span, opening, closing)
  {
    hide Includes, SkipSpaces, Indents;
    if span.start < |lines| {
      IndentExactly(lines[span.start], span.indent);
    }
    var first := FirstLine(lines, opening, 0);
    if first.Some? {
      IndentExactly(lines[first.value], lines[first.value][..SkipSpaces(lines[first.value], 0)]);
    }
    if Encloses(lines, span, opening, closing) {
      assert first == Some(span.start);
      assert FirstLine(lines, closing, span.start + 1) == Some(span.end);
    }
  }

  /**
   * Both regions are found exactly when both are there: a missing marker, or a closing one before its opening one,
   * refuses the file.
   */
  lemma RegionsExactly(content: Text, kind: ConfigKind, imports: Span, list: Span)
    ensures Regions(content, kind) == Some((imports, list)) <==>
      && Encloses(Lines(content), imports, MarkerOf(kind, IMPORTS_START), MarkerOf(kind, IMPORTS_END))
      && Encloses(Lines(content), list, MarkerOf(kind, LIST_START), MarkerOf(kind, LIST_END))
  {
    hide FindSpan, MarkerOf, Includes, Indents, Split, Join, IndexOf;
    SpanExactly(Lines(content), MarkerOf(kind, IMPORTS_START), MarkerOf(kind, IMPORTS_END), imports);
    SpanExactly(Lines(content), MarkerOf(kind, LIST_START), MarkerOf(kind, LIST_END), list);
    JoinSplit(content, NEWLINE);
    forall i, marker | 0 <= i < |Lines(content)| && Includes(Lines(content)[i], marker)
      ensures Includes(content, marker)
    {
      JoinIncludes(Lines(content), NEWLINE, i, marker);
    }
  }

  // ---- the lines of an entry ----

  // White space, the identifier, and white space with at most one comma in it.
  ghost predicate ListShape(line: Text, identifier: Text) {
    exists a: Text, b: Text, c: Text ::
      Blank(a) && Blank(b) && Blank(c)
      && (line == a + identifier + b + c || line == a + identifier + b + [COMMA] + c)
  }

  // White space, the word, and white space, with the quoted name anywhere in the line.
  ghost predicate ImportShape(line: Text, name: Text) {
    && (exists a: Text, u: Unit, rest: Text :: Blank(a) && Space(u) && line == a + Lit("import") + [u] + rest)
    && Includes(line, [DOUBLE_QUOTE] + (name + [DOUBLE_QUOTE]))
  }

  lemma SkipTo(line: Text, i: nat)
    requires i <= |line|
    ensures SkipSpaces(line, i) <= |line| && Blank(line[i..SkipSpaces(line, i)])
  {
  }

  lemma Cut(line: Text, i: nat, k: nat, j: nat)
    requires i <= k <= j <= |line|
    ensures line == line[0..i] + line[i..k] + line[k..j] + line[j..]
    ensures j < |line| ==> line == line[0..i] + line[i..k] + line[k..j] + [line[j]] + line[j + 1..]
  {
  }

  // The three positions the pattern matches at.
  predicate ListLineAt(line: Text, identifier: Text, i: nat, k: nat, j: nat) {
    && i == SkipSpaces(line, 0) && k == i + |identifier| <= |line| && line[i..k] == identifier
    && j == SkipSpaces(line, k) <= |line|
    && (j == |line| || (line[j] == COMMA && SkipSpaces(line, j + 1) == |line|))
  }

  lemma ListLinePositions(line: Text, e: Entry)
    ensures IsListLine(line, e) <==> exists i, k, j :: ListLineAt(line, e.identifier, i, k, j)
  {
    hide SkipSpaces;
    if IsListLine(line, e) {
      var i := SkipSpaces(line, 0);
      var k := i + |e.identifier|;
      assert ListLineAt(line, e.identifier, i, k, SkipSpaces(line, k));
    }
  }

  lemma ListLineHasShape(line: Text, identifier: Text, i: nat, k: nat, j: nat)
    requires ListLineAt(line, identifier, i, k, j)
    ensures ListShape(line, identifier)
  {
    hide SkipSpaces, Blank;
    SkipTo(line, 0);
    SkipTo(line, k);
    Cut(line, i, k, j);
    var (a, b) := (line[0..i], line[k..j]);
    if j == |line| {
      var c := line[j..];
      assert Blank(c) by {
        NothingIsBlank();
      }
      assert line == a + identifier + b + c;
    } else {
      SkipTo(line, j + 1);
      var c := line[j + 1..];
      assert c == line[j + 1..|line|];
      assert line == a + identifier + b + [COMMA] + c;
    }
  }

  lemma NothingIsBlank()
    ensures Blank([])
  {
  }

  lemma ShapeIsListLine(line: Text, e: Entry, a: Text, b: Text, tail: Text, c: Text)
    requires ValidIdentifier(e) && Blank(a) && Blank(b) && Blank(c) && (tail == c || tail == [COMMA] + c)
    requires line == a + e.identifier + b + tail
    ensures exists i, k, j :: ListLineAt(line, e.identifier, i, k, j)
  {
    hide SkipSpaces, Blank, Space;
    var (i, k) := (|a|, |a| + |e.identifier|);
    Pieces(line, a, e.identifier, b, tail);
    assert line[i..k] == e.identifier && line[i] == e.identifier[0];
    AllBlank(line, 0, i, a);
    AlphanumericUnit(line[i]);
    SkipOver(line, 0, i);
    AllBlank(line, k, k + |b|, b);
    if tail == c {
      AllBlank(line, k + |b|, |line|, c);
      SkipOver(line, k, |line|);
      assert ListLineAt(line, e.identifier, i, k, |line|);
    } else {
      CommaThenBlank(line, k, k + |b|, c);
      assert ListLineAt(line, e.identifier, i, k, k + |b|);
    }
  }

  lemma AlphanumericUnit(u: Unit)
    requires Alphanumeric(u)
    ensures !Space(u)
  {
  }

  lemma CommaThenBlank(line: Text, k: nat, j: nat, c: Text)
    requires k <= j <= |line| && line[j..] == [COMMA] + c && Blank(c) && forall n :: k <= n < j ==> Space(line[n])
    ensures j < |line| && line[j] == COMMA && SkipSpaces(line, k) == j && SkipSpaces(line, j + 1) == |line|
  {
    hide SkipSpaces, Blank;
    assert line[j] == line[j..][0] && line[j + 1..|line|] == line[j..][1..] == c;
    SkipOver(line, k, j);
    AllBlank(line, j + 1, |line|, c);
    SkipOver(line, j + 1, |line|);
  }

  lemma Pieces(line: Text, a: Text, id: Text, b: Text, tail: Text)
    requires line == a + id + b + tail
    ensures line[0..|a|] == a && line[|a| + |id|..|a| + |id| + |b|] == b && line[|a| + |id| + |b|..] == tail
  {
  }

  lemma AllBlank(line: Text, i: nat, j: nat, b: Text)
    requires i <= j <= |line| && line[i..j] == b && Blank(b)
    ensures forall k :: i <= k < j ==> Space(line[k])
  {
    forall k | i <= k < j ensures Space(line[k]) {
      assert b[k - i] == line[k];
    }
  }

  /** A list line is taken for an entry exactly when it holds its identifier, blanks, and at most one comma. */
  lemma ListLineExactly(line: Text, e: Entry)
    requires ValidIdentifier(e)
    ensures IsListLine(line, e) <==> ListShape(line, e.identifier)
  {
    hide IsListLine, Blank, ValidIdentifier, ListLineAt;
    ListLinePositions(line, e);
    if i, k, j :| ListLineAt(line, e.identifier, i, k, j) {
      ListLineHasShape(line, e.identifier, i, k, j);
    }
    if ListShape(line, e.identifier) {
      var a: Text, b: Text, c: Text :|
        Blank(a) && Blank(b) && Blank(c)
        && (line == a + e.identifier + b + c || line == a + e.identifier + b + [COMMA] + c);
      assert a + e.identifier + b + [COMMA] + c == a + e.identifier + b + ([COMMA] + c);
      ShapeIsListLine(line, e, a, b, if line == a + e.identifier + b + c then c else [COMMA] + c, c);
    }
  }

  lemma ImportLineBegins(line: Text, a: Text, u: Unit, rest: Text)
    requires Blank(a) && Space(u) && line == a + Lit("import") + [u] + rest
    ensures var i := SkipSpaces(line, 0); MatchesAt(line, Lit("import"), i) && i + 6 < |line| && Space(line[i + 6])
  {
    hide Space, Lit, SkipSpaces, Blank;
    var word := Lit("import");
    WordUnits();
    Pieces(line, [], a, word, [u] + rest);
    AllBlank(line, 0, |a|, a);
    assert line[|a|] == word[0] && line[|a| + 6] == u && line[|a|..|a| + 6] == word;
    SkipOver(line, 0, |a|);
  }

  lemma WordUnits()
    ensures |Lit("import")| == 6 && Lit("import")[0] == 'i' as int && !Space('i' as int)
  {
  }

  /** An import line is taken for an entry exactly when it begins with the word and names the package in quotes. */
  lemma ImportLineExactly(line: Text, e: Entry)
    ensures IsImportLine(line, e) <==> ImportShape(line, e.packageName)
  {
    hide SkipSpaces, Includes, Space, Lit, Blank;
    var i := SkipSpaces(line, 0);
    var word := Lit("import");
    WordUnits();
    SkipTo(line, 0);
    if MatchesAt(line, word, i) && i + 6 < |line| && Space(line[i + 6]) {
      assert line == line[0..i] + word + [line[i + 6]] + line[i + 7..];
    }
    forall a: Text, u: Unit, rest: Text | Blank(a) && Space(u) && line == a + word + [u] + rest
      ensures MatchesAt(line, word, i) && i + 6 < |line| && Space(line[i + 6])
    {
      ImportLineBegins(line, a, u, rest);
    }
  }
}
