/** Text put after a complete configuration leaves the scan of the old text as it was. */
module TomlExtend {
  import opened Common
  import opened Utf8
  import opened TomlScan

  // t is s, a newline, and anything more.
  predicate Extends(s: Text, t: Text) {
    |s| < |t| && t[..|s|] == s && t[|s|] == NEWLINE
  }

  lemma SameUnit(s: Text, t: Text, i: nat, u: Unit)
    requires Extends(s, t) && i <= |s| && u != NEWLINE
    ensures Is(t, i, u) == Is(s, i, u)
    ensures i < |s| ==> t[i] == s[i]
  {
    assert i < |s| ==> t[i] == t[..|s|][i];
  }

  lemma {:induction false} RunsExtend(s: Text, t: Text, i: nat)
    requires Extends(s, t) && i <= |s|
    ensures SkipBlank(t, i) == SkipBlank(s, i)
    ensures SkipBare(t, i) == SkipBare(s, i)
    ensures LineEnd(t, i) == LineEnd(s, i)
    decreases |s| - i
  {
    SameUnit(s, t, i, HASH);
    if i < |s| {
      RunsExtend(s, t, i + 1);
    }
  }

  lemma ClosesExtends(s: Text, t: Text, i: nat, quote: Unit, multiline: bool)
    requires Extends(s, t) && i <= |s| && quote != NEWLINE
    ensures Closes(t, i, quote, multiline) == Closes(s, i, quote, multiline)
  {
    SameUnit(s, t, i, quote);
    if i + 1 <= |s| {
      SameUnit(s, t, i + 1, quote);
    }
    if i + 2 <= |s| {
      SameUnit(s, t, i + 2, quote);
    }
  }

  lemma {:induction false} FindCloseExtends(s: Text, t: Text, j: nat, quote: Unit, multiline: bool)
    requires Extends(s, t) && quote != NEWLINE && FindClose(s, j, quote, multiline).Some?
    ensures FindClose(t, j, quote, multiline) == FindClose(s, j, quote, multiline)
    decreases |s| - j
  {
    ClosesExtends(s, t, j, quote, multiline);
    SameUnit(s, t, j, quote);
    if !Closes(s, j, quote, multiline) {
      FindCloseExtends(s, t, if quote == QUOTE && s[j] == BACKSLASH then j + 2 else j + 1, quote, multiline);
    }
  }

  lemma {:induction false} SkipQuotesExtends(s: Text, t: Text, j: nat, quote: Unit, most: nat)
    requires Extends(s, t) && quote != NEWLINE && j <= |s|
    ensures SkipQuotes(t, j, quote, most) == SkipQuotes(s, j, quote, most)
    decreases most
  {
    SameUnit(s, t, j, quote);
    if most > 0 && Is(s, j, quote) {
      SkipQuotesExtends(s, t, j + 1, quote, most - 1);
    }
  }

  lemma ReadStringExtends(s: Text, t: Text, i: nat)
    requires Extends(s, t) && AtQuote(s, i) && ReadString(s, i).Some?
    ensures AtQuote(t, i) && ReadString(t, i) == ReadString(s, i)
    ensures Triple(t, i, t[i]) == Triple(s, i, s[i])
  {
    var quote := s[i];
    SameUnit(s, t, i, quote);
    ClosesExtends(s, t, i, quote, true);
    var multiline := Triple(s, i, quote);
    var width := if multiline then 3 else 1;
    FindCloseExtends(s, t, i + width, quote, multiline);
    var j := FindClose(s, i + width, quote, multiline).value;
    SkipQuotesExtends(s, t, j + width, quote, 2);
    assert j < |s| && t[..|s|][i + width..j] == t[i + width..j];
  }

  lemma KeyPartExtends(s: Text, t: Text, i: nat)
    requires Extends(s, t) && i <= |s| && KeyPart(s, i).Some?
    ensures KeyPart(t, i) == KeyPart(s, i)
  {
    hide FindClose, SkipQuotes, Unescape;
    SameUnit(s, t, i, QUOTE);
    SameUnit(s, t, i, APOSTROPHE);
    if AtQuote(s, i) {
      ReadStringExtends(s, t, i);
    } else {
      RunsExtend(s, t, i);
      assert t[i..SkipBare(s, i)] == t[..|s|][i..SkipBare(s, i)];
    }
  }

  lemma {:induction false} KeyPathExtends(s: Text, t: Text, i: nat)
    requires Extends(s, t) && i <= |s| && KeyPath(s, i).Some?
    ensures KeyPath(t, i) == KeyPath(s, i)
    decreases |s| - i
  {
    hide KeyPart, SkipBlank;
    RunsExtend(s, t, i);
    KeyPartExtends(s, t, SkipBlank(s, i));
    var end := KeyPart(s, SkipBlank(s, i)).value.1;
    RunsExtend(s, t, end);
    var next := SkipBlank(s, end);
    SameUnit(s, t, next, DOT);
    if Is(s, next, DOT) {
      KeyPathExtends(s, t, next + 1);
    }
  }

  // A value that ran to the end of s now ends at the newline.
  predicate Onward(s: Text, at: nat, at': nat) {
    at' == at || (at == |s| && at' == |s| + 1)
  }

  lemma {:induction false} SkipValueExtends(s: Text, t: Text, i: nat, brackets: seq<Unit>)
    requires Extends(s, t) && i <= |s| && SkipValue(s, i, brackets).Some?
    ensures SkipValue(t, i, brackets).Some?
    ensures Onward(s, SkipValue(s, i, brackets).value, SkipValue(t, i, brackets).value)
    decreases |s| - i
  {
    hide ReadString;
    SameUnit(s, t, i, QUOTE);
    SameUnit(s, t, i, APOSTROPHE);
    if i == |s| {
    } else if AtQuote(s, i) {
      ReadStringExtends(s, t, i);
      SkipValueExtends(s, t, ReadString(s, i).value.1, brackets);
    } else if s[i] == HASH {
      RunsExtend(s, t, i + 1);
      SkipValueExtends(s, t, LineEnd(s, i + 1), brackets);
    } else if s[i] == NEWLINE && brackets == [] {
    } else if s[i] == OPEN || s[i] == OPEN_TABLE {
      SkipValueExtends(s, t, i + 1, brackets + [s[i]]);
    } else if s[i] == CLOSE || s[i] == CLOSE_TABLE {
      SkipValueExtends(s, t, i + 1, brackets[..|brackets| - 1]);
    } else {
      SkipValueExtends(s, t, i + 1, brackets);
    }
  }

  lemma HeaderExtends(s: Text, t: Text, i: nat)
    requires Extends(s, t) && i < |s| && Header(s, i).Some?
    ensures Header(t, i) == Header(s, i)
  {
    hide KeyPath;
    SameUnit(s, t, i + 1, OPEN);
    KeyPathExtends(s, t, if Is(s, i + 1, OPEN) then i + 2 else i + 1);
    var end := KeyPath(s, if Is(s, i + 1, OPEN) then i + 2 else i + 1).value.1;
    SameUnit(s, t, end, CLOSE);
    SameUnit(s, t, end + 1, CLOSE);
  }

  // Two spans the old text cannot tell apart: they agree, or the old text has none and the new one lies after it.
  predicate SameSpan(s: Text, old': Option<Span>, new': Option<Span>) {
    old' == new' || (old'.None? && new'.Some? && new'.value.start >= |s|)
  }

  predicate Continues(s: Text, turn: Turn, turn': Turn) {
    turn'.Next? &&
    match turn
    case Next(at, table, found) => turn'.table == table && turn'.found == found && Onward(s, at, turn'.at)
    case End(found) => turn'.found == found && turn'.at == |s| + 1
    case _ => false
  }

  lemma EntryExtends(s: Text, t: Text, i: nat, server: Text, m: Option<Span>, m': Option<Span>,
                     table: seq<Text>, found: bool)
    requires Extends(s, t) && i < |s| && SameSpan(s, m, m')
    requires Entry(s, i, server, m, table, found).Next?
    ensures Continues(s, Entry(s, i, server, m, table, found), Entry(t, i, server, m', table, found))
  {
    hide Header, KeyPath, SkipValue, Conflicts;
    SameUnit(s, t, i, OPEN);
    if s[i] == OPEN {
      HeaderExtends(s, t, i);
    } else {
      KeyPathExtends(s, t, i);
      var end := KeyPath(s, i).value.1;
      SameUnit(s, t, end, EQUALS);
      SkipValueExtends(s, t, end + 1, []);
    }
  }

  lemma StepExtends(s: Text, t: Text, i: nat, server: Text, m: Option<Span>, m': Option<Span>,
                    table: seq<Text>, found: bool)
    requires Extends(s, t) && i < |s| && SameSpan(s, m, m')
    requires Step(s, i, server, m, table, found).Next? || Step(s, i, server, m, table, found).End?
    ensures Step(s, i, server, m, table, found).Next? ==>
      Continues(s, Step(s, i, server, m, table, found), Step(t, i, server, m', table, found))
    ensures Step(s, i, server, m, table, found).End? ==>
      Step(t, i, server, m', table, found) == Next(|s| + 1, table, Step(s, i, server, m, table, found).found)
  {
    hide Entry, SkipBlank, LineEnd;
    RunsExtend(s, t, i);
    var first := SkipBlank(s, i);
    SameUnit(s, t, first, HASH);
    RunsExtend(s, t, first);
    var comment := Is(s, first, HASH);
    var at := if comment then LineEnd(s, first) else first;
    SameUnit(s, t, at, HASH);
    if at < |s| && s[at] != NEWLINE {
      EntryExtends(s, t, at, server, m, m', table, found);
    }
  }

  /**
   * When the old text scans clear, the scan of the longer text reaches its new part at the head of a
   * line, in a table and with a marker count that the old text alone decides.
   */
  lemma {:induction false} ScanExtends(s: Text, t: Text, i: nat, server: Text, m: Option<Span>, m': Option<Span>,
                                       table: seq<Text>, found: bool)
    returns (table': seq<Text>, found': bool)
    requires Extends(s, t) && i <= |s| && SameSpan(s, m, m')
    requires Scan(s, i, server, m, table, found) == Clear
    ensures Scan(t, i, server, m', table, found) == Scan(t, |s| + 1, server, m', table', found')
    ensures m.Some? ==> found'
    decreases |s| - i
  {
    hide Step;
    if i == |s| {
      ScanNewline(t, i, server, m', table, found);
      table', found' := table, found;
    } else {
      StepExtends(s, t, i, server, m, m', table, found);
      match Step(s, i, server, m, table, found)
      case End(found1) =>
        table', found' := table, found1;
      case Next(at, table1, found1) =>
        table', found' := ScanExtends(s, t, at, server, m, m', table1, found1);
        ScanNewline(t, |s|, server, m', table1, found1);
        if at == |s| {
          table', found' := table1, found1;
        }
    }
  }
}
