/** Parsing a rendered catalog gives the catalog back, with documents and units in order. */
module GettextRoundTrip {
  import opened Common
  import opened Utf8
  import opened GettextContext
  import opened GettextCatalog
  import opened Whitespace
  import InlineCodec
  import InlineRoundTrip

  type Locales = (Text, Text)

  // An inline unit keeps the plain text of both sides, over parts the codec can carry.
  predicate FaithfulUnit(u: Entry) {
    IsInline(u) ==>
      u.sourceInline.Some? && u.targetInline.Some? &&
      FaithfulSide(u.sourceInline.value, u.source) && FaithfulSide(u.targetInline.value, u.target)
  }

  predicate FaithfulSide(parts: seq<Part>, text: Text) {
    parts != [] && InlineRoundTrip.ValidParts(parts) && text == PlainText(parts)
  }

  predicate DistinctRoutes(c: Catalog) {
    forall i, j :: 0 <= i < j < |c| ==> c[i].route != c[j].route
  }

  predicate FaithfulDocument(d: Document) {
    d.units != [] && forall k :: 0 <= k < |d.units| ==> FaithfulUnit(d.units[k])
  }

  function UnitCount(c: Catalog): nat {
    if c == [] then 0 else |c[0].units| + UnitCount(c[1..])
  }

  // What the code's documentation asks of a catalog, and the size the parser takes.
  predicate Canonical(c: Catalog) {
    && DistinctRoutes(c)
    && (forall i :: 0 <= i < |c| ==> FaithfulDocument(c[i]))
    && (forall i :: 0 <= i < |c| ==> PlainLocale(c[i].sourceLocale) && PlainLocale(c[i].targetLocale))
    && UnitCount(c) <= MAX_UNITS
  }

  predicate PlainLocale(l: Text) { l != [] && Trim(l) == l }

  // ---- one unit ----

  lemma RenderedIsNotEmpty(parts: seq<Part>)
    requires parts != []
    ensures InlineCodec.Render(parts) != []
  {
    assert InlineCodec.RenderPart(parts[0])[0] == InlineCodec.BRACE;
  }

  lemma UnitBack(read: Reader, route: Text, u: Entry)
    requires Faithful(read) && FaithfulUnit(u) && UnitContext(route, u).Ok?
    ensures IsInline(u) ==> u.sourceInline.Some? && u.targetInline.Some?
    ensures var context := UnitContext(route, u).value;
      context != [] && ParseContext(read, context) == Some(DescriptorOf(route, u))
      && ParseUnit(UnitMessage(context, u), context, DescriptorOf(route, u)) == Ok(u)
  {
    hide InlineCodec.Render, InlineCodec.Parse, ParseContext;
    ContextRoundTrip(read, DescriptorOf(route, u));
    if IsInline(u) {
      InlineRoundTrip.RoundTrip(u.sourceInline.value);
      InlineRoundTrip.RoundTrip(u.targetInline.value);
      RenderedIsNotEmpty(u.targetInline.value);
    }
  }

  // ---- grouping by route ----

  predicate NoRoute(docs: Catalog, route: Text) {
    forall i :: 0 <= i < |docs| ==> docs[i].route != route
  }

  lemma {:induction false} AddNew(docs: Catalog, route: Text, l: Locales, u: Entry)
    requires NoRoute(docs, route)
    ensures AddUnit(docs, route, l, u) == docs + [Document(route, l.0, l.1, [u])]
  {
    if docs != [] {
      AddNew(docs[1..], route, l, u);
    }
  }

  lemma {:induction false} AddLast(docs: Catalog, d: Document, l: Locales, u: Entry)
    requires NoRoute(docs, d.route)
    ensures AddUnit(docs + [d], d.route, l, u) == docs + [d.(units := d.units + [u])]
  {
    if docs != [] {
      assert (docs + [d])[1..] == docs[1..] + [d];
      AddLast(docs[1..], d, l, u);
    }
  }

  // The documents with one more at the end, once it has a unit.
  function Opened(docs: Catalog, d: Document): Catalog {
    if d.units == [] then docs else docs + [d]
  }

  lemma OpenedGrows(docs: Catalog, d: Document, l: Locales, u: Entry)
    requires NoRoute(docs, d.route) && l == (d.sourceLocale, d.targetLocale)
    ensures AddUnit(Opened(docs, d), d.route, l, u) == Opened(docs, d.(units := d.units + [u]))
  {
    hide AddUnit;
    if d.units == [] {
      AddNew(docs, d.route, l, u);
      assert d.units + [u] == [u];
    } else {
      AddLast(docs, d, l, u);
    }
  }

  // ---- the rows of a document, read back ----

  lemma ParseOneRow(read: Reader, g: Group, d: Descriptor, u: Entry, rest: seq<Group>, l: Locales, at: Progress)
    requires g.context != [] && ParseContext(read, g.context) == Some(d) && |g.messages| == 1
    requires ParseUnit(g.messages[0], g.context, d) == Ok(u) && at.1 < MAX_UNITS
    ensures ParseGroups(read, [g] + rest, l, at) ==
      ParseGroups(read, rest, l, (AddUnit(at.0, d.route, l, u), at.1 + 1))
  {
    hide ParseUnit, ParseContext, AddUnit;
    assert ([g] + rest)[1..] == rest;
    assert g.messages[1..] == [];
    var next := (AddUnit(at.0, d.route, l, u), at.1 + 1);
    assert ParseMessages(g.messages[1..], g.context, d, l, next) == Ok(next);
    assert ParseMessages(g.messages, g.context, d, l, at) == Ok(next);
  }

  lemma RenderFirst(route: Text, units: seq<Entry>, groups: seq<Group>) returns (row: Group)
    requires units != [] && RenderUnits(route, units, groups).Ok?
    ensures UnitContext(route, units[0]).Ok?
    ensures var context := UnitContext(route, units[0]).value;
      row == Group(context, [UnitMessage(context, units[0])])
    ensures RenderUnits(route, units, groups) == RenderUnits(route, units[1..], groups + [row])
  {
    hide UnitContext, UnitMessage, HasContext;
    var context := UnitContext(route, units[0]).value;
    row := Group(context, [UnitMessage(context, units[0])]);
  }

  // The parser reads the row of one unit into the open document.
  lemma RowIsRead(read: Reader, d: Document, u: Entry, row: Group, more: seq<Group>, docs: Catalog, n: nat)
    requires Faithful(read) && FaithfulUnit(u) && UnitContext(d.route, u).Ok?
    requires var context := UnitContext(d.route, u).value; row == Group(context, [UnitMessage(context, u)])
    requires NoRoute(docs, d.route) && n < MAX_UNITS
    ensures var l := (d.sourceLocale, d.targetLocale);
      ParseGroups(read, [row] + more, l, (Opened(docs, d), n)) ==
      ParseGroups(read, more, l, (Opened(docs, d.(units := d.units + [u])), n + 1))
  {
    hide ParseUnit, ParseContext, AddUnit, UnitContext, UnitMessage, FaithfulUnit, ParseGroups, Opened, Faithful,
      NoRoute;
    var l := (d.sourceLocale, d.targetLocale);
    UnitBack(read, d.route, u);
    OpenedGrows(docs, d, l, u);
    ParseOneRow(read, row, DescriptorOf(d.route, u), u, more, l, (Opened(docs, d), n));
  }

  lemma Regrouped<T>(a: seq<T>, x: T, b: seq<T>, c: seq<T>)
    ensures ([x] + b) + c == [x] + (b + c) && a + ([x] + b) == (a + [x]) + b
  {
  }

  // The units already read of the document d stand in d.units.
  lemma {:induction false} ParseRows(read: Reader, d: Document, units: seq<Entry>, groups: seq<Group>,
                                     rest: seq<Group>, docs: Catalog, n: nat)
    returns (rows: seq<Group>)
    requires Faithful(read) && (forall k :: 0 <= k < |units| ==> FaithfulUnit(units[k]))
    requires NoRoute(docs, d.route) && n + |units| <= MAX_UNITS
    requires RenderUnits(d.route, units, groups).Ok?
    ensures RenderUnits(d.route, units, groups).value == groups + rows
    ensures var l := (d.sourceLocale, d.targetLocale);
      ParseGroups(read, rows + rest, l, (Opened(docs, d), n)) ==
      ParseGroups(read, rest, l, (Opened(docs, d.(units := d.units + units)), n + |units|))
    decreases |units|
  {
    hide UnitContext, UnitMessage, FaithfulUnit, ParseGroups, Opened, HasContext, RenderUnits, NoRoute, Faithful;
    if units == [] {
      rows := [];
      NoUnits(d.route, groups);
      assert rows + rest == rest && groups + rows == groups && d.(units := d.units + units) == d;
    } else {
      var row := RenderFirst(d.route, units, groups);
      var d1 := d.(units := d.units + [units[0]]);
      var tail := ParseRows(read, d1, units[1..], groups + [row], rest, docs, n + 1);
      rows := [row] + tail;
      Regrouped(groups, row, tail, rest);
      Regrouped(d.units, units[0], units[1..], []);
      assert [units[0]] + units[1..] == units;
      RowIsRead(read, d, units[0], row, tail + rest, docs, n);
    }
  }

  lemma NoUnits(route: Text, groups: seq<Group>)
    ensures RenderUnits(route, [], groups) == Ok(groups)
  {
  }

  lemma {:induction false} ParseDocuments(read: Reader, done: Catalog, c: Catalog, groups: seq<Group>, l: Locales,
                                          n: nat)
    returns (rows: seq<Group>)
    requires Faithful(read) && DistinctRoutes(done + c) && n + UnitCount(c) <= MAX_UNITS
    requires forall i :: 0 <= i < |c| ==> FaithfulDocument(c[i]) && (c[i].sourceLocale, c[i].targetLocale) == l
    requires RenderDocuments(c, groups).Ok?
    ensures RenderDocuments(c, groups).value == groups + rows
    ensures ParseGroups(read, rows, l, (done, n)) == Ok((done + c, n + UnitCount(c)))
    decreases |c|
  {
    hide RenderUnits, FaithfulUnit;
    if c == [] {
      rows := [];
      assert done + c == done && groups + [] == groups;
    } else {
      hide ParseGroups;
      var first := c[0].(units := []);
      assert forall i :: 0 <= i < |done| ==> (done + c)[i] == done[i];
      assert (done + c)[|done|] == c[0];
      var more := RenderUnits(c[0].route, c[0].units, groups).value;
      assert done + [c[0]] + c[1..] == done + c;
      var tail := ParseDocuments(read, done + [c[0]], c[1..], more, l, n + |c[0].units|);
      var head := ParseRows(read, first, c[0].units, groups, tail, done, n);
      assert first.units + c[0].units == c[0].units;
      rows := head + tail;
      assert groups + head + tail == groups + rows;
    }
  }

  lemma HeadersBack(source: Text, target: Text)
    ensures var headers := RenderHeaders(source, target);
      && Header(headers, SOURCE_LANGUAGE) == Trim(source) && Header(headers, LANGUAGE) == Trim(target)
      && Header(headers, CATALOG_VERSION) == Trim(VERSION)
  {
    hide Trim, Loose;
    var headers := RenderHeaders(source, target);
    assert SOURCE_LANGUAGE[11] != CATALOG_VERSION[11];
    ExactAt(headers, LANGUAGE, 4);
    ExactAt(headers, SOURCE_LANGUAGE, 5);
    ExactAt(headers, CATALOG_VERSION, 6);
  }

  lemma {:induction false} ExactAt(headers: seq<(Text, Text)>, name: Text, i: nat)
    requires i < |headers| && headers[i].0 == name && forall j :: 0 <= j < i ==> headers[j].0 != name
    ensures Exact(headers, name) == Some(headers[i].1)
  {
    if i > 0 {
      ExactAt(headers[1..], name, i - 1);
    }
  }

  lemma CanonicalRoundTrip(read: Reader, c: Catalog)
    requires Faithful(read) && RenderCatalog(c).Ok? && Canonical(c)
    ensures ParseCatalog(read, RenderCatalog(c).value) == Ok(c)
  {
    hide RenderDocuments, FaithfulDocument, ParseMessages, ParseContext, Header, RenderHeaders;
    var l := (c[0].sourceLocale, c[0].targetLocale);
    HeadersBack(l.0, l.1);
    assert [] + c == c;
    var rows := ParseDocuments(read, [], c, [], l, 0);
    assert [] + rows == rows;
    var opening := Group([], []);
    assert ([opening] + rows)[1..] == rows && ([opening] + rows)[0] == opening;
    VersionIsPlain();
  }

  lemma VersionIsPlain()
    ensures Trim(VERSION) == VERSION
  {
    assert VERSION[0] == '1' as int;
  }

  // ---- everything the parser returns is canonical ----

  predicate ParsedSoFar(docs: Catalog, l: Locales) {
    && DistinctRoutes(docs)
    && (forall i :: 0 <= i < |docs| ==> FaithfulDocument(docs[i]))
    && (forall i :: 0 <= i < |docs| ==> (docs[i].sourceLocale, docs[i].targetLocale) == l)
  }

  lemma ParsedUnitIsFaithful(m: Message, context: Text, d: Descriptor)
    requires ParseUnit(m, context, d).Ok?
    ensures FaithfulUnit(ParseUnit(m, context, d).value)
  {
    hide InlineCodec.ParseFrom;
    if d.isInline {
      InlineRoundTrip.ParsedAreValid(m.msgid, 0);
      if m.msgstr[0] != [] {
        InlineRoundTrip.ParsedAreValid(m.msgstr[0], 0);
      }
    }
  }

  lemma {:induction false} AddKeepsRoutes(docs: Catalog, route: Text, l: Locales, u: Entry, other: Text)
    requires NoRoute(docs, other) && route != other
    ensures NoRoute(AddUnit(docs, route, l, u), other)
  {
    if docs != [] && docs[0].route != route {
      AddKeepsRoutes(docs[1..], route, l, u, other);
    }
  }

  lemma {:induction false} AddKeeps(docs: Catalog, route: Text, l: Locales, u: Entry)
    requires ParsedSoFar(docs, l) && FaithfulUnit(u)
    ensures ParsedSoFar(AddUnit(docs, route, l, u), l)
    ensures UnitCount(AddUnit(docs, route, l, u)) == UnitCount(docs) + 1
  {
    hide FaithfulUnit;
    var r := AddUnit(docs, route, l, u);
    if docs == [] {
      assert r[0].units == [u];
    } else if docs[0].route == route {
      assert r[1..] == docs[1..];
      assert forall i :: 1 <= i < |r| ==> r[i] == docs[i];
    } else {
      var rest := docs[1..];
      assert forall i :: 0 <= i < |rest| ==> rest[i] == docs[i + 1];
      AddKeeps(rest, route, l, u);
      AddKeepsRoutes(rest, route, l, u, docs[0].route);
      var tail := AddUnit(rest, route, l, u);
      assert r == [docs[0]] + tail && r[1..] == tail;
      assert forall i :: 1 <= i < |r| ==> r[i] == tail[i - 1];
    }
  }

  predicate Counted(at: Progress, l: Locales) {
    ParsedSoFar(at.0, l) && at.1 == UnitCount(at.0) <= MAX_UNITS
  }

  lemma {:induction false} ParseMessagesKeeps(ms: seq<Message>, context: Text, d: Descriptor, l: Locales, at: Progress)
    requires Counted(at, l) && ParseMessages(ms, context, d, l, at).Ok?
    ensures Counted(ParseMessages(ms, context, d, l, at).value, l)
    decreases |ms|
  {
    hide ParseUnit, AddUnit, ParsedSoFar, FaithfulUnit;
    if ms != [] {
      ParsedUnitIsFaithful(ms[0], context, d);
      var u := ParseUnit(ms[0], context, d).value;
      AddKeeps(at.0, d.route, l, u);
      ParseMessagesKeeps(ms[1..], context, d, l, (AddUnit(at.0, d.route, l, u), at.1 + 1));
    }
  }

  lemma {:induction false} ParseGroupsKeeps(read: Reader, groups: seq<Group>, l: Locales, at: Progress)
    requires Counted(at, l) && ParseGroups(read, groups, l, at).Ok?
    ensures Counted(ParseGroups(read, groups, l, at).value, l)
    decreases |groups|
  {
    hide ParseMessages, ParseContext, Counted;
    if groups != [] {
      if groups[0].context == [] {
        ParseGroupsKeeps(read, groups[1..], l, at);
      } else {
        var d := ParseContext(read, groups[0].context).value;
        ParseMessagesKeeps(groups[0].messages, groups[0].context, d, l, at);
        ParseGroupsKeeps(read, groups[1..], l, ParseMessages(groups[0].messages, groups[0].context, d, l, at).value);
      }
    }
  }

  lemma HeaderIsTrimmed(headers: seq<(Text, Text)>, name: Text)
    ensures Trim(Header(headers, name)) == Header(headers, name)
  {
    hide Exact, Loose;
  }

  /** Every catalog the parser returns is canonical, whatever table it was given. */
  lemma ParsedIsCanonical(read: Reader, t: Table)
    requires ParseCatalog(read, t).Ok?
    ensures Canonical(ParseCatalog(read, t).value)
  {
    hide ParseGroups, FaithfulDocument, Header, Trim;
    HeaderIsTrimmed(t.headers, SOURCE_LANGUAGE);
    HeaderIsTrimmed(t.headers, LANGUAGE);
    var l := (Header(t.headers, SOURCE_LANGUAGE), Header(t.headers, LANGUAGE));
    ParseGroupsKeeps(read, t.groups, l, ([], 0));
  }

  /** A rendered catalog parses back to itself exactly when it is canonical. */
  lemma CatalogRoundTrip(read: Reader, c: Catalog)
    requires Faithful(read) && RenderCatalog(c).Ok?
    ensures ParseCatalog(read, RenderCatalog(c).value) == Ok(c) <==> Canonical(c)
  {
    hide RenderCatalog, ParseCatalog, Canonical;
    if Canonical(c) {
      CanonicalRoundTrip(read, c);
    }
    if ParseCatalog(read, RenderCatalog(c).value) == Ok(c) {
      ParsedIsCanonical(read, RenderCatalog(c).value);
    }
  }
}
