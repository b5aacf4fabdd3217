/** What parsing a catalog means, message by message, and exactly which tables it refuses. */
module GettextLaws {
  import opened Common
  import opened Utf8
  import opened Ascii
  import opened Whitespace
  import opened GettextContext
  import opened GettextCatalog
  import InlineCodec

  type Part = InlineCodec.Part

  // ---- one message ----

  // The parts stand for the same places, in the same order.
  predicate SamePlaces(a: seq<Part>, b: seq<Part>) {
    && |a| == |b|
    && forall i :: 0 <= i < |a| ==>
         a[i].Group? == b[i].Group? && a[i].id == b[i].id && a[i].ctype == b[i].ctype
  }

  // A message the parser takes under a context.
  predicate GoodMessage(m: Message, context: Text, d: Descriptor) {
    && m.msgctxt == context && !m.plural && |m.msgstr| == 1
    && (d.isInline ==>
          InlineCodec.Parse(m.msgid).Ok? &&
          (m.msgstr[0] != [] ==>
             InlineCodec.Parse(m.msgstr[0]).Ok?
             && SamePlaces(InlineCodec.Parse(m.msgid).value, InlineCodec.Parse(m.msgstr[0]).value)))
  }

  // What a unit says of its message: a translation that is missing stays missing.
  predicate Says(u: Entry, m: Message, d: Descriptor)
    requires |m.msgstr| == 1
  {
    && u.id == d.unitId
    && (!d.isInline ==>
          u.source == m.msgid && u.target == m.msgstr[0] && u.sourceInline.None? && u.targetInline.None?)
    && (d.isInline ==>
          && u.sourceInline.Some? && u.targetInline.Some?
          && InlineCodec.Parse(m.msgid) == Ok(u.sourceInline.value)
          && SamePlaces(u.sourceInline.value, u.targetInline.value)
          && (if m.msgstr[0] == [] then Untranslated(u.targetInline.value)
              else InlineCodec.Parse(m.msgstr[0]) == Ok(u.targetInline.value))
          && u.source == Spoken(u.sourceInline.value) && u.target == Spoken(u.targetInline.value))
  }

  predicate Untranslated(parts: seq<Part>) {
    forall i :: 0 <= i < |parts| && parts[i].Group? ==> parts[i].text == []
  }

  // The text of the groups, with a newline for each placeholder.
  function Spoken(parts: seq<Part>): Text {
    if parts == [] then []
    else
      var last := parts[|parts| - 1];
      Spoken(parts[..|parts| - 1]) + match last case Group(_, _, text) => text case Placeholder(_, _) => [10]
  }

  lemma {:induction false} SpokenAppend(a: seq<Part>, b: seq<Part>)
    ensures Spoken(a + b) == Spoken(a) + Spoken(b)
  {
    if b == [] {
      assert a + b == a;
    } else {
      assert (a + b)[..|a + b| - 1] == a + b[..|b| - 1];
      SpokenAppend(a, b[..|b| - 1]);
    }
  }

  lemma {:induction false} PlainIsSpoken(parts: seq<Part>)
    ensures PlainText(parts) == Spoken(parts)
  {
    if parts != [] {
      PlainIsSpoken(parts[1..]);
      SpokenAppend([parts[0]], parts[1..]);
      assert [parts[0]] + parts[1..] == parts && [parts[0]][..0] == [];
    }
  }

  /** A message is taken exactly when it is good; the first reason to refuse it is reported; and what is read. */
  lemma MessageIsRead(m: Message, context: Text, d: Descriptor)
    ensures ParseUnit(m, context, d).Ok? <==> GoodMessage(m, context, d)
    ensures ParseUnit(m, context, d).Ok? ==> Says(ParseUnit(m, context, d).value, m, d)
    ensures m.msgctxt != context ==> ParseUnit(m, context, d) == Err(MismatchedContext)
    ensures m.msgctxt == context && (m.plural || |m.msgstr| != 1) ==> ParseUnit(m, context, d) == Err(Plural)
  {
    hide InlineCodec.Parse, PlainText, Spoken;
    if |m.msgstr| == 1 && d.isInline && InlineCodec.Parse(m.msgid).Ok? {
      var source := InlineCodec.Parse(m.msgid).value;
      PlainIsSpoken(source);
      PlainIsSpoken(Blanked(source));
      if InlineCodec.Parse(m.msgstr[0]).Ok? {
        PlainIsSpoken(InlineCodec.Parse(m.msgstr[0]).value);
      }
    }
  }

  // ---- filing ----

  // The units of a route.
  function UnitsOf(docs: Catalog, route: Text): seq<Entry> {
    if docs == [] then []
    else if docs[0].route == route then docs[0].units
    else UnitsOf(docs[1..], route)
  }

  lemma {:induction false} FiledUnderRoute(docs: Catalog, route: Text, l: (Text, Text), u: Entry, r: Text)
    ensures UnitsOf(AddUnit(docs, route, l, u), r) == UnitsOf(docs, r) + if r == route then [u] else []
  {
    if docs == [] {
      assert [] + [u] == [u];
    } else {
      FiledUnderRoute(docs[1..], route, l, u, r);
      assert docs[0].units + [] == docs[0].units && UnitsOf(docs[1..], r) + [] == UnitsOf(docs[1..], r);
      var x := docs[0].(units := docs[0].units + [u]);
      assert ([x] + docs[1..])[1..] == docs[1..];
      assert ([docs[0]] + AddUnit(docs[1..], route, l, u))[1..] == AddUnit(docs[1..], route, l, u);
    }
  }

  // ---- whole tables ----

  // The units read from the messages of one context.
  function Rows(ms: seq<Message>, context: Text, d: Descriptor): seq<Entry> {
    if ms == [] then []
    else
      (match ParseUnit(ms[0], context, d) case Ok(u) => [u] case Err(_) => []) + Rows(ms[1..], context, d)
  }

  predicate GoodMessages(ms: seq<Message>, context: Text, d: Descriptor) {
    forall i :: 0 <= i < |ms| ==> GoodMessage(ms[i], context, d)
  }

  // The units of one route are longer by the given ones, and those of no other route change.
  ghost predicate Grown(docs: Catalog, docs': Catalog, route: Text, more: seq<Entry>) {
    forall r :: UnitsOf(docs', r) == UnitsOf(docs, r) + (if r == route then more else [])
  }

  lemma {:induction false} MessagesAreRead(ms: seq<Message>, context: Text, d: Descriptor, l: (Text, Text),
                                           at: Progress)
    ensures var r := ParseMessages(ms, context, d, l, at);
      && (r.Ok? <==> GoodMessages(ms, context, d) && (ms == [] || at.1 + |ms| <= MAX_UNITS))
      && (r.Ok? ==> r.value.1 == at.1 + |ms|)
      && (r.Ok? ==> Grown(at.0, r.value.0, d.route, Rows(ms, context, d)))
    decreases |ms|
  {
    hide ParseUnit, GoodMessage, AddUnit, UnitsOf;
    if ms == [] {
      assert forall route :: UnitsOf(at.0, route) + [] == UnitsOf(at.0, route);
    } else {
      MessageIsRead(ms[0], context, d);
      if ParseUnit(ms[0], context, d).Ok? {
        var u := ParseUnit(ms[0], context, d).value;
        var next := (AddUnit(at.0, d.route, l, u), at.1 + 1);
        MessagesAreRead(ms[1..], context, d, l, next);
        assert GoodMessages(ms, context, d) <==> GoodMessages(ms[1..], context, d) by {
          assert forall i :: 0 < i < |ms| ==> ms[i] == ms[1..][i - 1];
        }
        forall route
          ensures UnitsOf(next.0, route) == UnitsOf(at.0, route) + if route == d.route then [u] else []
        {
          FiledUnderRoute(at.0, d.route, l, u, route);
        }
        assert Rows(ms, context, d) == [u] + Rows(ms[1..], context, d);
        Appended(at.0, d.route, u, Rows(ms[1..], context, d));
      }
    }
  }

  lemma Appended(docs: Catalog, route: Text, u: Entry, rest: seq<Entry>)
    ensures forall r :: UnitsOf(docs, r) + [] + [] == UnitsOf(docs, r) + []
    ensures UnitsOf(docs, route) + [u] + rest == UnitsOf(docs, route) + ([u] + rest)
  {
  }

  // A group of the table: the unscoped one may only hold the header entry.
  predicate GoodGroup(read: Reader, g: Group) {
    if g.context == [] then forall i :: 0 <= i < |g.messages| ==> g.messages[i].msgid == []
    else
      match ParseContext(read, g.context)
      case None => false
      case Some(d) => GoodMessages(g.messages, g.context, d)
  }

  // How many messages stand under a context.
  function Scoped(groups: seq<Group>): nat {
    if groups == [] then 0
    else (if groups[0].context == [] then 0 else |groups[0].messages|) + Scoped(groups[1..])
  }

  // The units of a route, group by group.
  function RowsOf(read: Reader, groups: seq<Group>, route: Text): seq<Entry> {
    if groups == [] then []
    else
      (if groups[0].context == [] then []
       else
         match ParseContext(read, groups[0].context)
         case Some(d) => if d.route == route then Rows(groups[0].messages, groups[0].context, d) else []
         case None => [])
      + RowsOf(read, groups[1..], route)
  }

  lemma Unscoped(ms: seq<Message>)
    ensures HasUnscoped(ms) <==> !forall i :: 0 <= i < |ms| ==> ms[i].msgid == []
  {
  }

  lemma {:induction false} GroupsAreRead(read: Reader, groups: seq<Group>, l: (Text, Text), at: Progress)
    requires at.1 <= MAX_UNITS
    ensures var r := ParseGroups(read, groups, l, at);
      && (r.Ok? <==> (forall g <- groups :: GoodGroup(read, g)) && at.1 + Scoped(groups) <= MAX_UNITS)
      && (r.Ok? ==> forall route :: UnitsOf(r.value.0, route) == UnitsOf(at.0, route) + RowsOf(read, groups, route))
    decreases |groups|
  {
    hide ParseMessages, ParseContext, HasUnscoped, GoodMessages, UnitsOf, Rows;
    if groups == [] {
      assert forall route :: UnitsOf(at.0, route) + [] == UnitsOf(at.0, route);
    } else {
      var (g, rest) := (groups[0], groups[1..]);
      AllGood(read, groups);
      Unscoped(g.messages);
      var next := at;
      if g.context != [] && ParseContext(read, g.context).Some? {
        var d := ParseContext(read, g.context).value;
        MessagesAreRead(g.messages, g.context, d, l, at);
        var r := ParseMessages(g.messages, g.context, d, l, at);
        if r.Ok? {
          next := r.value;
          GroupsAreRead(read, rest, l, next);
          forall route ensures UnitsOf(at.0, route) + RowsOf(read, groups, route)
            == UnitsOf(next.0, route) + RowsOf(read, rest, route)
          {
            Regroup(UnitsOf(at.0, route), if route == d.route then Rows(g.messages, g.context, d) else [],
                    RowsOf(read, rest, route));
          }
        }
      } else if g.context == [] {
        GroupsAreRead(read, rest, l, at);
        assert forall route :: [] + RowsOf(read, rest, route) == RowsOf(read, rest, route);
      }
    }
  }

  lemma Regroup(a: seq<Entry>, b: seq<Entry>, c: seq<Entry>)
    ensures a + b + c == a + (b + c)
  {
  }

  lemma AllGood(read: Reader, groups: seq<Group>)
    requires groups != []
    ensures (forall g <- groups :: GoodGroup(read, g)) <==>
      GoodGroup(read, groups[0]) && forall g <- groups[1..] :: GoodGroup(read, g)
  {
    hide GoodGroup;
    assert groups == [groups[0]] + groups[1..];
  }

  predicate GoodHeaders(t: Table) {
    && Header(t.headers, SOURCE_LANGUAGE) != [] && Header(t.headers, LANGUAGE) != []
    && Header(t.headers, CATALOG_VERSION) == VERSION
    && Header(t.headers, SOURCE_LANGUAGE) != Header(t.headers, LANGUAGE)
  }

  /**
   * Exactly which tables are taken, and what they give: every route has the units of its messages, in the order of
   * the table, each with what its message says.
   */
  lemma TableIsRead(read: Reader, t: Table)
    ensures ParseCatalog(read, t).Ok? <==>
      GoodHeaders(t) && (forall g <- t.groups :: GoodGroup(read, g)) && Scoped(t.groups) <= MAX_UNITS
    ensures ParseCatalog(read, t).Ok? ==>
      forall route :: UnitsOf(ParseCatalog(read, t).value, route) == RowsOf(read, t.groups, route)
  {
    hide ParseGroups, Header, UnitsOf, GoodGroup;
    GroupsAreRead(read, t.groups, (Header(t.headers, SOURCE_LANGUAGE), Header(t.headers, LANGUAGE)), ([], 0));
    NoUnits();
    assert forall route :: [] + RowsOf(read, t.groups, route) == RowsOf(read, t.groups, route);
  }

  lemma NoUnits()
    ensures forall route :: UnitsOf([], route) == []
  {
  }

  /** Under one context, unit i says what message i says. */
  lemma {:induction false} RowsSay(ms: seq<Message>, context: Text, d: Descriptor, i: nat)
    requires GoodMessages(ms, context, d) && i < |ms|
    ensures |Rows(ms, context, d)| == |ms| && Says(Rows(ms, context, d)[i], ms[i], d)
  {
    hide ParseUnit, GoodMessage, Says;
    MessageIsRead(ms[0], context, d);
    var rest := ms[1..];
    assert forall k :: 0 <= k < |rest| ==> rest[k] == ms[k + 1];
    if rest == [] {
      assert Rows(rest, context, d) == [];
    } else {
      RowsSay(rest, context, d, if i > 0 then i - 1 else 0);
    }
  }
}
