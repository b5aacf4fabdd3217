/** Whole catalogs: rendering to a table of messages and parsing it back. */
module GettextCatalog {
  import opened Common
  import opened Utf8
  import opened Ascii
  import opened GettextContext
  import opened Whitespace
  import InlineCodec

  type Part = InlineCodec.Part

  // A translation unit. Protected rich text has both inline sides.
  datatype Entry = Entry(
    id: Text, source: Text, target: Text, sourceInline: Option<seq<Part>>, targetInline: Option<seq<Part>>)

  datatype Document = Document(route: Text, sourceLocale: Text, targetLocale: Text, units: seq<Entry>)

  type Catalog = seq<Document>

  datatype Message = Message(msgctxt: Text, msgid: Text, plural: bool, msgstr: seq<Text>)

  // The messages filed under one context.
  datatype Group = Group(context: Text, messages: seq<Message>)

  // Header names with their values, and the messages.
  datatype Table = Table(headers: seq<(Text, Text)>, groups: seq<Group>)

  datatype ParseError =
    | MissingHeaders | SameLanguages | Unscoped | BadContext | TooManyUnits | MismatchedContext | Plural
    | BadInline(error: InlineCodec.InlineError) | ChangedShape

  const VERSION: Text := Lit("1")
  const MAX_UNITS: nat := 100_000

  // ---- headers ----

  const LANGUAGE: Text := Lit("Language")
  const SOURCE_LANGUAGE: Text := Lit("X-Nexpress-Source-Language")
  const CATALOG_VERSION: Text := Lit("X-Nexpress-Catalog-Version")

  function RenderHeaders(source: Text, target: Text): seq<(Text, Text)> {
    [(Lit("Project-Id-Version"), Lit("NexPress content")), (Lit("MIME-Version"), Lit("1.0")),
     (Lit("Content-Type"), Lit("text/plain; charset=UTF-8")), (Lit("Content-Transfer-Encoding"), Lit("8bit")),
     (LANGUAGE, target), (SOURCE_LANGUAGE, source), (CATALOG_VERSION, VERSION)]
  }

  // Only A to Z change; no other unit becomes one of the letters of the three names.
  function Lower(t: Text): Text {
    seq(|t|, i requires 0 <= i < |t| => if 'A' as int <= t[i] <= 'Z' as int then t[i] + 32 else t[i])
  }

  function Exact(headers: seq<(Text, Text)>, name: Text): Option<Text> {
    if headers == [] then None
    else if headers[0].0 == name then Some(headers[0].1)
    else Exact(headers[1..], name)
  }

  function Loose(headers: seq<(Text, Text)>, name: Text): Option<Text> {
    if headers == [] then None
    else if Lower(headers[0].0) == Lower(name) then Some(headers[0].1)
    else Loose(headers[1..], name)
  }

  // The header of that very name, or else the first one that differs in case only.
  function Header(headers: seq<(Text, Text)>, name: Text): Text {
    match Exact(headers, name)
    case Some(v) => Trim(v)
    case None =>
      match Loose(headers, name)
      case Some(v) => Trim(v)
      case None => []
  }

  // ---- inline parts ----

  function PlainText(parts: seq<Part>): Text {
    if parts == [] then []
    else (if parts[0].Group? then parts[0].text else [10]) + PlainText(parts[1..])
  }

  predicate SamePlace(p: Part, q: Part) {
    p.Group? == q.Group? && p.id == q.id && p.ctype == q.ctype
  }

  predicate SameShape(a: seq<Part>, b: seq<Part>) {
    |a| == |b| && forall i :: 0 <= i < |a| ==> SamePlace(a[i], b[i])
  }

  function Blank(p: Part): Part {
    if p.Group? then p.(text := []) else p
  }

  function Blanked(parts: seq<Part>): seq<Part> {
    seq(|parts|, i requires 0 <= i < |parts| => Blank(parts[i]))
  }

  // ---- rendering ----

  predicate IsInline(u: Entry) { u.sourceInline.Some? || u.targetInline.Some? }

  function DescriptorOf(route: Text, u: Entry): Descriptor {
    Descriptor(route, u.id, IsInline(u))
  }

  // The context of a unit, before the check for duplicates.
  function UnitContext(route: Text, u: Entry): (r: Result<Text, RenderError>)
    ensures r.Ok? && IsInline(u) ==> u.sourceInline.Some? && u.targetInline.Some?
  {
    if IsInline(u) && (u.sourceInline.None? || u.targetInline.None?) then Err(MissingSide)
    else if IsInline(u) && !SameShape(u.sourceInline.value, u.targetInline.value) then Err(RenderError.ShapeChanged)
    else RenderContext(DescriptorOf(route, u))
  }

  function UnitMessage(context: Text, u: Entry): Message
    requires IsInline(u) ==> u.sourceInline.Some? && u.targetInline.Some?
  {
    if IsInline(u) then
      Message(context, InlineCodec.Render(u.sourceInline.value), false, [InlineCodec.Render(u.targetInline.value)])
    else Message(context, u.source, false, [u.target])
  }

  // The rows of the units of one document after the rows already there.
  function RenderUnits(route: Text, units: seq<Entry>, groups: seq<Group>): Result<seq<Group>, RenderError>
    decreases |units|
  {
    if units == [] then Ok(groups)
    else
      match UnitContext(route, units[0])
      case Err(e) => Err(e)
      case Ok(context) =>
        if HasContext(groups, context) then Err(DuplicateUnit)
        else RenderUnits(route, units[1..], groups + [Group(context, [UnitMessage(context, units[0])])])
  }

  predicate HasContext(groups: seq<Group>, context: Text) {
    exists i :: 0 <= i < |groups| && groups[i].context == context
  }

  function RenderDocuments(docs: seq<Document>, groups: seq<Group>): Result<seq<Group>, RenderError>
    decreases |docs|
  {
    if docs == [] then Ok(groups)
    else
      match RenderUnits(docs[0].route, docs[0].units, groups)
      case Err(e) => Err(e)
      case Ok(more) => RenderDocuments(docs[1..], more)
  }

  predicate OneLocalePair(c: Catalog) {
    forall i :: 0 <= i < |c| ==> c[i].sourceLocale == c[0].sourceLocale && c[i].targetLocale == c[0].targetLocale
  }

  function RenderCatalog(c: Catalog): Result<Table, RenderError> {
    if c == [] then Err(EmptyCatalog)
    else if !OneLocalePair(c) then Err(MixedLocales)
    else if c[0].sourceLocale == c[0].targetLocale then Err(SameLocales)
    else
      match RenderDocuments(c, [])
      case Err(e) => Err(e)
      case Ok(groups) => Ok(Table(RenderHeaders(c[0].sourceLocale, c[0].targetLocale), [Group([], [])] + groups))
  }

  lemma NoContext()
    ensures forall x :: !HasContext([], x)
  {
  }

  method RenderGettext(c: Catalog) returns (r: Result<Table, RenderError>)
    ensures r == RenderCatalog(c)
  {
    hide UnitContext, UnitMessage, HasContext;
    if c == [] {
      return Err(EmptyCatalog);
    }
    var i := 0;
    while i < |c|
      invariant i <= |c|
      invariant forall j :: 0 <= j < i ==>
        c[j].sourceLocale == c[0].sourceLocale && c[j].targetLocale == c[0].targetLocale
    {
      if c[i].sourceLocale != c[0].sourceLocale || c[i].targetLocale != c[0].targetLocale {
        return Err(MixedLocales);
      }
      i := i + 1;
    }
    if c[0].sourceLocale == c[0].targetLocale {
      return Err(SameLocales);
    }
    var groups: seq<Group> := [];
    var seen: set<Text> := {};
    NoContext();
    i := 0;
    while i < |c|
      invariant i <= |c|
      invariant forall x :: x in seen <==> HasContext(groups, x)
      invariant RenderDocuments(c, []) == RenderDocuments(c[i..], groups)
    {
      var document := c[i];
      ghost var before := groups;
      var j := 0;
      while j < |document.units|
        invariant j <= |document.units|
        invariant forall x :: x in seen <==> HasContext(groups, x)
        invariant RenderUnits(document.route, document.units, before)
          == RenderUnits(document.route, document.units[j..], groups)
      {
        var unit := document.units[j];
        assert document.units[j..][1..] == document.units[j + 1..];
        var context := UnitContext(document.route, unit);
        if context.Err? {
          return Err(context.error);
        }
        if context.value in seen {
          return Err(DuplicateUnit);
        }
        ContextAdded(groups, Group(context.value, [UnitMessage(context.value, unit)]));
        seen := seen + {context.value};
        groups := groups + [Group(context.value, [UnitMessage(context.value, unit)])];
        j := j + 1;
      }
      assert c[i..][1..] == c[i + 1..];
      i := i + 1;
    }
    return Ok(Table(RenderHeaders(c[0].sourceLocale, c[0].targetLocale), [Group([], [])] + groups));
  }

  lemma ContextAdded(groups: seq<Group>, g: Group)
    ensures forall x :: HasContext(groups + [g], x) <==> (HasContext(groups, x) || x == g.context)
  {
    var more := groups + [g];
    assert more[|groups|] == g;
    forall x | HasContext(groups, x) ensures HasContext(more, x) {
      var i :| 0 <= i < |groups| && groups[i].context == x;
      assert more[i].context == x;
    }
  }

  // ---- parsing ----

  function ParseMessage(m: Message, d: Descriptor): Result<Entry, ParseError>
    requires |m.msgstr| == 1
  {
    if !d.isInline then Ok(Entry(d.unitId, m.msgid, m.msgstr[0], None, None))
    else
      match InlineCodec.Parse(m.msgid)
      case Err(e) => Err(BadInline(e))
      case Ok(source) =>
        match (if m.msgstr[0] == [] then Ok(Blanked(source)) else InlineCodec.Parse(m.msgstr[0]))
        case Err(e) => Err(BadInline(e))
        case Ok(target) =>
          if !SameShape(source, target) then Err(ChangedShape)
          else Ok(Entry(d.unitId, PlainText(source), PlainText(target), Some(source), Some(target)))
  }

  function ParseUnit(m: Message, context: Text, d: Descriptor): Result<Entry, ParseError> {
    if m.msgctxt != context then Err(MismatchedContext)
    else if m.plural || |m.msgstr| != 1 then Err(Plural)
    else ParseMessage(m, d)
  }

  // A unit joins its route's document; a new route opens a document at the end.
  function AddUnit(docs: Catalog, route: Text, locales: (Text, Text), u: Entry): Catalog {
    if docs == [] then [Document(route, locales.0, locales.1, [u])]
    else if docs[0].route == route then [docs[0].(units := docs[0].units + [u])] + docs[1..]
    else [docs[0]] + AddUnit(docs[1..], route, locales, u)
  }

  // The documents so far, and the number of units read.
  type Progress = (Catalog, nat)

  function ParseMessages(ms: seq<Message>, context: Text, d: Descriptor, locales: (Text, Text), at: Progress)
    : Result<Progress, ParseError>
    decreases |ms|
  {
    if ms == [] then Ok(at)
    else if at.1 + 1 > MAX_UNITS then Err(TooManyUnits)
    else
      match ParseUnit(ms[0], context, d)
      case Err(e) => Err(e)
      case Ok(u) => ParseMessages(ms[1..], context, d, locales, (AddUnit(at.0, d.route, locales, u), at.1 + 1))
  }

  predicate HasUnscoped(ms: seq<Message>) {
    exists i :: 0 <= i < |ms| && ms[i].msgid != []
  }

  function ParseGroups(read: Reader, groups: seq<Group>, locales: (Text, Text), at: Progress)
    : Result<Progress, ParseError>
    decreases |groups|
  {
    if groups == [] then Ok(at)
    else if groups[0].context == [] then
      if HasUnscoped(groups[0].messages) then Err(Unscoped) else ParseGroups(read, groups[1..], locales, at)
    else
      match ParseContext(read, groups[0].context)
      case None => Err(BadContext)
      case Some(d) =>
        match ParseMessages(groups[0].messages, groups[0].context, d, locales, at)
        case Err(e) => Err(e)
        case Ok(next) => ParseGroups(read, groups[1..], locales, next)
  }

  function ParseCatalog(read: Reader, t: Table): Result<Catalog, ParseError> {
    var (source, target) := (Header(t.headers, SOURCE_LANGUAGE), Header(t.headers, LANGUAGE));
    if source == [] || target == [] || Header(t.headers, CATALOG_VERSION) != VERSION then Err(MissingHeaders)
    else if source == target then Err(SameLanguages)
    else
      match ParseGroups(read, t.groups, (source, target), ([], 0))
      case Err(e) => Err(e)
      case Ok((docs, _)) => Ok(docs)
  }

  method FileUnit(docs: Catalog, route: Text, locales: (Text, Text), u: Entry) returns (r: Catalog)
    ensures r == AddUnit(docs, route, locales, u)
  {
    var i := 0;
    while i < |docs| && docs[i].route != route
      invariant i <= |docs| && NoneBefore(docs, route, i)
    {
      i := i + 1;
    }
    AddUnitAt(docs, route, locales, u, i);
    if i == |docs| {
      return docs + [Document(route, locales.0, locales.1, [u])];
    }
    return docs[..i] + ([docs[i].(units := docs[i].units + [u])] + docs[i + 1..]);
  }

  predicate NoneBefore(docs: Catalog, route: Text, i: nat) {
    forall j :: 0 <= j < i && j < |docs| ==> docs[j].route != route
  }

  // The catalog with a unit filed in document i, or in a new one at the end.
  function FiledAt(docs: Catalog, route: Text, locales: (Text, Text), u: Entry, i: nat): Catalog
    requires i <= |docs|
  {
    if i == |docs| then docs + [Document(route, locales.0, locales.1, [u])]
    else docs[..i] + ([docs[i].(units := docs[i].units + [u])] + docs[i + 1..])
  }

  lemma FiledStep(docs: Catalog, route: Text, locales: (Text, Text), u: Entry, i: nat)
    requires 0 < i <= |docs|
    ensures FiledAt(docs, route, locales, u, i) == [docs[0]] + FiledAt(docs[1..], route, locales, u, i - 1)
  {
    var rest := docs[1..];
    assert docs == [docs[0]] + rest;
    if i < |docs| {
      assert docs[..i] == [docs[0]] + rest[..i - 1];
      assert docs[i + 1..] == rest[i..];
    }
  }

  lemma {:induction false} AddUnitAt(docs: Catalog, route: Text, locales: (Text, Text), u: Entry, i: nat)
    requires i <= |docs| && NoneBefore(docs, route, i) && (i < |docs| ==> docs[i].route == route)
    ensures AddUnit(docs, route, locales, u) == FiledAt(docs, route, locales, u, i)
    decreases i
  {
    if i > 0 {
      hide FiledAt;
      AddUnitAt(docs[1..], route, locales, u, i - 1);
      FiledStep(docs, route, locales, u, i);
    } else if docs == [] {
      assert docs + [Document(route, locales.0, locales.1, [u])] == [Document(route, locales.0, locales.1, [u])];
    } else {
      var x := [docs[0].(units := docs[0].units + [u])] + docs[1..];
      assert docs[..0] + x == x;
    }
  }

  method ParseGroup(group: Group, d: Descriptor, locales: (Text, Text), at: Progress)
    returns (r: Result<Progress, ParseError>)
    ensures r == ParseMessages(group.messages, group.context, d, locales, at)
  {
    hide ParseUnit, AddUnit;
    var (docs, count) := at;
    var j := 0;
    while j < |group.messages|
      invariant j <= |group.messages|
      invariant ParseMessages(group.messages, group.context, d, locales, at)
        == ParseMessages(group.messages[j..], group.context, d, locales, (docs, count))
    {
      assert group.messages[j..][1..] == group.messages[j + 1..];
      count := count + 1;
      if count > MAX_UNITS {
        return Err(TooManyUnits);
      }
      var unit := ParseUnit(group.messages[j], group.context, d);
      if unit.Err? {
        return Err(unit.error);
      }
      docs := FileUnit(docs, d.route, locales, unit.value);
      j := j + 1;
    }
    return Ok((docs, count));
  }

  method ParseGettext(read: Reader, t: Table) returns (r: Result<Catalog, ParseError>)
    ensures r == ParseCatalog(read, t)
  {
    hide ParseMessages, ParseContext, HasUnscoped, Header;
    var source, target := Header(t.headers, SOURCE_LANGUAGE), Header(t.headers, LANGUAGE);
    if source == [] || target == [] || Header(t.headers, CATALOG_VERSION) != VERSION {
      return Err(MissingHeaders);
    }
    if source == target {
      return Err(SameLanguages);
    }
    var at: Progress := ([], 0);
    var i := 0;
    while i < |t.groups|
      invariant i <= |t.groups|
      invariant ParseGroups(read, t.groups, (source, target), ([], 0))
        == ParseGroups(read, t.groups[i..], (source, target), at)
    {
      var group := t.groups[i];
      assert t.groups[i..][1..] == t.groups[i + 1..];
      if group.context == [] {
        if HasUnscoped(group.messages) {
          return Err(Unscoped);
        }
      } else {
        var d := ParseContext(read, group.context);
        if d.None? {
          return Err(BadContext);
        }
        var next := ParseGroup(group, d.value, (source, target), at);
        if next.Err? {
          return Err(next.error);
        }
        at := next.value;
      }
      i := i + 1;
    }
    return Ok(at.0);
  }
}
