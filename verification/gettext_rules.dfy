/** Exactly which catalogs can be rendered, which contexts are read, and which header answers a name. */
module GettextRules {
  import opened Common
  import opened Utf8
  import opened Ascii
  import opened Whitespace
  import opened GettextContext
  import opened GettextCatalog
  import Base64Url
  import GettextLaws

  // ---- contexts ----

  lemma EncodedLength(b: seq<Byte>)
    ensures |Base64Url.Encode(b)| == (4 * |b| + 2) / 3
  {
    Base64Url.DigitsInAlphabet(Base64Url.Sextets(b));
    SextetCount(b);
  }

  lemma {:induction false} SextetCount(b: seq<Byte>)
    ensures |Base64Url.Sextets(b)| == (4 * |b| + 2) / 3
  {
    if |b| >= 3 {
      SextetCount(b[3..]);
    }
  }

  // The descriptor names something, within the limits on its two names and on the whole context.
  predicate Nameable(d: Descriptor) {
    && 1 <= |d.route| <= 1024 && 1 <= |d.unitId| <= 4096
    && 11 + (4 * |Encode(DescriptorText(d))| + 2) / 3 <= 8192
  }

  lemma RenderedContextExactly(d: Descriptor)
    ensures RenderContext(d).Ok? <==> Nameable(d)
  {
    EncodedLength(Encode(DescriptorText(d)));
  }

  /** A context is read exactly when it is the one encoding of a text that the reader takes, within the limits. */
  lemma ParsedContextExactly(read: Reader, context: Text, d: Descriptor)
    ensures ParseContext(read, context) == Some(d) <==>
      && 1 <= |d.route| <= 1024 && 1 <= |d.unitId| <= 4096 && |context| <= 8192
      && exists text :: WellFormed(text) && context == Lit("np:content:") + Base64Url.Encode(Encode(text))
                        && read(text) == Some(d)
  {
    hide Base64Url.Encode, Base64Url.Decode, Decode, Encode, WellFormed;
    if ParseContext(read, context) == Some(d) {
      var bytes := Base64Url.Decode(context[|PREFIX|..]);
      DecodeWellFormed(bytes);
      assert context == PREFIX + context[|PREFIX|..];
    }
    forall text | WellFormed(text) && context == PREFIX + Base64Url.Encode(Encode(text)) && read(text) == Some(d)
      ensures ParseContext(read, context) == (if |context| <= 8192 && WithinLimits(d) then Some(d) else None)
    {
      ContextCarriesText(text);
      assert context[..|PREFIX|] == PREFIX && context[|PREFIX|..] == Base64Url.Encode(Encode(text));
    }
  }

  // ---- headers ----

  // The same letters, whatever their case.
  predicate SameLetters(a: Text, b: Text) {
    |a| == |b| && forall i :: 0 <= i < |a| ==> SameLetter(a[i], b[i])
  }

  predicate SameLetter(u: Unit, v: Unit) {
    || u == v
    || ('A' as int <= u <= 'Z' as int && v == u + 32)
    || ('A' as int <= v <= 'Z' as int && u == v + 32)
  }

  lemma LowerSame(a: Text, b: Text)
    ensures Lower(a) == Lower(b) <==> SameLetters(a, b)
  {
    if Lower(a) == Lower(b) {
      assert |Lower(a)| == |a| && |Lower(b)| == |b|;
      forall i | 0 <= i < |a| ensures SameLetter(a[i], b[i]) {
        assert Lower(a)[i] == Lower(b)[i];
      }
    }
  }

  // The header at i answers the name: it is the first of that spelling, or there is none and it is the first in case.
  predicate Answers(headers: seq<(Text, Text)>, name: Text, i: nat)
    requires i < |headers|
  {
    || (headers[i].0 == name && forall j :: 0 <= j < i ==> headers[j].0 != name)
    || (&& SameLetters(headers[i].0, name)
        && (forall j :: 0 <= j < |headers| ==> headers[j].0 != name)
        && forall j :: 0 <= j < i ==> !SameLetters(headers[j].0, name))
  }

  lemma {:induction false} ExactFinds(headers: seq<(Text, Text)>, name: Text)
    ensures match Exact(headers, name)
      case None => forall j :: 0 <= j < |headers| ==> headers[j].0 != name
      case Some(v) => exists i :: 0 <= i < |headers| && headers[i] == (name, v)
                                  && forall j :: 0 <= j < i ==> headers[j].0 != name
  {
    if headers != [] && headers[0].0 != name {
      var rest := headers[1..];
      ExactFinds(rest, name);
      assert forall j :: 0 < j < |headers| ==> headers[j] == rest[j - 1];
      if Exact(rest, name).Some? {
        var i :| 0 <= i < |rest| && rest[i] == (name, Exact(rest, name).value)
                 && forall j :: 0 <= j < i ==> rest[j].0 != name;
        assert headers[i + 1] == rest[i];
      }
    }
  }

  lemma {:induction false} LooseFinds(headers: seq<(Text, Text)>, name: Text)
    ensures match Loose(headers, name)
      case None => forall j :: 0 <= j < |headers| ==> !SameLetters(headers[j].0, name)
      case Some(v) => exists i :: 0 <= i < |headers| && SameLetters(headers[i].0, name) && headers[i].1 == v
                                  && forall j :: 0 <= j < i ==> !SameLetters(headers[j].0, name)
  {
    hide SameLetters, Lower;
    if headers != [] {
      LowerSame(headers[0].0, name);
      if Lower(headers[0].0) != Lower(name) {
        var rest := headers[1..];
        LooseFinds(rest, name);
        assert forall j :: 0 < j < |headers| ==> headers[j] == rest[j - 1];
        if Loose(rest, name).Some? {
          var i :| 0 <= i < |rest| && SameLetters(rest[i].0, name) && rest[i].1 == Loose(rest, name).value
                   && forall j :: 0 <= j < i ==> !SameLetters(rest[j].0, name);
          assert headers[i + 1] == rest[i];
        }
      }
    }
  }

  /** A name is answered by the one header that is due, trimmed, and by nothing when no header has its letters. */
  lemma HeaderExactly(headers: seq<(Text, Text)>, name: Text)
    ensures forall i :: 0 <= i < |headers| && Answers(headers, name, i) ==> Header(headers, name) == Trim(headers[i].1)
    ensures (forall i :: 0 <= i < |headers| ==> !SameLetters(headers[i].0, name)) ==> Header(headers, name) == []
    ensures (exists i :: 0 <= i < |headers| && SameLetters(headers[i].0, name)) ==>
      exists i :: 0 <= i < |headers| && Answers(headers, name, i)
  {
    hide SameLetters, Exact, Loose, Trim;
    ExactFinds(headers, name);
    LooseFinds(headers, name);
    SameAsItself(name);
    if Exact(headers, name).Some? {
      var i :| 0 <= i < |headers| && headers[i] == (name, Exact(headers, name).value)
               && forall j :: 0 <= j < i ==> headers[j].0 != name;
      assert Answers(headers, name, i);
    } else if Loose(headers, name).Some? {
      var i :| 0 <= i < |headers| && SameLetters(headers[i].0, name) && headers[i].1 == Loose(headers, name).value
               && forall j :: 0 <= j < i ==> !SameLetters(headers[j].0, name);
      assert Answers(headers, name, i);
    }
  }

  lemma SameAsItself(name: Text)
    ensures SameLetters(name, name)
  {
  }

  // ---- rendering ----

  // The units of a catalog, each with its route, in order.
  type Slot = (Text, Entry)

  function SlotsOf(route: Text, units: seq<Entry>): seq<Slot> {
    seq(|units|, k requires 0 <= k < |units| => (route, units[k]))
  }

  function Slots(c: Catalog): seq<Slot> {
    if c == [] then [] else SlotsOf(c[0].route, c[0].units) + Slots(c[1..])
  }

  predicate Renderable(s: Slot) {
    && (match (s.1.sourceInline, s.1.targetInline)
        case (Some(a), Some(b)) => GettextLaws.SamePlaces(a, b)
        case (None, None) => true
        case _ => false)
    && Nameable(Name(s))
  }

  function Name(s: Slot): Descriptor {
    Descriptor(s.0, s.1.id, s.1.sourceInline.Some? || s.1.targetInline.Some?)
  }

  // No two units have the same route, id and form.
  predicate DistinctNames(slots: seq<Slot>) {
    forall k, l :: 0 <= k < l < |slots| ==> Name(slots[k]) != Name(slots[l])
  }

  predicate Fresh(groups: seq<Group>, slots: seq<Slot>) {
    forall k :: 0 <= k < |slots| ==>
      RenderContext(Name(slots[k])).Ok? ==> !HasContext(groups, RenderContext(Name(slots[k])).value)
  }

  // The row of a unit.
  function Row(s: Slot): Group
    requires Renderable(s)
  {
    RenderedContextExactly(Name(s));
    var context := RenderContext(Name(s)).value;
    Group(context, [UnitMessage(context, s.1)])
  }

  function RowsOf(slots: seq<Slot>): seq<Group>
    requires forall k :: 0 <= k < |slots| ==> Renderable(slots[k])
  {
    seq(|slots|, k requires 0 <= k < |slots| => Row(slots[k]))
  }

  function RenderSlots(slots: seq<Slot>, groups: seq<Group>): Result<seq<Group>, RenderError>
    decreases |slots|
  {
    if slots == [] then Ok(groups)
    else
      match UnitContext(slots[0].0, slots[0].1)
      case Err(e) => Err(e)
      case Ok(context) =>
        if HasContext(groups, context) then Err(DuplicateUnit)
        else RenderSlots(slots[1..], groups + [Group(context, [UnitMessage(context, slots[0].1)])])
  }

  lemma {:induction false} UnitsAreSlots(route: Text, units: seq<Entry>, rest: seq<Slot>, groups: seq<Group>)
    ensures RenderSlots(SlotsOf(route, units) + rest, groups) ==
      match RenderUnits(route, units, groups) case Err(e) => Err(e) case Ok(more) => RenderSlots(rest, more)
    decreases |units|
  {
    hide UnitContext, UnitMessage, HasContext;
    var slots := SlotsOf(route, units) + rest;
    if units == [] {
      assert slots == rest;
    } else {
      assert slots[0] == (route, units[0]) && slots[1..] == SlotsOf(route, units[1..]) + rest;
      var context := UnitContext(route, units[0]);
      if context.Ok? && !HasContext(groups, context.value) {
        UnitsAreSlots(route, units[1..], rest, groups + [Group(context.value, [UnitMessage(context.value, units[0])])]);
      }
    }
  }

  lemma {:induction false} DocumentsAreSlots(c: Catalog, groups: seq<Group>)
    ensures RenderDocuments(c, groups) == RenderSlots(Slots(c), groups)
    decreases |c|
  {
    hide RenderUnits, SlotsOf;
    if c != [] {
      hide RenderSlots;
      UnitsAreSlots(c[0].route, c[0].units, Slots(c[1..]), groups);
      if RenderUnits(c[0].route, c[0].units, groups).Ok? {
        DocumentsAreSlots(c[1..], RenderUnits(c[0].route, c[0].units, groups).value);
      }
    }
  }

  lemma UnitContextExactly(s: Slot)
    ensures UnitContext(s.0, s.1).Ok? <==> Renderable(s)
    ensures Renderable(s) ==> UnitContext(s.0, s.1) == RenderContext(Name(s))
  {
    RenderedContextExactly(Name(s));
  }

  // The row of s clashes with one of the groups, or with a later slot, exactly when its name does.
  lemma RowAdded(groups: seq<Group>, s: Slot, rest: seq<Slot>)
    requires Renderable(s) && (forall k :: 0 <= k < |rest| ==> Renderable(rest[k]))
    ensures Fresh(groups + [Row(s)], rest) <==>
      Fresh(groups, rest) && forall k :: 0 <= k < |rest| ==> Name(rest[k]) != Name(s)
  {
    hide RenderContext, HasContext, UnitMessage, Nameable;
    ContextAdded(groups, Row(s));
    RenderedContextExactly(Name(s));
    forall k | 0 <= k < |rest|
      ensures RenderContext(Name(rest[k])).Ok?
      ensures RenderContext(Name(rest[k])).value == Row(s).context <==> Name(rest[k]) == Name(s)
    {
      RenderedContextExactly(Name(rest[k]));
      if RenderContext(Name(rest[k])).value == Row(s).context {
        ContextsAreDistinct(Name(rest[k]), Name(s));
      }
    }
  }

  lemma {:induction false} SlotsRendered(slots: seq<Slot>, groups: seq<Group>)
    ensures RenderSlots(slots, groups).Ok? <==>
      (forall k :: 0 <= k < |slots| ==> Renderable(slots[k])) && Fresh(groups, slots) && DistinctNames(slots)
    ensures RenderSlots(slots, groups).Ok? ==> RenderSlots(slots, groups).value == groups + RowsOf(slots)
    decreases |slots|
  {
    hide UnitContext, UnitMessage, HasContext, Renderable, RenderContext;
    if slots == [] {
      assert groups + [] == groups;
    } else {
      var (s, rest) := (slots[0], slots[1..]);
      assert forall k :: 0 < k < |slots| ==> slots[k] == rest[k - 1];
      UnitContextExactly(s);
      if Renderable(s) && !HasContext(groups, Row(s).context) {
        SlotsRendered(rest, groups + [Row(s)]);
        if forall k :: 0 <= k < |rest| ==> Renderable(rest[k]) {
          RowAdded(groups, s, rest);
          assert groups + [Row(s)] + RowsOf(rest) == groups + RowsOf(slots);
        }
      }
    }
  }

  /**
   * Exactly which catalogs are rendered: they have documents, all of one pair of different locales, and units that
   * all have a row, no two of them the same one. The table then has the rows of the units, in order.
   */
  lemma RenderedExactly(c: Catalog)
    ensures RenderCatalog(c).Ok? <==>
      && c != [] && c[0].sourceLocale != c[0].targetLocale
      && (forall d <- c :: d.sourceLocale == c[0].sourceLocale && d.targetLocale == c[0].targetLocale)
      && (forall k :: 0 <= k < |Slots(c)| ==> Renderable(Slots(c)[k]))
      && DistinctNames(Slots(c))
    ensures RenderCatalog(c).Ok? ==> RenderCatalog(c).value.groups == [Group([], [])] + RowsOf(Slots(c))
  {
    hide RenderDocuments, Renderable, RenderHeaders, RenderContext;
    DocumentsAreSlots(c, []);
    SlotsRendered(Slots(c), []);
    NoContext();
    assert forall d <- c :: exists i :: 0 <= i < |c| && d == c[i];
    if RenderCatalog(c).Ok? {
      assert [] + RowsOf(Slots(c)) == RowsOf(Slots(c));
    }
  }
}
