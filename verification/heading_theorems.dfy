/** The renderer's ids are the table's ids; their numbering has no gaps; when they are unique. */
module HeadingTheorems {
  import opened Common
  import opened Utf8
  import opened Ascii
  import opened Headings
  import Whitespace

  // ---- the renderer agrees with the table ----

  lemma {:induction false} AllIdsConcat(a: seq<Html>, b: seq<Html>)
    ensures AllIds(a + b) == AllIds(a) + AllIds(b)
  {
    if a == [] {
      assert a + b == b;
    } else {
      assert (a + b)[1..] == a[1..] + b;
      AllIdsConcat(a[1..], b);
    }
  }

  lemma {:induction false} EntryIdsConcat(a: seq<Entry>, b: seq<Entry>)
    ensures EntryIds(a + b) == EntryIds(a) + EntryIds(b)
  {
    if a == [] {
      assert a + b == b;
    } else {
      assert (a + b)[1..] == a[1..] + b;
      EntryIdsConcat(a[1..], b);
    }
  }

  function RenderedIds(h: Option<Html>): seq<Text> {
    if h.Some? then HtmlIds(h.value) else []
  }

  lemma {:induction false} NodeIds(slugify: Slugger, anchors: bool, n: Node, seen: Seen)
    ensures RenderedIds(RenderNode(slugify, anchors, n, seen).0) == EntryIds(WalkNode(slugify, n, seen).0)
    ensures RenderNode(slugify, anchors, n, seen).1 == WalkNode(slugify, n, seen).1
    decreases n, 1
  {
    hide RenderChildren, Walk, RenderNode, WalkNode;
    if Leaf(n.kind) {
      LeafIds(slugify, anchors, n, seen);
    } else {
      var seen1 := if n.kind == Heading then HeadingEntry(slugify, n, seen).1 else seen;
      ChildrenIds(slugify, anchors, n.children, seen1);
      if n.kind == Heading {
        HeadingIds(slugify, anchors, n, seen);
      } else {
        NothingRendered(slugify, anchors, n.children, seen);
        ElementIds(slugify, anchors, n, seen);
      }
    }
  }

  lemma LeafIds(slugify: Slugger, anchors: bool, n: Node, seen: Seen)
    requires Leaf(n.kind)
    ensures RenderedIds(RenderNode(slugify, anchors, n, seen).0) == EntryIds(WalkNode(slugify, n, seen).0)
    ensures RenderNode(slugify, anchors, n, seen).1 == WalkNode(slugify, n, seen).1
  {
    assert HtmlIds(PLAIN) == [] && AllIds([PLAIN]) == [];
  }

  lemma NoEntryIds()
    ensures EntryIds([]) == []
  {
  }

  // An element without an id, or a node that renders to nothing.
  lemma ElementIds(slugify: Slugger, anchors: bool, n: Node, seen: Seen)
    requires !Leaf(n.kind) && n.kind != Heading
    requires AllIds(RenderChildren(slugify, anchors, n.children, seen).0) == EntryIds(Walk(slugify, n.children, seen).0)
    requires RenderChildren(slugify, anchors, n.children, seen).1 == Walk(slugify, n.children, seen).1
    requires (forall i :: 0 <= i < |n.children| ==> n.children[i].NotObject?) ==>
      Walk(slugify, n.children, seen) == ([], seen)
    ensures RenderedIds(RenderNode(slugify, anchors, n, seen).0) == EntryIds(WalkNode(slugify, n, seen).0)
    ensures RenderNode(slugify, anchors, n, seen).1 == WalkNode(slugify, n, seen).1
  {
    hide RenderChildren, Walk, RenderNode, WalkNode;
    NoEntryIds();
    WalkElement(slugify, n, seen);
    RenderElement(slugify, anchors, n, seen);
  }

  lemma WalkElement(slugify: Slugger, n: Node, seen: Seen)
    requires !Leaf(n.kind) && n.kind != Heading
    ensures WalkNode(slugify, n, seen) == Walk(slugify, n.children, seen)
  {
    hide Walk, HeadingEntry;
    var entries := Walk(slugify, n.children, seen).0;
    assert [] + entries == entries;
  }

  lemma RenderElement(slugify: Slugger, anchors: bool, n: Node, seen: Seen)
    requires !Leaf(n.kind) && n.kind != Heading
    ensures var inner := RenderChildren(slugify, anchors, n.children, seen);
      && RenderedIds(RenderNode(slugify, anchors, n, seen).0) ==
           (if n.kind == OtherType && (forall i :: 0 <= i < |n.children| ==> n.children[i].NotObject?) then []
            else AllIds(inner.0))
      && RenderNode(slugify, anchors, n, seen).1 == inner.1
  {
    hide RenderChildren, HeadingEntry, HtmlIds, AllIds;
    IdsOfElement(RenderChildren(slugify, anchors, n.children, seen).0);
  }

  lemma IdsOfElement(inner: seq<Html>)
    ensures HtmlIds(Html(None, inner)) == AllIds(inner)
    ensures forall id :: HtmlIds(Html(Some(id), inner)) == [id] + AllIds(inner)
  {
    assert [] + AllIds(inner) == AllIds(inner);
  }

  lemma HeadingIds(slugify: Slugger, anchors: bool, n: Node, seen: Seen)
    requires n.kind == Heading
    requires var seen1 := HeadingEntry(slugify, n, seen).1;
      AllIds(RenderChildren(slugify, anchors, n.children, seen1).0) == EntryIds(Walk(slugify, n.children, seen1).0)
      && RenderChildren(slugify, anchors, n.children, seen1).1 == Walk(slugify, n.children, seen1).1
    ensures RenderedIds(RenderNode(slugify, anchors, n, seen).0) == EntryIds(WalkNode(slugify, n, seen).0)
    ensures RenderNode(slugify, anchors, n, seen).1 == WalkNode(slugify, n, seen).1
  {
    hide HeadingEntry, RenderChildren, Walk, AllIds, HtmlIds, EntryIds;
    var (entry, seen1) := HeadingEntry(slugify, n, seen);
    var inner := RenderChildren(slugify, anchors, n.children, seen1).0;
    var rest := Walk(slugify, n.children, seen1).0;
    AnchorHasNoId(inner);
    IdsOfElement(inner);
    IdsOfElement(inner + [PLAIN]);
    if entry.Some? {
      OneEntryId(entry.value);
      EntryIdsConcat([entry.value], rest);
    } else {
      assert [] + rest == rest;
    }
  }

  lemma OneEntryId(e: Entry)
    ensures EntryIds([e]) == [e.id]
  {
    assert [e][1..] == [];
  }

  lemma AnchorHasNoId(inner: seq<Html>)
    ensures AllIds(inner + [PLAIN]) == AllIds(inner) && inner + [] == inner
  {
    AllIdsConcat(inner, [PLAIN]);
    assert HtmlIds(PLAIN) == [] && AllIds([PLAIN]) == [];
  }

  // A node whose children are all skipped has nothing to render and no entries.
  lemma {:induction false} NothingRendered(slugify: Slugger, anchors: bool, ns: seq<Child>, seen: Seen)
    ensures (forall i :: 0 <= i < |ns| ==> ns[i].NotObject?) ==>
      Walk(slugify, ns, seen) == ([], seen) && RenderChildren(slugify, anchors, ns, seen) == ([], seen)
  {
    if ns != [] {
      NothingRendered(slugify, anchors, ns[1..], seen);
      assert forall i :: 0 <= i < |ns[1..]| ==> ns[1..][i] == ns[i + 1];
      var nothing: seq<Entry> := [];
      assert nothing + nothing == nothing;
    }
  }

  lemma {:induction false} ChildrenIds(slugify: Slugger, anchors: bool, ns: seq<Child>, seen: Seen)
    ensures AllIds(RenderChildren(slugify, anchors, ns, seen).0) == EntryIds(Walk(slugify, ns, seen).0)
    ensures RenderChildren(slugify, anchors, ns, seen).1 == Walk(slugify, ns, seen).1
    decreases ns, 0
  {
    hide RenderNode, WalkNode;
    if ns != [] {
      ChildIds(slugify, anchors, ns[0], seen);
      var (head, seen1) := RenderChild(slugify, anchors, ns[0], seen);
      ChildrenIds(slugify, anchors, ns[1..], seen1);
      var own := if head.Some? then [head.value] else [];
      assert AllIds(own) == RenderedIds(head) by {
        if head.Some? {
          assert HtmlIds(head.value) + [] == HtmlIds(head.value);
        }
      }
      AllIdsConcat(own, RenderChildren(slugify, anchors, ns[1..], seen1).0);
      EntryIdsConcat(WalkChild(slugify, ns[0], seen).0, Walk(slugify, ns[1..], seen1).0);
    }
  }

  lemma {:induction false} ChildIds(slugify: Slugger, anchors: bool, c: Child, seen: Seen)
    ensures RenderedIds(RenderChild(slugify, anchors, c, seen).0) == EntryIds(WalkChild(slugify, c, seen).0)
    ensures RenderChild(slugify, anchors, c, seen).1 == WalkChild(slugify, c, seen).1
    decreases c, 2
  {
    if c.Element? {
      NodeIds(slugify, anchors, c.node, seen);
    }
  }

  /** For every document, the ids the renderer emits are the ids of the table of contents, in the same order. */
  lemma RendererMatchesToc(slugify: Slugger, anchors: bool, root: seq<Child>)
    ensures AllIds(RenderRichText(slugify, anchors, root)) == EntryIds(ExtractHeadingToc(slugify, root))
  {
    ChildrenIds(slugify, anchors, root, map[]);
  }

  // ---- numbering ----

  function Count(slugify: Slugger, es: seq<Entry>, slug: Text): nat {
    if es == [] then 0
    else Count(slugify, es[..|es| - 1], slug) + if slugify(es[|es| - 1].text) == slug then 1 else 0
  }

  lemma {:induction false} CountConcat(slugify: Slugger, a: seq<Entry>, b: seq<Entry>, slug: Text)
    ensures Count(slugify, a + b, slug) == Count(slugify, a, slug) + Count(slugify, b, slug)
  {
    if b == [] {
      assert a + b == a;
    } else {
      assert (a + b)[..|a + b| - 1] == a + b[..|b| - 1];
      CountConcat(slugify, a, b[..|b| - 1], slug);
    }
  }

  // Entry i carries the number that comes after what was seen before it.
  predicate Numbers(slugify: Slugger, seen: Seen, es: seq<Entry>, i: nat)
    requires i < |es|
  {
    var slug := slugify(es[i].text);
    es[i].id == Numbered(slug, Times(seen, slug) + Count(slugify, es[..i], slug))
  }

  predicate InSequence(slugify: Slugger, seen: Seen, es: seq<Entry>) {
    forall i :: 0 <= i < |es| ==> Numbers(slugify, seen, es, i)
  }

  ghost predicate Counted(slugify: Slugger, seen: Seen, es: seq<Entry>, seen': Seen) {
    forall slug :: Times(seen', slug) == Times(seen, slug) + Count(slugify, es, slug)
  }

  lemma SequenceConcat(slugify: Slugger, seen: Seen, a: seq<Entry>, seen': Seen, b: seq<Entry>, seen'': Seen)
    requires InSequence(slugify, seen, a) && Counted(slugify, seen, a, seen')
    requires InSequence(slugify, seen', b) && Counted(slugify, seen', b, seen'')
    ensures InSequence(slugify, seen, a + b) && Counted(slugify, seen, a + b, seen'')
  {
    hide Numbers, Times, Count;
    forall i | 0 <= i < |a + b| ensures Numbers(slugify, seen, a + b, i) {
      if i < |a| {
        NumbersInFirst(slugify, seen, a, b, i);
      } else {
        NumbersInSecond(slugify, seen, a, seen', b, i - |a|);
      }
    }
    forall slug ensures Times(seen'', slug) == Times(seen, slug) + Count(slugify, a + b, slug) {
      CountConcat(slugify, a, b, slug);
    }
  }

  lemma NumbersInFirst(slugify: Slugger, seen: Seen, a: seq<Entry>, b: seq<Entry>, i: nat)
    requires i < |a| && Numbers(slugify, seen, a, i)
    ensures Numbers(slugify, seen, a + b, i)
  {
    assert (a + b)[..i] == a[..i];
  }

  lemma NumbersInSecond(slugify: Slugger, seen: Seen, a: seq<Entry>, seen': Seen, b: seq<Entry>, i: nat)
    requires Counted(slugify, seen, a, seen') && i < |b| && Numbers(slugify, seen', b, i)
    ensures Numbers(slugify, seen, a + b, |a| + i)
  {
    hide Numbered;
    assert (a + b)[..|a| + i] == a + b[..i];
    CountConcat(slugify, a, b[..i], slugify(b[i].text));
  }

  lemma Nothing(slugify: Slugger, seen: Seen)
    ensures InSequence(slugify, seen, []) && Counted(slugify, seen, [], seen)
  {
  }

  lemma OneHeading(slugify: Slugger, n: Node, seen: Seen)
    requires HeadingEntry(slugify, n, seen).0.Some?
    ensures var (e, seen') := HeadingEntry(slugify, n, seen);
      InSequence(slugify, seen, [e.value]) && Counted(slugify, seen, [e.value], seen')
  {
    var e := HeadingEntry(slugify, n, seen).0.value;
    assert [e][..0] == [];
    assert Count(slugify, [], slugify(e.text)) == 0;
  }

  lemma {:induction false} WalkNumbers(slugify: Slugger, ns: seq<Child>, seen: Seen)
    ensures var (es, seen') := Walk(slugify, ns, seen);
      InSequence(slugify, seen, es) && Counted(slugify, seen, es, seen')
    decreases ns, 0
  {
    hide InSequence, Counted, WalkNode;
    if ns == [] {
      Nothing(slugify, seen);
    } else {
      WalkChildNumbers(slugify, ns[0], seen);
      var (a, seen1) := WalkChild(slugify, ns[0], seen);
      WalkNumbers(slugify, ns[1..], seen1);
      var (b, seen2) := Walk(slugify, ns[1..], seen1);
      SequenceConcat(slugify, seen, a, seen1, b, seen2);
    }
  }

  lemma {:induction false} WalkChildNumbers(slugify: Slugger, c: Child, seen: Seen)
    ensures var (es, seen') := WalkChild(slugify, c, seen);
      InSequence(slugify, seen, es) && Counted(slugify, seen, es, seen')
    decreases c, 2
  {
    hide InSequence, Counted, Walk;
    Nothing(slugify, seen);
    if c.Element? {
      WalkNodeNumbers(slugify, c.node, seen);
    }
  }

  lemma {:induction false} WalkNodeNumbers(slugify: Slugger, n: Node, seen: Seen)
    ensures var (es, seen') := WalkNode(slugify, n, seen);
      InSequence(slugify, seen, es) && Counted(slugify, seen, es, seen')
    decreases n, 1
  {
    hide InSequence, Counted, Walk;
    Nothing(slugify, seen);
    var (own, seen1) := if n.kind == Heading then HeadingEntry(slugify, n, seen) else (None, seen);
    assert own.None? ==> seen1 == seen;
    if own.Some? {
      OneHeading(slugify, n, seen);
    }
    if !Leaf(n.kind) {
      WalkNumbers(slugify, n.children, seen1);
      var (rest, seen2) := Walk(slugify, n.children, seen1);
      SequenceConcat(slugify, seen, if own.Some? then [own.value] else [], seen1, rest, seen2);
    }
  }

  /** Headings with one slug are numbered in order without gaps: the slug itself, then 2, 3 and so on. */
  lemma NumberingHasNoGaps(slugify: Slugger, root: seq<Child>, i: nat)
    requires i < |ExtractHeadingToc(slugify, root)|
    ensures var es := ExtractHeadingToc(slugify, root);
      es[i].id == Numbered(slugify(es[i].text), Count(slugify, es[..i], slugify(es[i].text)))
  {
    hide Numbered, Walk;
    WalkNumbers(slugify, root, map[]);
    assert Numbers(slugify, map[], ExtractHeadingToc(slugify, root), i);
  }

  // ---- when ids are unique ----

  predicate HasDuplicateId(es: seq<Entry>) {
    exists i, j :: 0 <= i < j < |es| && es[i].id == es[j].id
  }

  // A heading whose slug is the numbered id of another heading.
  predicate SlugLooksNumbered(slugify: Slugger, es: seq<Entry>) {
    exists i, j :: 0 <= i < |es| && 0 <= j < |es| && NumberedBy(slugify, es, i, slugify(es[j].text))
  }

  // Heading i repeats a slug, and the given text is that slug with its number. Only heading texts are looked at.
  predicate NumberedBy(slugify: Slugger, es: seq<Entry>, i: nat, id: Text)
    requires i < |es|
  {
    var slug := slugify(es[i].text);
    var repeats := Count(slugify, es[..i], slug);
    repeats > 0 && id == Numbered(slug, repeats)
  }

  lemma {:induction false} CountGrows(slugify: Slugger, es: seq<Entry>, i: nat, j: nat)
    requires i < j <= |es|
    ensures var slug := slugify(es[i].text); Count(slugify, es[..i], slug) < Count(slugify, es[..j], slug)
    decreases j
  {
    assert es[..j][..j - 1] == es[..j - 1];
    if i < j - 1 {
      CountGrows(slugify, es, i, j - 1);
    }
  }

  // The first heading with the slug of entry j.
  lemma {:induction false} FirstWithSlug(slugify: Slugger, es: seq<Entry>, j: nat) returns (k: nat)
    requires j < |es|
    ensures k <= j && slugify(es[k].text) == slugify(es[j].text) && Count(slugify, es[..k], slugify(es[j].text)) == 0
    decreases j
  {
    var slug := slugify(es[j].text);
    if Count(slugify, es[..j], slug) == 0 {
      k := j;
    } else {
      var l := LastWithSlug(slugify, es, j, slug);
      k := FirstWithSlug(slugify, es, l);
    }
  }

  lemma {:induction false} LastWithSlug(slugify: Slugger, es: seq<Entry>, j: nat, slug: Text) returns (l: nat)
    requires j <= |es| && Count(slugify, es[..j], slug) > 0
    ensures l < j && slugify(es[l].text) == slug
    decreases j
  {
    assert es[..j][..j - 1] == es[..j - 1];
    if slugify(es[j - 1].text) == slug {
      l := j - 1;
    } else {
      l := LastWithSlug(slugify, es, j - 1, slug);
    }
  }

  lemma LastHyphen(a: Text, d: Text, b: Text, e: Text)
    requires a + ([HYPHEN] + d) == b + ([HYPHEN] + e) && HYPHEN !in d && HYPHEN !in e
    ensures a == b && d == e
  {
    var s := a + ([HYPHEN] + d);
    assert s[|a|] == HYPHEN && s[|b|] == HYPHEN;
    assert forall k :: |a| < k < |s| ==> s[k] == d[k - |a| - 1];
    assert forall k :: |b| < k < |s| ==> s[k] == e[k - |b| - 1];
    assert |a| == |b|;
    assert a == s[..|a|] && b == s[..|b|] && d == s[|a| + 1..] && e == s[|b| + 1..];
  }

  lemma NumberedInjective(s: Text, k: nat, t: Text, l: nat)
    requires k > 0 && l > 0 && Numbered(s, k) == Numbered(t, l)
    ensures s == t && k == l
  {
    LastHyphen(s, Decimal(k + 1), t, Decimal(l + 1));
    DecimalInjective(k + 1, l + 1);
  }

  lemma NumberedIsLonger(s: Text, k: nat)
    requires k > 0
    ensures Numbered(s, k) != s
  {
    assert |Numbered(s, k)| > |s|;
  }

  lemma DuplicateNeedsNumberedSlug(slugify: Slugger, es: seq<Entry>, i: nat, j: nat)
    requires InSequence(slugify, map[], es) && i < j < |es| && es[i].id == es[j].id
    ensures SlugLooksNumbered(slugify, es)
  {
    assert Numbers(slugify, map[], es, i) && Numbers(slugify, map[], es, j);
    var (s, t) := (slugify(es[i].text), slugify(es[j].text));
    var (k, l) := (Count(slugify, es[..i], s), Count(slugify, es[..j], t));
    if s == t {
      CountGrows(slugify, es, i, j);
      if k == 0 {
        NumberedIsLonger(s, l);
      } else {
        NumberedInjective(s, k, t, l);
      }
    } else if k > 0 && l > 0 {
      NumberedInjective(s, k, t, l);
    } else if l > 0 {
      assert NumberedBy(slugify, es, j, slugify(es[i].text));
    } else if k > 0 {
      assert NumberedBy(slugify, es, i, slugify(es[j].text));
    }
  }

  lemma NumberedSlugDuplicates(slugify: Slugger, es: seq<Entry>, i: nat, j: nat)
    requires InSequence(slugify, map[], es) && i < |es| && j < |es| && NumberedBy(slugify, es, i, slugify(es[j].text))
    ensures HasDuplicateId(es)
  {
    var k := FirstWithSlug(slugify, es, j);
    assert Numbers(slugify, map[], es, k) && Numbers(slugify, map[], es, i);
    assert k != i && es[k].id == es[i].id;
  }

  /** Two headings share an id exactly when some heading's own slug is the numbered id of a repeated one. */
  lemma IdsUniqueExactly(slugify: Slugger, root: seq<Child>)
    ensures var es := ExtractHeadingToc(slugify, root);
      HasDuplicateId(es) <==> SlugLooksNumbered(slugify, es)
  {
    hide InSequence, NumberedBy;
    var es := ExtractHeadingToc(slugify, root);
    WalkNumbers(slugify, root, map[]);
    if HasDuplicateId(es) {
      var i, j :| 0 <= i < j < |es| && es[i].id == es[j].id;
      DuplicateNeedsNumberedSlug(slugify, es, i, j);
    }
    if SlugLooksNumbered(slugify, es) {
      var i, j :| 0 <= i < |es| && 0 <= j < |es| && NumberedBy(slugify, es, i, slugify(es[j].text));
      NumberedSlugDuplicates(slugify, es, i, j);
    }
  }

  // A document of three headings whose slugs are s, s and t.
  lemma ThreeHeadings(slugify: Slugger, root: seq<Child>)
    requires var es := ExtractHeadingToc(slugify, root);
      |es| == 3 && slugify(es[0].text) == slugify(es[1].text) && slugify(es[2].text) == Numbered(slugify(es[0].text), 1)
    ensures HasDuplicateId(ExtractHeadingToc(slugify, root))
  {
    var es := ExtractHeadingToc(slugify, root);
    IdsUniqueExactly(slugify, root);
    NumberingHasNoGaps(slugify, root, 1);
    CountGrows(slugify, es, 0, 1);
    assert es[..1][..0] == [] && Count(slugify, es[..1], slugify(es[1].text)) == 1;
    assert NumberedBy(slugify, es, 1, slugify(es[2].text));
  }

  function HeadingOf(text: Text): Child {
    Element(Node(Heading, H2, [], [Element(Node(TextType, [], text, []))]))
  }

  lemma HeadingOfText(slugify: Slugger, text: Text, seen: Seen)
    requires Whitespace.Trim(text) == text != []
    ensures var slug := slugify(text);
      WalkChild(slugify, HeadingOf(text), seen) ==
      ([Entry(Numbered(slug, Times(seen, slug)), text, 2)], seen[slug := Times(seen, slug) + 1])
  {
    hide Numbered;
    var n := HeadingOf(text).node;
    var child := n.children[0];
    assert NodesText(n.children[1..]) == [] && ChildText(child) == text;
    assert NodesText(n.children) == text + [] == text;
    var (entry, seen') := HeadingEntry(slugify, n, seen);
    var nothing: seq<Entry> := [];
    assert WalkChild(slugify, child, seen') == (nothing, seen');
    assert Walk(slugify, n.children[1..], seen') == (nothing, seen');
    assert Walk(slugify, n.children, seen') == (nothing + nothing, seen');
    assert nothing + nothing == nothing && [entry.value] + nothing == [entry.value];
  }

  lemma WalkFirst(slugify: Slugger, text: Text, rest: seq<Child>, seen: Seen)
    requires Whitespace.Trim(text) == text != []
    ensures var slug := slugify(text);
      Walk(slugify, [HeadingOf(text)] + rest, seen).0 ==
      [Entry(Numbered(slug, Times(seen, slug)), text, 2)] + Walk(slugify, rest, seen[slug := Times(seen, slug) + 1]).0
  {
    hide Numbered;
    HeadingOfText(slugify, text, seen);
    assert ([HeadingOf(text)] + rest)[1..] == rest;
  }

  lemma WalkNothing(slugify: Slugger, seen: Seen)
    ensures Walk(slugify, [], seen) == ([], seen)
  {
  }

  /** "Notes", "Notes", "Notes 2" is such a document. */
  lemma NotesExample(slugify: Slugger)
    requires slugify(Lit("Notes")) == Lit("notes") && slugify(Lit("Notes 2")) == Lit("notes-2")
    ensures var (notes, notes2) := (HeadingOf(Lit("Notes")), HeadingOf(Lit("Notes 2")));
      HasDuplicateId(ExtractHeadingToc(slugify, [notes, notes, notes2]))
  {
    hide Walk;
    var (a, b) := (Lit("Notes"), Lit("Notes 2"));
    var (notes, notes2) := (HeadingOf(a), HeadingOf(b));
    var root := [notes, notes, notes2];
    assert a[0] == 'N' as int && a[4] == 's' as int && b[0] == 'N' as int && b[6] == '2' as int;
    var seen1: Seen := map[Lit("notes") := 1];
    assert map[][Lit("notes") := 1] == seen1;
    WalkFirst(slugify, a, [notes, notes2], map[]);
    WalkFirst(slugify, a, [notes2], seen1);
    WalkFirst(slugify, b, [], seen1[Lit("notes") := 2]);
    WalkNothing(slugify, seen1[Lit("notes") := 2][Lit("notes-2") := 1]);
    assert [notes] + ([notes] + ([notes2] + [])) == root && [notes2] + [] == [notes2];
    assert [notes] + [notes2] == [notes, notes2] && [notes] + [notes, notes2] == root;
    assert Numbered(Lit("notes"), 1) == Lit("notes-2") by {
      assert Decimal(2) == [Digit(2)];
    }
    ThreeHeadings(slugify, root);
  }
}
