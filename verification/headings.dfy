/** Heading ids: the table of contents and the renderer walk the same document. */
module Headings {
  import opened Common
  import opened Utf8
  import opened Ascii
  import opened Whitespace

  type Text = seq<Unit>

  datatype NodeType =
    | TextType | Paragraph | Heading | Quote | ListType | ListItem | Link | Image | Code | HorizontalRule | LineBreak
    | OtherType

  // A rich-text node. A missing child list is an empty one.
  datatype Node = Node(kind: NodeType, tag: Text, text: Text, children: seq<Child>)

  // An entry of a child list; an entry that is not an object is skipped everywhere.
  datatype Child = NotObject | Element(node: Node)

  datatype Entry = Entry(id: Text, text: Text, level: nat)

  // How often each slug has been used.
  type Seen = map<Text, nat>

  type Slugger = Text -> Text

  const H2: Text := Lit("h2")
  const H3: Text := Lit("h3")
  const HYPHEN: Unit := '-' as int

  // ---- the text of a node ----

  function NodeText(n: Node): Text
    decreases n, 1
  {
    if n.kind == TextType then n.text
    else if n.kind == LineBreak then [10]
    else NodesText(n.children)
  }

  function NodesText(ns: seq<Child>): Text
    decreases ns, 0
  {
    if ns == [] then [] else ChildText(ns[0]) + NodesText(ns[1..])
  }

  function ChildText(c: Child): Text
    decreases c, 2
  {
    if c.Element? then NodeText(c.node) else []
  }

  // ---- one heading ----

  function Times(seen: Seen, slug: Text): nat {
    if slug in seen then seen[slug] else 0
  }

  // The id of the heading that comes after `prior` others with its slug.
  function Numbered(slug: Text, prior: nat): Text {
    if prior == 0 then slug else slug + ([HYPHEN] + Decimal(prior + 1))
  }

  function HeadingEntry(slugify: Slugger, n: Node, seen: Seen): (Option<Entry>, Seen) {
    var text := Trim(NodeText(n));
    if (n.tag != H2 && n.tag != H3) || text == [] then (None, seen)
    else
      var slug := slugify(text);
      (Some(Entry(Numbered(slug, Times(seen, slug)), text, if n.tag == H2 then 2 else 3)),
       seen[slug := Times(seen, slug) + 1])
  }

  // ---- the table of contents ----

  // Nodes whose children are not rendered as rich text.
  predicate Leaf(k: NodeType) {
    k == TextType || k == Code || k == Image || k == HorizontalRule || k == LineBreak
  }

  function WalkNode(slugify: Slugger, n: Node, seen: Seen): (seq<Entry>, Seen)
    decreases n, 1
  {
    var (own, seen1) := if n.kind == Heading then HeadingEntry(slugify, n, seen) else (None, seen);
    var head := if own.Some? then [own.value] else [];
    if Leaf(n.kind) then (head, seen1)
    else
      var (rest, seen2) := Walk(slugify, n.children, seen1);
      (head + rest, seen2)
  }

  function Walk(slugify: Slugger, ns: seq<Child>, seen: Seen): (seq<Entry>, Seen)
    decreases ns, 0
  {
    if ns == [] then ([], seen)
    else
      var (head, seen1) := WalkChild(slugify, ns[0], seen);
      var (rest, seen2) := Walk(slugify, ns[1..], seen1);
      (head + rest, seen2)
  }

  function WalkChild(slugify: Slugger, c: Child, seen: Seen): (seq<Entry>, Seen)
    decreases c, 2
  {
    if c.Element? then WalkNode(slugify, c.node, seen) else ([], seen)
  }

  function ExtractHeadingToc(slugify: Slugger, root: seq<Child>): seq<Entry> {
    Walk(slugify, root, map[]).0
  }

  // The walk as the source runs it: one output list and one counter map for the whole document.
  class Toc {
    var out: seq<Entry>
    var seen: Seen

    constructor ()
      ensures out == [] && seen == map[]
    {
      out, seen := [], map[];
    }

    method WalkInto(slugify: Slugger, ns: seq<Child>)
      modifies this
      ensures out == old(out) + Walk(slugify, ns, old(seen)).0
      ensures seen == Walk(slugify, ns, old(seen)).1
      decreases ns
    {
      hide HeadingEntry;
      var i := 0;
      while i < |ns|
        invariant i <= |ns|
        invariant out + Walk(slugify, ns[i..], seen).0 == old(out) + Walk(slugify, ns, old(seen)).0
        invariant Walk(slugify, ns[i..], seen).1 == Walk(slugify, ns, old(seen)).1
      {
        assert ns[i..][0] == ns[i] && ns[i..][1..] == ns[i + 1..];
        ghost var (out0, head) := (out, WalkChild(slugify, ns[i], seen).0);
        VisitChild(slugify, ns[i]);
        assert out + Walk(slugify, ns[i + 1..], seen).0 == out0 + (head + Walk(slugify, ns[i + 1..], seen).0);
        i := i + 1;
      }
      assert out + [] == out;
    }

    method VisitChild(slugify: Slugger, c: Child)
      modifies this
      ensures out == old(out) + WalkChild(slugify, c, old(seen)).0
      ensures seen == WalkChild(slugify, c, old(seen)).1
      decreases c, 1
    {
      if c.Element? {
        Visit(slugify, c.node);
      }
    }

    method Visit(slugify: Slugger, n: Node)
      modifies this
      ensures out == old(out) + WalkNode(slugify, n, old(seen)).0
      ensures seen == WalkNode(slugify, n, old(seen)).1
      decreases n, 0
    {
      hide HeadingEntry;
      if n.kind == Heading {
        var entry := HeadingEntry(slugify, n, seen);
        seen := entry.1;
        if entry.0.Some? {
          out := out + [entry.0.value];
        }
      }
      if !Leaf(n.kind) {
        WalkInto(slugify, n.children);
      }
    }
  }

  // ---- the renderer ----

  // A rendered element: its id, if it has one, and what it contains.
  datatype Html = Html(id: Option<Text>, children: seq<Html>)

  const PLAIN := Html(None, [])

  function RenderNode(slugify: Slugger, anchors: bool, n: Node, seen: Seen): (Option<Html>, Seen)
    decreases n, 1
  {
    match n.kind
    case TextType => (Some(PLAIN), seen)
    case Image => (Some(PLAIN), seen)
    case Code => (Some(Html(None, [PLAIN])), seen)
    case HorizontalRule => (Some(PLAIN), seen)
    case LineBreak => (Some(PLAIN), seen)
    case Heading =>
      var (entry, seen1) := HeadingEntry(slugify, n, seen);
      var (inner, seen2) := RenderChildren(slugify, anchors, n.children, seen1);
      var id := if entry.Some? then Some(entry.value.id) else None;
      (Some(Html(id, inner + if anchors && id.Some? then [PLAIN] else [])), seen2)
    case OtherType =>
      var (inner, seen1) := RenderChildren(slugify, anchors, n.children, seen);
      (if forall i :: 0 <= i < |n.children| ==> n.children[i].NotObject? then None else Some(Html(None, inner)), seen1)
    case _ =>
      var (inner, seen1) := RenderChildren(slugify, anchors, n.children, seen);
      (Some(Html(None, inner)), seen1)
  }

  function RenderChildren(slugify: Slugger, anchors: bool, ns: seq<Child>, seen: Seen): (seq<Html>, Seen)
    decreases ns, 0
  {
    if ns == [] then ([], seen)
    else
      var (head, seen1) := RenderChild(slugify, anchors, ns[0], seen);
      var (rest, seen2) := RenderChildren(slugify, anchors, ns[1..], seen1);
      ((if head.Some? then [head.value] else []) + rest, seen2)
  }

  function RenderChild(slugify: Slugger, anchors: bool, c: Child, seen: Seen): (Option<Html>, Seen)
    decreases c, 2
  {
    if c.Element? then RenderNode(slugify, anchors, c.node, seen) else (None, seen)
  }

  function RenderRichText(slugify: Slugger, anchors: bool, root: seq<Child>): seq<Html> {
    RenderChildren(slugify, anchors, root, map[]).0
  }

  // The ids of rendered elements, in document order.
  function HtmlIds(h: Html): seq<Text>
    decreases h, 1
  {
    (if h.id.Some? then [h.id.value] else []) + AllIds(h.children)
  }

  function AllIds(hs: seq<Html>): seq<Text>
    decreases hs, 0
  {
    if hs == [] then [] else HtmlIds(hs[0]) + AllIds(hs[1..])
  }

  function EntryIds(es: seq<Entry>): seq<Text> {
    if es == [] then [] else [es[0].id] + EntryIds(es[1..])
  }
}
