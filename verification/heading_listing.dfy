/** Which headings the table of contents lists, and with what text. */
module HeadingListing {
  import opened Common
  import opened Utf8
  import opened Ascii
  import opened Whitespace
  import opened Headings

  // ---- the nodes of a document, in order ----

  // Every node of a subtree, down to texts and line breaks.
  function Subtree(n: Node): seq<Node>
    decreases n, 1
  {
    [n] + if n.kind == TextType || n.kind == LineBreak then [] else Subtrees(n.children)
  }

  function Subtrees(cs: seq<Child>): seq<Node>
    decreases cs, 0
  {
    if cs == [] then [] else ChildSubtree(cs[0]) + Subtrees(cs[1..])
  }

  function ChildSubtree(c: Child): seq<Node>
    decreases c, 2
  {
    if c.Element? then Subtree(c.node) else []
  }

  // Every node that is rendered as rich text: code, images and the like have no rendered children.
  function Rendered(n: Node): seq<Node>
    decreases n, 1
  {
    [n] +
    match n.kind
    case TextType => []
    case Code => []
    case Image => []
    case HorizontalRule => []
    case LineBreak => []
    case _ => AllRendered(n.children)
  }

  function AllRendered(cs: seq<Child>): seq<Node>
    decreases cs, 0
  {
    if cs == [] then [] else ChildRendered(cs[0]) + AllRendered(cs[1..])
  }

  function ChildRendered(c: Child): seq<Node>
    decreases c, 2
  {
    if c.Element? then Rendered(c.node) else []
  }

  // What the nodes say, one after the other.
  function Said(ns: seq<Node>): Text {
    if ns == [] then []
    else
      (match ns[0].kind
       case TextType => ns[0].text
       case LineBreak => [10]
       case _ => [])
      + Said(ns[1..])
  }

  function TextOf(n: Node): Text { Said(Subtree(n)) }

  // A heading of the second or third level that says more than white space.
  predicate Titled(n: Node) {
    n.kind == Heading && (n.tag == Lit("h2") || n.tag == Lit("h3")) && exists u <- TextOf(n) :: !Space(u)
  }

  function Titles(ns: seq<Node>): seq<Node> {
    if ns == [] then [] else (if Titled(ns[0]) then [ns[0]] else []) + Titles(ns[1..])
  }

  // ---- the walk lists them ----

  lemma {:induction false} SaidConcat(a: seq<Node>, b: seq<Node>)
    ensures Said(a + b) == Said(a) + Said(b)
  {
    if a == [] {
      assert a + b == b;
    } else {
      assert (a + b)[1..] == a[1..] + b;
      SaidConcat(a[1..], b);
    }
  }

  lemma {:induction false} TitlesConcat(a: seq<Node>, b: seq<Node>)
    ensures Titles(a + b) == Titles(a) + Titles(b)
  {
    hide Titled, TextOf;
    if a == [] {
      assert a + b == b && Titles(a) == [];
    } else {
      var own := if Titled(a[0]) then [a[0]] else [];
      assert (a + b)[1..] == a[1..] + b && (a + b)[0] == a[0];
      TitlesConcat(a[1..], b);
      assert own + (Titles(a[1..]) + Titles(b)) == own + Titles(a[1..]) + Titles(b);
    }
  }

  lemma {:induction false} NodeSays(n: Node)
    ensures NodeText(n) == TextOf(n)
    decreases n, 1
  {
    if n.kind == TextType || n.kind == LineBreak {
      assert [n] + [] == [n] && Said([n][1..]) == [];
    } else {
      ChildrenSay(n.children);
      assert ([n] + Subtrees(n.children))[1..] == Subtrees(n.children);
    }
  }

  lemma {:induction false} ChildrenSay(cs: seq<Child>)
    ensures NodesText(cs) == Said(Subtrees(cs))
    decreases cs, 0
  {
    if cs != [] {
      ChildrenSay(cs[1..]);
      ChildSays(cs[0]);
      SaidConcat(ChildSubtree(cs[0]), Subtrees(cs[1..]));
    }
  }

  lemma {:induction false} ChildSays(c: Child)
    ensures ChildText(c) == Said(ChildSubtree(c))
    decreases c, 2
  {
    if c.Element? {
      NodeSays(c.node);
    }
  }

  // The entries list the titles, in order.
  ghost predicate Lists(es: seq<Entry>, ns: seq<Node>) {
    && |es| == |ns|
    && forall i :: 0 <= i < |es| ==>
         es[i].text == Trim(TextOf(ns[i])) && es[i].level == (if ns[i].tag == Lit("h2") then 2 else 3)
  }

  lemma ListsConcat(a: seq<Entry>, b: seq<Entry>, ns: seq<Node>, ms: seq<Node>)
    requires Lists(a, ns) && Lists(b, ms)
    ensures Lists(a + b, ns + ms)
  {
    hide TextOf;
  }

  lemma EntryIsTitle(slugify: Slugger, n: Node, seen: Seen)
    requires n.kind == Heading
    ensures var (own, _) := HeadingEntry(slugify, n, seen);
      own.Some? == Titled(n) && (own.Some? ==> Lists([own.value], [n]))
  {
    hide NodeText, TextOf, Trim;
    NodeSays(n);
    TrimIsEmpty(TextOf(n));
  }

  lemma {:induction false} NodeLists(slugify: Slugger, n: Node, seen: Seen)
    ensures Lists(WalkNode(slugify, n, seen).0, Titles(Rendered(n)))
    decreases n, 1
  {
    hide HeadingEntry, Titled, Walk, Lists;
    var rest := if Leaf(n.kind) then [] else AllRendered(n.children);
    assert Rendered(n) == [n] + rest;
    TitlesConcat([n], rest);
    NoTitles(n);
    NothingListed();
    if n.kind == Heading {
      EntryIsTitle(slugify, n, seen);
    }
    var (own, seen1) := if n.kind == Heading then HeadingEntry(slugify, n, seen) else (None, seen);
    var head := if own.Some? then [own.value] else [];
    assert Lists(head, Titles([n]));
    if !Leaf(n.kind) {
      ChildrenList(slugify, n.children, seen1);
      ListsConcat(head, Walk(slugify, n.children, seen1).0, Titles([n]), Titles(rest));
    } else {
      assert Titles(rest) == [] && Titles([n]) + [] == Titles([n]);
    }
  }

  lemma NoTitles(n: Node)
    ensures Titles([n]) == (if Titled(n) then [n] else []) && (n.kind != Heading ==> !Titled(n))
  {
    hide TextOf;
    assert [n][1..] == [] && (if Titled(n) then [n] else []) + [] == if Titled(n) then [n] else [];
  }

  lemma NothingListed()
    ensures Lists([], []) && Titles([]) == []
  {
  }

  lemma {:induction false} ChildrenList(slugify: Slugger, cs: seq<Child>, seen: Seen)
    ensures Lists(Walk(slugify, cs, seen).0, Titles(AllRendered(cs)))
    decreases cs, 0
  {
    hide WalkNode, Lists, Titled;
    NothingListed();
    if cs != [] {
      var (head, seen1) := WalkChild(slugify, cs[0], seen);
      var first := ChildRendered(cs[0]);
      TitlesConcat(first, AllRendered(cs[1..]));
      ChildLists(slugify, cs[0], seen);
      ChildrenList(slugify, cs[1..], seen1);
      ListsConcat(head, Walk(slugify, cs[1..], seen1).0, Titles(first), Titles(AllRendered(cs[1..])));
    }
  }

  lemma {:induction false} ChildLists(slugify: Slugger, c: Child, seen: Seen)
    ensures Lists(WalkChild(slugify, c, seen).0, Titles(ChildRendered(c)))
    decreases c, 2
  {
    hide WalkNode, Lists, Titled;
    NothingListed();
    if c.Element? {
      NodeLists(slugify, c.node, seen);
    }
  }

  /**
   * The table of contents lists exactly the rendered headings of the second and third level that say something, in
   * document order, each with its trimmed text and its level.
   */
  lemma TocListsTitles(slugify: Slugger, root: seq<Child>)
    ensures var (es, titles) := (ExtractHeadingToc(slugify, root), Titles(AllRendered(root)));
      && |es| == |titles|
      && forall i :: 0 <= i < |es| ==>
           es[i].text == Trim(TextOf(titles[i])) && es[i].level == (if titles[i].tag == Lit("h2") then 2 else 3)
  {
    hide Walk, Titled, TextOf;
    ChildrenList(slugify, root, map[]);
  }
}
