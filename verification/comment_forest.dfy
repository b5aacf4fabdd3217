/** Turning a list of comments with parent links into a forest of mutable nodes. */
module CommentForest {
  import opened Common
  import opened Utf8

  type Text = seq<Unit>

  // An empty parent id counts as none.
  datatype Comment = Comment(id: Text, parentId: Option<Text>, body: Text)

  function Parent(c: Comment): Option<Text> {
    if c.parentId == Some([]) then None else c.parentId
  }

  // The comment filed under an id: the last one that has it.
  function Filed(cs: seq<Comment>, id: Text): Option<Comment> {
    if cs == [] then None
    else if cs[|cs| - 1].id == id then Some(cs[|cs| - 1])
    else Filed(cs[..|cs| - 1], id)
  }

  function Ids(cs: seq<Comment>): set<Text> {
    set i | 0 <= i < |cs| :: cs[i].id
  }

  lemma {:induction false} FiledIds(cs: seq<Comment>, id: Text)
    ensures Filed(cs, id).Some? <==> id in Ids(cs)
    ensures Filed(cs, id).Some? ==> Filed(cs, id).value in cs && Filed(cs, id).value.id == id
  {
    if cs != [] {
      FiledIds(cs[..|cs| - 1], id);
      assert forall i :: 0 <= i < |cs| - 1 ==> cs[..|cs| - 1][i] == cs[i];
      assert id in Ids(cs) <==> cs[|cs| - 1].id == id || id in Ids(cs[..|cs| - 1]);
    }
  }

  // The link of the comment filed under an id.
  function Link(cs: seq<Comment>, id: Text): Option<Text> {
    match Filed(cs, id)
    case None => None
    case Some(c) => Parent(c)
  }

  // Whether following links from p meets an id already visited.
  predicate Meets(cs: seq<Comment>, visited: set<Text>, p: Option<Text>)
    decreases |Ids(cs) - visited|, if p.Some? && p.value !in Ids(cs) then 1 else 0
  {
    if p.None? then false
    else if p.value in visited then true
    else if p.value !in Ids(cs) then false
    else
      assert Ids(cs) - (visited + {p.value}) < Ids(cs) - visited by {
        assert p.value in Ids(cs) - visited && p.value !in Ids(cs) - (visited + {p.value});
      }
      SmallerSet(Ids(cs) - (visited + {p.value}), Ids(cs) - visited);
      Meets(cs, visited + {p.value}, Link(cs, p.value))
  }

  lemma {:induction false} SmallerSet(a: set<Text>, b: set<Text>)
    requires a < b
    ensures |a| < |b|
  {
    var x :| x in b && x !in a;
    SubsetSize(a, b - {x});
  }

  lemma {:induction false} SubsetSize(a: set<Text>, b: set<Text>)
    requires a <= b
    ensures |a| <= |b|
  {
    if a != {} {
      var x :| x in a;
      SubsetSize(a - {x}, b - {x});
    }
  }

  predicate HasParentCycle(cs: seq<Comment>, c: Comment) {
    Meets(cs, {c.id}, Parent(c))
  }

  predicate Attached(cs: seq<Comment>, c: Comment) {
    Parent(c).Some? && Parent(c).value in Ids(cs) && !HasParentCycle(cs, c)
  }

  predicate Detached(cs: seq<Comment>, c: Comment) { Parent(c).Some? && !Attached(cs, c) }

  // The comments of `from` that become roots, and those that become children of id, in order.
  function Roots(cs: seq<Comment>, from: seq<Comment>): seq<Comment> {
    if from == [] then []
    else
      var before := Roots(cs, from[..|from| - 1]);
      if Attached(cs, from[|from| - 1]) then before else before + [from[|from| - 1]]
  }

  function Children(cs: seq<Comment>, from: seq<Comment>, id: Text): seq<Comment> {
    if from == [] then []
    else
      var (before, last) := (Children(cs, from[..|from| - 1], id), from[|from| - 1]);
      if Attached(cs, last) && Parent(last) == Some(id) then before + [last] else before
  }

  // ---- the builder ----

  class TreeNode {
    const comment: Comment
    var children: seq<TreeNode>
    var detached: bool

    constructor (c: Comment)
      ensures comment == c && children == [] && !detached
    {
      comment, children, detached := c, [], false;
    }
  }

  type NodeMap = map<Text, TreeNode>

  ghost predicate Complete(cs: seq<Comment>, ns: NodeMap) {
    && ns.Keys == Ids(cs)
    && (forall id :: id in ns ==> Filed(cs, id) == Some(ns[id].comment))
  }

  // The nodes are those of the listed comments, in order.
  ghost predicate Shows(ns: NodeMap, nodes: seq<TreeNode>, cs: seq<Comment>) {
    |nodes| == |cs| && forall i :: 0 <= i < |cs| ==> cs[i].id in ns && nodes[i] == ns[cs[i].id]
  }

  method ParentCycle(cs: seq<Comment>, ns: NodeMap, c: Comment) returns (r: bool)
    requires Complete(cs, ns)
    ensures r == HasParentCycle(cs, c)
  {
    var visited := {c.id};
    var p := Parent(c);
    while p.Some?
      invariant HasParentCycle(cs, c) == Meets(cs, visited, p)
      decreases |Ids(cs) - visited|, if p.None? then 0 else if p.value in Ids(cs) then 1 else 2
    {
      if p.value in visited {
        return true;
      }
      ghost var left := Ids(cs) - visited;
      visited := visited + {p.value};
      FiledIds(cs, p.value);
      assert p.value in Ids(cs) ==> p.value in left && Ids(cs) - visited < left;
      if p.value in Ids(cs) {
        SmallerSet(Ids(cs) - visited, left);
      } else {
        assert Ids(cs) - visited == left;
      }
      p := if p.value in ns then Parent(ns[p.value].comment) else None;
    }
    return false;
  }

  method CreateNodes(cs: seq<Comment>) returns (ns: NodeMap)
    ensures Complete(cs, ns)
    ensures forall id :: id in ns ==> fresh(ns[id]) && ns[id].children == [] && !ns[id].detached
  {
    ns := map[];
    var i := 0;
    while i < |cs|
      invariant i <= |cs| && Complete(cs[..i], ns)
      invariant forall id :: id in ns ==> fresh(ns[id]) && ns[id].children == [] && !ns[id].detached
    {
      var node := new TreeNode(cs[i]);
      assert cs[..i + 1][..i] == cs[..i] && cs[..i + 1][i] == cs[i];
      assert Ids(cs[..i + 1]) == Ids(cs[..i]) + {cs[i].id} by {
        assert forall j :: 0 <= j < i ==> cs[..i][j] == cs[..i + 1][j];
      }
      ns := ns[cs[i].id := node];
      i := i + 1;
    }
    assert cs[..i] == cs;
  }

  // Whether a comment of `from` with this id is a detached root.
  predicate Marked(cs: seq<Comment>, from: seq<Comment>, id: Text) {
    exists i :: 0 <= i < |from| && from[i].id == id && Detached(cs, from[i])
  }

  // What a node holds after the comments of `done` have been placed.
  ghost predicate NodePlaced(cs: seq<Comment>, done: seq<Comment>, ns: NodeMap, id: Text)
    requires id in ns
    reads ns[id]
  {
    Shows(ns, ns[id].children, Children(cs, done, id)) && (ns[id].detached <==> Marked(cs, done, id))
  }

  ghost predicate Placed(cs: seq<Comment>, done: seq<Comment>, ns: NodeMap)
    reads ns.Values
  {
    forall id :: id in ns ==> NodePlaced(cs, done, ns, id)
  }

  lemma ListsGrow(cs: seq<Comment>, done: seq<Comment>, c: Comment, id: Text)
    ensures Children(cs, done + [c], id) ==
      Children(cs, done, id) + if Attached(cs, c) && Parent(c) == Some(id) then [c] else []
    ensures Roots(cs, done + [c]) == Roots(cs, done) + if Attached(cs, c) then [] else [c]
    ensures Marked(cs, done + [c], id) <==> Marked(cs, done, id) || (c.id == id && Detached(cs, c))
  {
    hide Attached;
    var more := done + [c];
    assert more[..|done|] == done && more[|done|] == c;
    assert forall i :: 0 <= i < |done| ==> more[i] == done[i];
  }

  // Different ids have different nodes.
  lemma OwnIds(cs: seq<Comment>, ns: NodeMap)
    requires Complete(cs, ns)
    ensures forall id :: id in ns ==> ns[id].comment.id == id
  {
    forall id | id in ns ensures ns[id].comment.id == id {
      FiledIds(cs, id);
    }
  }

  ghost predicate OneNodePerId(ns: NodeMap) {
    forall id, id' :: id in ns && id' in ns && id != id' ==> ns[id] != ns[id']
  }

  method AddRoot(cs: seq<Comment>, ns: NodeMap, ghost done: seq<Comment>, c: Comment, roots: seq<TreeNode>)
    returns (r: seq<TreeNode>)
    requires OneNodePerId(ns) && Placed(cs, done, ns) && c.id in ns && Shows(ns, roots, Roots(cs, done))
    requires !Attached(cs, c)
    modifies ns.Values
    ensures Placed(cs, done + [c], ns) && Shows(ns, r, Roots(cs, done + [c]))
  {
    hide Children, Roots, Marked, Attached;
    ListsGrow(cs, done, c, c.id);
    forall id ensures Children(cs, done + [c], id) == Children(cs, done, id)
      ensures Marked(cs, done + [c], id) <==> Marked(cs, done, id) || (c.id == id && Detached(cs, c))
    {
      ListsGrow(cs, done, c, id);
    }
    if Parent(c).Some? {
      ns[c.id].detached := true;
    }
    r := roots + [ns[c.id]];
  }

  method AddChild(cs: seq<Comment>, ns: NodeMap, ghost done: seq<Comment>, c: Comment, ghost roots: seq<TreeNode>)
    requires OneNodePerId(ns) && Placed(cs, done, ns) && c.id in ns && Shows(ns, roots, Roots(cs, done))
    requires Attached(cs, c) && Parent(c).value in ns
    modifies ns.Values
    ensures Placed(cs, done + [c], ns) && Shows(ns, roots, Roots(cs, done + [c]))
  {
    hide Children, Roots, Marked, HasParentCycle;
    ListsGrow(cs, done, c, c.id);
    forall id ensures Children(cs, done + [c], id) == Children(cs, done, id) + if Parent(c) == Some(id) then [c] else []
      ensures Marked(cs, done + [c], id) <==> Marked(cs, done, id)
    {
      ListsGrow(cs, done, c, id);
    }
    var parent := ns[Parent(c).value];
    parent.children := parent.children + [ns[c.id]];
  }

  // One turn of the loop.
  method Place(cs: seq<Comment>, ns: NodeMap, ghost done: seq<Comment>, c: Comment, roots: seq<TreeNode>)
    returns (r: seq<TreeNode>)
    requires Complete(cs, ns) && Placed(cs, done, ns) && c.id in ns && Shows(ns, roots, Roots(cs, done))
    modifies ns.Values
    ensures Placed(cs, done + [c], ns) && Shows(ns, r, Roots(cs, done + [c]))
  {
    hide Children, Roots, Marked, HasParentCycle, Placed, Shows;
    OwnIds(cs, ns);
    r := roots;
    var cyclic := ParentCycle(cs, ns, c);
    if Parent(c).None? || Parent(c).value !in ns || cyclic {
      r := AddRoot(cs, ns, done, c, roots);
    } else {
      AddChild(cs, ns, done, c, roots);
    }
  }

  /** The builder places every comment as the lists say, and marks the detached ones. */
  method BuildCommentTree(cs: seq<Comment>) returns (roots: seq<TreeNode>, ghost nodes: NodeMap)
    ensures Complete(cs, nodes) && Placed(cs, cs, nodes) && Shows(nodes, roots, Roots(cs, cs))
    ensures forall id :: id in nodes ==> fresh(nodes[id])
  {
    hide Children, Roots, Marked, HasParentCycle, Complete;
    var ns := CreateNodes(cs);
    NothingPlaced(cs, ns);
    nodes := ns;
    roots := [];
    var i := 0;
    while i < |cs|
      invariant i <= |cs| && Placed(cs, cs[..i], ns) && Shows(ns, roots, Roots(cs, cs[..i]))
    {
      assert cs[..i + 1] == cs[..i] + [cs[i]];
      assert cs[i].id in ns by {
        AllHaveNodes(cs, ns, i);
      }
      roots := Place(cs, ns, cs[..i], cs[i], roots);
      i := i + 1;
    }
    assert cs[..i] == cs;
  }

  lemma NothingPlaced(cs: seq<Comment>, ns: NodeMap)
    requires forall id :: id in ns ==> ns[id].children == [] && !ns[id].detached
    ensures Placed(cs, [], ns) && Shows(ns, [], Roots(cs, []))
    ensures cs[..0] == []
  {
  }

  lemma AllHaveNodes(cs: seq<Comment>, ns: NodeMap, i: nat)
    requires Complete(cs, ns) && i < |cs|
    ensures cs[i].id in ns
  {
    assert cs[i].id in Ids(cs);
  }
}
