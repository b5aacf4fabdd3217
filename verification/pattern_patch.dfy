/** Replacing the props of blocks in place, through a map from id to node. */
module PatternPatch {
  import opened Common
  import opened Utf8
  import opened Utf8Order
  import opened JsonBytes

  type Text = seq<Unit>

  // A block's value. `fixed` stands for its type and layout.
  datatype Tree = Tree(id: Text, fixed: Text, props: Json, children: seq<Tree>)

  datatype Patch = Patch(id: Text, props: Json)

  class BlockNode {
    const id: Text
    const fixed: Text
    const children: seq<BlockNode>
    ghost const height: nat
    var props: Json

    // The nodes form a tree over their children.
    ghost predicate Valid()
      decreases height, 0
    {
      forall i :: 0 <= i < |children| ==> children[i].height < height && children[i].Valid()
    }
  }

  ghost predicate AllValid(bs: seq<BlockNode>) {
    forall i :: 0 <= i < |bs| ==> bs[i].Valid()
  }

  ghost predicate Below(bs: seq<BlockNode>, h: nat) {
    forall i :: 0 <= i < |bs| ==> bs[i].height < h
  }

  // ---- the nodes of a forest, parents first ----

  ghost function Nodes(b: BlockNode): seq<BlockNode>
    requires b.Valid()
    decreases b.height, 1, 0
  {
    [b] + NodesOf(b.children, b.height)
  }

  ghost function NodesOf(bs: seq<BlockNode>, h: nat): seq<BlockNode>
    requires AllValid(bs) && Below(bs, h)
    decreases h, 0, |bs|
  {
    if bs == [] then [] else Nodes(bs[0]) + NodesOf(bs[1..], h)
  }

  // The props every node holds now.
  ghost function Snapshot(ns: set<BlockNode>): map<BlockNode, Json>
    reads ns
  {
    map n | n in ns :: n.props
  }

  ghost function Shown(b: BlockNode, held: map<BlockNode, Json>): Tree
    requires b.Valid() && forall n :: n in Nodes(b) ==> n in held
    decreases b.height, 1, 0
  {
    Tree(b.id, b.fixed, held[b], ShownAll(b.children, b.height, held))
  }

  ghost function ShownAll(bs: seq<BlockNode>, h: nat, held: map<BlockNode, Json>): seq<Tree>
    requires AllValid(bs) && Below(bs, h) && forall n :: n in NodesOf(bs, h) ==> n in held
    decreases h, 0, |bs|
  {
    if bs == [] then [] else [Shown(bs[0], held)] + ShownAll(bs[1..], h, held)
  }

  // ---- the map from ids to nodes ----

  ghost function Indexed(ns: seq<BlockNode>, byId: map<Text, BlockNode>): map<Text, BlockNode> {
    if ns == [] then byId else Indexed(ns[1..], byId[ns[0].id := ns[0]])
  }

  lemma {:induction false} IndexedConcat(a: seq<BlockNode>, b: seq<BlockNode>, byId: map<Text, BlockNode>)
    ensures Indexed(a + b, byId) == Indexed(b, Indexed(a, byId))
  {
    if a == [] {
      assert a + b == b;
    } else {
      assert (a + b)[1..] == a[1..] + b;
      IndexedConcat(a[1..], b, byId[a[0].id := a[0]]);
    }
  }

  // No two nodes share an id, so the forest holds no node twice either.
  ghost predicate UniqueIds(ns: seq<BlockNode>) {
    forall i, j :: 0 <= i < j < |ns| ==> ns[i].id != ns[j].id
  }

  lemma {:induction false} IndexedFinds(ns: seq<BlockNode>, byId: map<Text, BlockNode>)
    requires UniqueIds(ns)
    ensures forall i :: 0 <= i < |ns| ==> ns[i].id in Indexed(ns, byId) && Indexed(ns, byId)[ns[i].id] == ns[i]
    ensures forall id :: id in Indexed(ns, byId) ==> id in byId || exists i :: 0 <= i < |ns| && ns[i].id == id
    ensures forall id :: id in byId && (forall i :: 0 <= i < |ns| ==> ns[i].id != id) ==>
      id in Indexed(ns, byId) && Indexed(ns, byId)[id] == byId[id]
  {
    if ns != [] {
      var rest := ns[1..];
      assert forall i :: 0 <= i < |rest| ==> rest[i] == ns[i + 1];
      IndexedFinds(rest, byId[ns[0].id := ns[0]]);
    }
  }

  method Collect(bs: seq<BlockNode>, ghost h: nat, byId: map<Text, BlockNode>) returns (r: map<Text, BlockNode>)
    requires AllValid(bs) && Below(bs, h)
    ensures r == Indexed(NodesOf(bs, h), byId)
    decreases h
  {
    r := byId;
    var i := 0;
    while i < |bs|
      invariant i <= |bs|
      invariant Indexed(NodesOf(bs, h), byId) == Indexed(NodesOf(bs[i..], h), r)
    {
      assert bs[i..][0] == bs[i] && bs[i..][1..] == bs[i + 1..];
      IndexedConcat(Nodes(bs[i]), NodesOf(bs[i + 1..], h), r);
      ghost var below := NodesOf(bs[i].children, bs[i].height);
      assert ([bs[i]] + below)[1..] == below;
      r := r[bs[i].id := bs[i]];
      r := Collect(bs[i].children, bs[i].height, r);
      i := i + 1;
    }
  }

  // ---- the patches ----

  predicate IdUnit(u: Unit) {
    'A' as int <= u <= 'Z' as int || 'a' as int <= u <= 'z' as int || '0' as int <= u <= '9' as int
    || u == '.' as int || u == '_' as int || u == '-' as int
  }

  predicate Identifier(id: Text) {
    1 <= |id| <= 128 && (forall i :: 0 <= i < |id| ==> IdUnit(id[i]))
    && id[0] != '.' as int && id[0] != '_' as int && id[0] != '-' as int
  }

  predicate InOrder(ps: seq<Patch>) {
    (forall i :: 0 <= i < |ps| ==> Identifier(ps[i].id)) &&
    (forall i :: 0 < i < |ps| ==> Order(ps[i - 1].id, ps[i].id) < 0)
  }

  function PatchMap(ps: seq<Patch>): map<Text, Json> {
    if ps == [] then map[] else PatchMap(ps[..|ps| - 1])[ps[|ps| - 1].id := ps[|ps| - 1].props]
  }

  /** Comparing neighbours sorts the whole list strictly, so no id is patched twice. */
  lemma {:induction false} NeighboursSuffice(ps: seq<Patch>, i: nat, j: nat)
    requires InOrder(ps) && i < j < |ps|
    ensures Order(ps[i].id, ps[j].id) < 0 && ps[i].id != ps[j].id
    decreases j
  {
    IdentifierWellFormed(ps[i].id);
    IdentifierWellFormed(ps[j].id);
    IdentifierWellFormed(ps[j - 1].id);
    assert Order(ps[j - 1].id, ps[j].id) < 0;
    if i < j - 1 {
      NeighboursSuffice(ps, i, j - 1);
    }
    OrderIsTotal(ps[i].id, ps[j - 1].id, ps[j].id);
    OrderIsTotal(ps[i].id, ps[j].id, ps[j].id);
  }

  lemma IdentifierWellFormed(id: Text)
    requires Identifier(id)
    ensures WellFormed(id)
  {
    assert forall i :: 0 <= i < |id| ==> IdUnit(id[i]);
    PlainWellFormed(id);
  }

  // ---- the pure form ----

  function PatchTree(t: Tree, m: map<Text, Json>): Tree
    decreases t, 1
  {
    Tree(t.id, t.fixed, if t.id in m then m[t.id] else t.props, PatchForest(t.children, m))
  }

  function PatchForest(ts: seq<Tree>, m: map<Text, Json>): (r: seq<Tree>)
    ensures |r| == |ts|
    decreases ts, 0
  {
    if ts == [] then [] else [PatchTree(ts[0], m)] + PatchForest(ts[1..], m)
  }

  ghost predicate Patched(ns: seq<BlockNode>, m: map<Text, Json>, held: map<BlockNode, Json>,
                          held': map<BlockNode, Json>)
  {
    forall n :: n in ns ==>
      n in held && n in held' && held'[n] == (if n.id in m then m[n.id] else held[n])
  }

  lemma {:induction false} ShownPatched(b: BlockNode, m: map<Text, Json>, held: map<BlockNode, Json>,
                                        held': map<BlockNode, Json>)
    requires b.Valid() && Patched(Nodes(b), m, held, held')
    ensures Shown(b, held') == PatchTree(Shown(b, held), m)
    decreases b.height, 1, 0
  {
    ShownAllPatched(b.children, b.height, m, held, held');
  }

  lemma {:induction false} ShownAllPatched(bs: seq<BlockNode>, h: nat, m: map<Text, Json>,
                                           held: map<BlockNode, Json>, held': map<BlockNode, Json>)
    requires AllValid(bs) && Below(bs, h) && Patched(NodesOf(bs, h), m, held, held')
    ensures ShownAll(bs, h, held') == PatchForest(ShownAll(bs, h, held), m)
    decreases h, 0, |bs|
  {
    if bs != [] {
      ShownPatched(bs[0], m, held, held');
      ShownAllPatched(bs[1..], h, m, held, held');
      assert ShownAll(bs, h, held)[1..] == ShownAll(bs[1..], h, held);
    }
  }

  ghost predicate Named(ns: seq<BlockNode>, id: Text) {
    exists n :: n in ns && n.id == id
  }

  // Patch i has an identifier that names a block and comes after the one before it.
  ghost predicate GoodPatch(ns: seq<BlockNode>, ps: seq<Patch>, i: nat)
    requires i < |ps|
  {
    Identifier(ps[i].id) && (i > 0 ==> Order(ps[i - 1].id, ps[i].id) < 0) && Named(ns, ps[i].id)
  }

  ghost predicate Index(ns: seq<BlockNode>, byId: map<Text, BlockNode>) {
    && (forall n :: n in ns ==> n.id in byId && byId[n.id] == n)
    && (forall id :: id in byId ==> byId[id] in ns && byId[id].id == id)
  }

  lemma IndexedIsIndex(ns: seq<BlockNode>)
    requires UniqueIds(ns)
    ensures Index(ns, Indexed(ns, map[]))
  {
    IndexedFinds(ns, map[]);
  }

  method CheckPatch(byId: map<Text, BlockNode>, ghost ns: seq<BlockNode>, ps: seq<Patch>, k: nat) returns (ok: bool)
    requires k < |ps| && Index(ns, byId)
    ensures ok <==> GoodPatch(ns, ps, k)
  {
    if !Identifier(ps[k].id) {
      return false;
    }
    if k > 0 {
      var order := CompareUtf8(ps[k - 1].id, ps[k].id);
      if order >= 0 {
        return false;
      }
    }
    return ps[k].id in byId;
  }

  // One write: the node of the patch, and only that node, takes the new props.
  method WriteProps(byId: map<Text, BlockNode>, ghost ns: seq<BlockNode>, patch: Patch,
                    ghost m: map<Text, Json>, ghost held: map<BlockNode, Json>)
    requires Index(ns, byId) && patch.id in byId
    requires Patched(ns, m, held, Snapshot(set n | n in ns))
    modifies set n | n in ns
    ensures Patched(ns, m[patch.id := patch.props], held, Snapshot(set n | n in ns))
  {
    byId[patch.id].props := patch.props;
  }

  /**
   * When every patch is in order and names a block, writing the props through the id map gives exactly the
   * patched tree; otherwise the call is refused.
   */
  method ApplyPatches(bs: seq<BlockNode>, ghost h: nat, patches: seq<Patch>) returns (ok: bool)
    requires AllValid(bs) && Below(bs, h) && UniqueIds(NodesOf(bs, h))
    modifies set n | n in NodesOf(bs, h)
    ensures ok <==> forall i :: 0 <= i < |patches| ==> GoodPatch(NodesOf(bs, h), patches, i)
    ensures ok ==>
      ShownAll(bs, h, Snapshot(set n | n in NodesOf(bs, h))) ==
      PatchForest(old(ShownAll(bs, h, Snapshot(set n | n in NodesOf(bs, h)))), PatchMap(patches))
  {
    hide Indexed, UniqueIds, Index, GoodPatch;
    ghost var nodes := NodesOf(bs, h);
    ghost var held := Snapshot(set n | n in nodes);
    var byId := Collect(bs, h, map[]);
    IndexedIsIndex(nodes);
    var k := 0;
    while k < |patches|
      invariant k <= |patches|
      invariant forall i :: 0 <= i < k ==> GoodPatch(nodes, patches, i)
      invariant Patched(nodes, PatchMap(patches[..k]), held, Snapshot(set n | n in nodes))
    {
      var good := CheckPatch(byId, nodes, patches, k);
      if !good {
        return false;
      }
      assert patches[..k + 1][..k] == patches[..k];
      GoodPatchIsIndexed(nodes, byId, patches, k);
      WriteProps(byId, nodes, patches[k], PatchMap(patches[..k]), held);
      k := k + 1;
    }
    assert patches[..k] == patches;
    ShownAllPatched(bs, h, PatchMap(patches), held, Snapshot(set n | n in nodes));
    return true;
  }

  lemma GoodPatchIsIndexed(ns: seq<BlockNode>, byId: map<Text, BlockNode>, ps: seq<Patch>, k: nat)
    requires k < |ps| && Index(ns, byId) && GoodPatch(ns, ps, k)
    ensures ps[k].id in byId
  {
  }

  // ---- what the patched tree keeps ----

  // The block at a path of child indices.
  function At(t: Tree, path: seq<nat>): Option<Tree>
    decreases |path|
  {
    if path == [] then Some(t)
    else if path[0] < |t.children| then At(t.children[path[0]], path[1..])
    else None
  }

  lemma {:induction false} PatchedChild(ts: seq<Tree>, m: map<Text, Json>, i: nat)
    requires i < |ts|
    ensures PatchForest(ts, m)[i] == PatchTree(ts[i], m)
  {
    if i > 0 {
      PatchedChild(ts[1..], m, i - 1);
    }
  }

  /** Ids, types, layout, children and order stay as they were at every depth; only patched props change. */
  lemma {:induction false} PatchKeepsEverythingElse(t: Tree, m: map<Text, Json>, path: seq<nat>)
    ensures At(PatchTree(t, m), path).Some? <==> At(t, path).Some?
    ensures At(t, path).Some? ==>
      var (b, b') := (At(t, path).value, At(PatchTree(t, m), path).value);
      b'.id == b.id && b'.fixed == b.fixed && |b'.children| == |b.children|
      && b'.props == (if b.id in m then m[b.id] else b.props)
    decreases |path|
  {
    if path != [] && path[0] < |t.children| {
      PatchedChild(t.children, m, path[0]);
      PatchKeepsEverythingElse(t.children[path[0]], m, path[1..]);
    }
  }
}
