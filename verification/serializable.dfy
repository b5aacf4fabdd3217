/** The walk that decides whether an object graph holds only bounded, acyclic, serializable data. */
module Serializable {
  import opened ObjectGraph
  import opened Utf8

  const MAX_DEPTH: nat := 64
  const MAX_NODES: nat := 20_000
  const MAX_STRING: nat := 100_000
  const MAX_ENTRIES: nat := 2_000
  const MAX_KEY: nat := 256

  // ---- text ----

  predicate SafeText(s: Text) { WellFormed(s) && 0 !in s }

  method HasUnsafeText(s: Text) returns (r: bool)
    ensures r == !SafeText(s)
  {
    var i := 0;
    while i < |s|
      invariant i <= |s| && 0 !in s[..i]
      invariant WellFormed(s) == WellFormed(s[i..])
    {
      if s[i] == 0 {
        return true;
      }
      assert s[i..][1..] == s[i + 1..];
      if High(s[i]) {
        if i + 1 >= |s| || !Low(s[i + 1]) {
          return true;
        }
        assert s[i..][2..] == s[i + 2..];
        assert s[..i + 2] == s[..i] + [s[i], s[i + 1]];
        i := i + 1;
      } else if Low(s[i]) {
        return true;
      } else {
        assert s[..i + 1] == s[..i] + [s[i]];
      }
      i := i + 1;
    }
    assert s[..i] == s;
    return false;
  }

  // ---- the walk ----

  predicate GoodKey(k: Text) { 1 <= |k| <= MAX_KEY && SafeText(k) }

  predicate GoodLeaf(v: Item) {
    match v
    case Null => true
    case Bool(_) => true
    case Str(s) => |s| <= MAX_STRING && SafeText(s)
    case Num(_) => true
    case _ => false
  }

  // What an object must be before its entries are looked at.
  predicate GoodObject(n: Node) {
    n.kind != OtherObject && n.dataOnly && |n.entries| <= MAX_ENTRIES
  }

  // The verdict and the node counter after visiting v below the objects in `active`.
  function Check(g: Graph, v: Item, depth: nat, active: set<Ref>, nodes: nat): (bool, nat)
    decreases MAX_DEPTH + 1 - depth, 1, 0
  {
    if nodes + 1 > MAX_NODES then (false, nodes + 1)
    else if !v.Object? then (GoodLeaf(v), nodes + 1)
    else if depth > MAX_DEPTH || v.ref in active || v.ref !in g || !GoodObject(g[v.ref]) then (false, nodes + 1)
    else CheckFrom(g, g[v.ref], 0, depth, active + {v.ref}, nodes + 1)
  }

  function CheckFrom(g: Graph, n: Node, i: nat, depth: nat, active: set<Ref>, nodes: nat): (bool, nat)
    requires depth <= MAX_DEPTH
    decreases MAX_DEPTH + 1 - depth, 0, |n.entries| - i
  {
    if i >= |n.entries| then (true, nodes)
    else if n.kind == RecordObject && !GoodKey(n.entries[i].0) then (false, nodes)
    else
      var (ok, nodes') := Check(g, n.entries[i].1, depth + 1, active, nodes);
      if !ok then (false, nodes') else CheckFrom(g, n, i + 1, depth, active, nodes')
  }

  // The shared state of one walk.
  class Walk {
    var active: set<Ref>
    var nodes: nat

    constructor ()
      ensures active == {} && nodes == 0
    {
      active, nodes := {}, 0;
    }

    method Validate(g: Graph, v: Item, depth: nat) returns (ok: bool)
      modifies this
      ensures (ok, nodes) == Check(g, v, depth, old(active), old(nodes))
      ensures active == old(active)
      decreases MAX_DEPTH + 1 - depth
    {
      nodes := nodes + 1;
      if nodes > MAX_NODES {
        return false;
      }
      match v {
        case Null => return true;
        case Bool(_) => return true;
        case Str(s) =>
          if |s| > MAX_STRING {
            return false;
          }
          var unsafeText := HasUnsafeText(s);
          return !unsafeText;
        case Num(_) => return true;
        case NonFinite => return false;
        case Unserializable => return false;
        case Object(ref) =>
          if depth > MAX_DEPTH || ref in active || ref !in g {
            return false;
          }
          active := active + {ref};
          if !GoodObject(g[ref]) {
            active := active - {ref};
            return false;
          }
          ok := ValidateEntries(g, g[ref], depth);
          active := active - {ref};
      }
    }

    method ValidateEntries(g: Graph, n: Node, depth: nat) returns (ok: bool)
      requires depth <= MAX_DEPTH
      modifies this
      ensures (ok, nodes) == CheckFrom(g, n, 0, depth, old(active), old(nodes))
      ensures active == old(active)
      decreases MAX_DEPTH + 1 - depth, 0
    {
      var i := 0;
      while i < |n.entries|
        invariant i <= |n.entries| && active == old(active)
        invariant CheckFrom(g, n, 0, depth, active, old(nodes)) == CheckFrom(g, n, i, depth, active, nodes)
      {
        if n.kind == RecordObject {
          var key := n.entries[i].0;
          var unsafeKey := HasUnsafeText(key);
          if |key| == 0 || |key| > MAX_KEY || unsafeKey {
            return false;
          }
        }
        ok := Validate(g, n.entries[i].1, depth + 1);
        if !ok {
          return false;
        }
        i := i + 1;
      }
      return true;
    }
  }

  // ---- what acceptance means ----

  // The value as a tree: every path from it ends within the depth limit, at good leaves, through good objects.
  predicate Bounded(g: Graph, v: Item, depth: nat)
    decreases MAX_DEPTH + 1 - depth, 0
  {
    if !v.Object? then GoodLeaf(v)
    else
      depth <= MAX_DEPTH && v.ref in g && GoodObject(g[v.ref])
      && forall i :: 0 <= i < |g[v.ref].entries| ==>
           (g[v.ref].kind == RecordObject ==> GoodKey(g[v.ref].entries[i].0))
           && Bounded(g, g[v.ref].entries[i].1, depth + 1)
  }

  // The positions of that tree: a shared object counts once for each path to it.
  function Positions(g: Graph, v: Item, depth: nat): nat
    decreases MAX_DEPTH + 1 - depth, 1, 0
  {
    if v.Object? && v.ref in g && depth <= MAX_DEPTH then 1 + PositionsFrom(g, g[v.ref], 0, depth) else 1
  }

  function PositionsFrom(g: Graph, n: Node, i: nat, depth: nat): nat
    requires depth <= MAX_DEPTH
    decreases MAX_DEPTH + 1 - depth, 0, |n.entries| - i
  {
    if i >= |n.entries| then 0
    else Positions(g, n.entries[i].1, depth + 1) + PositionsFrom(g, n, i + 1, depth)
  }

  // The entries of n from i on are bounded.
  predicate BoundedFrom(g: Graph, n: Node, i: nat, depth: nat)
    requires depth <= MAX_DEPTH
  {
    forall j :: i <= j < |n.entries| ==>
      (n.kind == RecordObject ==> GoodKey(n.entries[j].0)) && Bounded(g, n.entries[j].1, depth + 1)
  }

  lemma {:induction false} AcceptedIsBounded(g: Graph, v: Item, depth: nat, active: set<Ref>, nodes: nat)
    requires Check(g, v, depth, active, nodes).0
    ensures Bounded(g, v, depth)
    ensures Check(g, v, depth, active, nodes).1 == nodes + Positions(g, v, depth) <= MAX_NODES
    decreases MAX_DEPTH + 1 - depth, 1, 0
  {
    if v.Object? {
      AcceptedEntries(g, g[v.ref], 0, depth, active + {v.ref}, nodes + 1);
    }
  }

  lemma {:induction false} AcceptedEntries(g: Graph, n: Node, i: nat, depth: nat, active: set<Ref>, nodes: nat)
    requires depth <= MAX_DEPTH && nodes <= MAX_NODES && CheckFrom(g, n, i, depth, active, nodes).0
    ensures BoundedFrom(g, n, i, depth)
    ensures CheckFrom(g, n, i, depth, active, nodes).1 == nodes + PositionsFrom(g, n, i, depth) <= MAX_NODES
    decreases MAX_DEPTH + 1 - depth, 0, |n.entries| - i
  {
    hide Bounded;
    if i < |n.entries| {
      AcceptedIsBounded(g, n.entries[i].1, depth + 1, active, nodes);
      AcceptedEntries(g, n, i + 1, depth, active, Check(g, n.entries[i].1, depth + 1, active, nodes).1);
    }
  }

  // ---- cycles ----

  ghost function Judged(g: Graph): (Ref, nat) -> bool {
    (r: Ref, depth: nat) => Bounded(g, Object(r), depth)
  }

  lemma BoundedIsHereditary(g: Graph)
    ensures Hereditary(g, Judged(g), MAX_DEPTH)
  {
    forall a: Ref, b: Ref, d: nat | Judged(g)(a, d) && Edge(g, a, b) ensures Judged(g)(b, d + 1) {
      var i :| 0 <= i < |g[a].entries| && g[a].entries[i].1 == Object(b);
      assert Bounded(g, g[a].entries[i].1, d + 1);
    }
  }

  /** An accepted value has no reachable cycle, and no path from it is longer than the depth limit. */
  lemma AcceptedIsAcyclic(g: Graph, p: seq<Ref>)
    requires p != [] && Path(g, p) && Check(g, Object(p[0]), 0, {}, 0).0
    ensures NoRepeat(p) && |p| <= MAX_DEPTH + 1
  {
    AcceptedIsBounded(g, Object(p[0]), 0, {}, 0);
    BoundedIsHereditary(g);
    JudgedPathsDoNotRepeat(g, Judged(g), MAX_DEPTH, p, 0);
    JudgedAlong(g, Judged(g), MAX_DEPTH, p, 0);
  }

  // ---- bounded values are accepted ----

  lemma {:induction false} BoundedIsAccepted(g: Graph, v: Item, depth: nat, active: set<Ref>, nodes: nat, p: seq<Ref>)
    requires Bounded(g, v, depth) && Ancestors(g, Judged(g), p, v, depth, active)
    requires nodes + Positions(g, v, depth) <= MAX_NODES
    ensures Check(g, v, depth, active, nodes).0
    decreases MAX_DEPTH + 1 - depth, 1, 0
  {
    if v.Object? {
      BoundedIsHereditary(g);
      NewObject(g, Judged(g), MAX_DEPTH, p, v.ref, depth, active);
      BoundedEntries(g, v.ref, 0, depth, active + {v.ref}, nodes + 1, p + [v.ref]);
    }
  }

  lemma {:induction false} BoundedEntries(g: Graph, r: Ref, i: nat, depth: nat, active: set<Ref>, nodes: nat,
                                          p: seq<Ref>)
    requires depth <= MAX_DEPTH && r in g && BoundedFrom(g, g[r], i, depth)
    requires Ancestors(g, Judged(g), p, Null, depth + 1, active) && p[depth] == r
    requires nodes + PositionsFrom(g, g[r], i, depth) <= MAX_NODES
    ensures CheckFrom(g, g[r], i, depth, active, nodes).0
    decreases MAX_DEPTH + 1 - depth, 0, |g[r].entries| - i
  {
    hide Bounded, Path;
    if i < |g[r].entries| {
      var v := g[r].entries[i].1;
      assert v.Object? ==> Edge(g, r, v.ref);
      BoundedIsAccepted(g, v, depth + 1, active, nodes, p);
      AcceptedIsBounded(g, v, depth + 1, active, nodes);
      BoundedEntries(g, r, i + 1, depth, active, Check(g, v, depth + 1, active, nodes).1, p);
    }
  }

  /**
   * A value is accepted exactly when its tree is bounded and has at most 20000 positions; the counter
   * then stands at that number. Shared objects are fine as long as the tree stays within the limit.
   */
  lemma AcceptanceIsExact(g: Graph, v: Item)
    ensures Check(g, v, 0, {}, 0).0 <==> Bounded(g, v, 0) && Positions(g, v, 0) <= MAX_NODES
    ensures Check(g, v, 0, {}, 0).0 ==> Check(g, v, 0, {}, 0).1 == Positions(g, v, 0)
  {
    if Check(g, v, 0, {}, 0).0 {
      AcceptedIsBounded(g, v, 0, {}, 0);
    }
    if Bounded(g, v, 0) && Positions(g, v, 0) <= MAX_NODES {
      BoundedIsAccepted(g, v, 0, {}, 0, []);
    }
  }
}
