/** Copying untrusted data to JSON while counting the bytes of its text. */
module JsonClone {
  import opened Common
  import opened Utf8
  import opened ObjectGraph
  import opened JsonBytes
  import JsonText

  const MAX_BYTES: nat := 4 * 1024 * 1024
  const MAX_STRING: nat := 512 * 1024
  const MAX_NODES: nat := 100_000
  const MAX_DEPTH: nat := 16
  const MAX_ITEMS: nat := 10_000
  const MAX_MEMBERS: nat := 1_024

  datatype Cost = Cost(nodes: nat, bytes: nat)

  predicate GoodObject(n: Node) {
    n.kind != OtherObject && n.dataOnly && n.ordinary
    && |n.entries| <= (if n.kind == ArrayObject then MAX_ITEMS else MAX_MEMBERS)
  }

  // The punctuation of an object with n entries.
  function Overhead(kind: Kind, n: nat): nat {
    2 + Max(0, n - 1) + (if kind == ArrayObject then 0 else n)
  }

  function KeyBytes(kind: Kind, key: Text): nat {
    if kind == ArrayObject then 0 else ByteLength(JsonText.Quote(key))
  }

  predicate GoodKey(kind: Kind, key: Text) { kind == ArrayObject || |key| <= MAX_STRING }

  function Values(ms: seq<(Text, Json)>): seq<Json> {
    if ms == [] then [] else [ms[0].1] + Values(ms[1..])
  }

  function Build(kind: Kind, ms: seq<(Text, Json)>): Json {
    if kind == ArrayObject then JList(Values(ms)) else JObject(ms)
  }

  // ---- the walk ----

  function Claim(c: Cost, size: nat): Option<Cost> {
    if c.bytes + size > MAX_BYTES then None else Some(c.(bytes := c.bytes + size))
  }

  // The JSON of a value that is not an object.
  function Leaf(v: Item): Option<Json> {
    match v
    case Null => Some(JNull)
    case Bool(b) => Some(JBool(b))
    case Str(s) => if |s| > MAX_STRING then None else Some(JStr(s))
    case Num(text) => Some(JNum(text))
    case _ => None
  }

  function Visit(g: Graph, v: Item, depth: nat, ancestors: set<Ref>, c: Cost): Option<(Json, Cost)>
    decreases MAX_DEPTH + 1 - depth, 1, 0
  {
    if c.nodes + 1 > MAX_NODES || depth > MAX_DEPTH then None
    else
      var c1 := c.(nodes := c.nodes + 1);
      if !v.Object? then
        match Leaf(v)
        case None => None
        case Some(j) =>
          (match Claim(c1, Size(j))
           case None => None
           case Some(c2) => Some((j, c2)))
      else if v.ref in ancestors || v.ref !in g || !GoodObject(g[v.ref]) then None
      else
        var n := g[v.ref];
        match Claim(c1, Overhead(n.kind, |n.entries|))
        case None => None
        case Some(c2) =>
          match VisitFrom(g, n, 0, depth, ancestors + {v.ref}, c2)
          case None => None
          case Some((ms, c3)) => Some((Build(n.kind, ms), c3))
  }

  function VisitFrom(g: Graph, n: Node, i: nat, depth: nat, ancestors: set<Ref>, c: Cost)
    : Option<(seq<(Text, Json)>, Cost)>
    requires depth <= MAX_DEPTH
    decreases MAX_DEPTH + 1 - depth, 0, |n.entries| - i
  {
    if i >= |n.entries| then Some(([], c))
    else if !GoodKey(n.kind, n.entries[i].0) then None
    else
      match Claim(c, KeyBytes(n.kind, n.entries[i].0))
      case None => None
      case Some(c1) =>
        match Visit(g, n.entries[i].1, depth + 1, ancestors, c1)
        case None => None
        case Some((j, c2)) =>
          match VisitFrom(g, n, i + 1, depth, ancestors, c2)
          case None => None
          case Some((ms, c3)) => Some(([(n.entries[i].0, j)] + ms, c3))
  }

  class Cloner {
    var ancestors: set<Ref>
    var cost: Cost

    constructor ()
      ensures ancestors == {} && cost == Cost(0, 0)
    {
      ancestors, cost := {}, Cost(0, 0);
    }

    // A failed run throws, so only the state after a success matters.
    method VisitValue(g: Graph, v: Item, depth: nat) returns (r: Option<Json>)
      modifies this
      ensures r.Some? <==> Visit(g, v, depth, old(ancestors), old(cost)).Some?
      ensures r.Some? ==> Visit(g, v, depth, old(ancestors), old(cost)) == Some((r.value, cost))
      ensures r.Some? ==> ancestors == old(ancestors)
      decreases MAX_DEPTH + 1 - depth
    {
      hide Size, GoodObject, Build;
      cost := cost.(nodes := cost.nodes + 1);
      if cost.nodes > MAX_NODES || depth > MAX_DEPTH {
        return None;
      }
      if !v.Object? {
        var leaf := Leaf(v);
        if leaf.None? || cost.bytes + Size(leaf.value) > MAX_BYTES {
          return None;
        }
        cost := cost.(bytes := cost.bytes + Size(leaf.value));
        return leaf;
      }
      if v.ref in ancestors || v.ref !in g || !GoodObject(g[v.ref]) {
        return None;
      }
      var n := g[v.ref];
      ancestors := ancestors + {v.ref};
      var overhead := Overhead(n.kind, |n.entries|);
      if cost.bytes + overhead > MAX_BYTES {
        return None;
      }
      cost := cost.(bytes := cost.bytes + overhead);
      var ms := VisitEntries(g, n, depth);
      if ms.None? {
        return None;
      }
      ancestors := ancestors - {v.ref};
      return Some(Build(n.kind, ms.value));
    }

    method VisitEntries(g: Graph, n: Node, depth: nat) returns (r: Option<seq<(Text, Json)>>)
      requires depth <= MAX_DEPTH
      modifies this
      ensures r.Some? <==> VisitFrom(g, n, 0, depth, old(ancestors), old(cost)).Some?
      ensures r.Some? ==> VisitFrom(g, n, 0, depth, old(ancestors), old(cost)) == Some((r.value, cost))
      ensures r.Some? ==> ancestors == old(ancestors)
      decreases MAX_DEPTH + 1 - depth, 0
    {
      hide Visit, GoodKey, KeyBytes;
      var ms: seq<(Text, Json)> := [];
      var i := 0;
      assert VisitFrom(g, n, 0, depth, ancestors, cost).Some? ==>
        [] + VisitFrom(g, n, 0, depth, ancestors, cost).value.0 == VisitFrom(g, n, 0, depth, ancestors, cost).value.0;
      while i < |n.entries|
        invariant i <= |n.entries| && ancestors == old(ancestors)
        invariant VisitFrom(g, n, 0, depth, ancestors, old(cost))
          == After(ms, VisitFrom(g, n, i, depth, ancestors, cost))
      {
        var key := n.entries[i].0;
        ghost var from := cost;
        if !GoodKey(n.kind, key) || cost.bytes + KeyBytes(n.kind, key) > MAX_BYTES {
          return None;
        }
        cost := cost.(bytes := cost.bytes + KeyBytes(n.kind, key));
        var j := VisitValue(g, n.entries[i].1, depth + 1);
        if j.None? {
          return None;
        }
        AfterStep(ms, (key, j.value), VisitFrom(g, n, i + 1, depth, ancestors, cost));
        ms := ms + [(key, j.value)];
        i := i + 1;
      }
      assert ms + [] == ms;
      return Some(ms);
    }
  }

  function After(ms: seq<(Text, Json)>, r: Option<(seq<(Text, Json)>, Cost)>): Option<(seq<(Text, Json)>, Cost)> {
    match r
    case None => None
    case Some((rest, c)) => Some((ms + rest, c))
  }

  lemma AfterStep(ms: seq<(Text, Json)>, m: (Text, Json), r: Option<(seq<(Text, Json)>, Cost)>)
    ensures After(ms, After([m], r)) == After(ms + [m], r)
  {
    if r.Some? {
      assert ms + ([m] + r.value.0) == ms + [m] + r.value.0;
    }
  }

  // ---- the value as a tree ----

  // The JSON value an object graph stands for: no ancestors, no counters, only the local bounds.
  function Unfold(g: Graph, v: Item, depth: nat): Option<Json>
    decreases MAX_DEPTH + 1 - depth, 1, 0
  {
    if depth > MAX_DEPTH then None
    else if !v.Object? then Leaf(v)
    else if v.ref !in g || !GoodObject(g[v.ref]) then None
    else
      match UnfoldFrom(g, g[v.ref], 0, depth)
      case None => None
      case Some(ms) => Some(Build(g[v.ref].kind, ms))
  }

  function UnfoldFrom(g: Graph, n: Node, i: nat, depth: nat): (r: Option<seq<(Text, Json)>>)
    requires depth <= MAX_DEPTH
    ensures r.Some? && i <= |n.entries| ==> |r.value| == |n.entries| - i
    decreases MAX_DEPTH + 1 - depth, 0, |n.entries| - i
  {
    if i >= |n.entries| then Some([])
    else if !GoodKey(n.kind, n.entries[i].0) then None
    else
      match (Unfold(g, n.entries[i].1, depth + 1), UnfoldFrom(g, n, i + 1, depth))
      case (Some(j), Some(ms)) => Some([(n.entries[i].0, j)] + ms)
      case _ => None
  }

  function NodeCount(j: Json): nat
    decreases j, 1
  {
    match j
    case JList(items) => 1 + NodeCounts(items)
    case JObject(members) => 1 + MemberCounts(members)
    case _ => 1
  }

  function NodeCounts(items: seq<Json>): nat
    decreases items, 0
  {
    if items == [] then 0 else NodeCount(items[0]) + NodeCounts(items[1..])
  }

  function MemberCount(m: (Text, Json)): nat
    decreases m, 2
  {
    NodeCount(m.1)
  }

  function MemberCounts(members: seq<(Text, Json)>): nat
    decreases members, 0
  {
    if members == [] then 0 else MemberCount(members[0]) + MemberCounts(members[1..])
  }

  // What entries cost below their object.
  function EntriesCost(kind: Kind, ms: seq<(Text, Json)>): Cost {
    if ms == [] then Cost(0, 0)
    else
      var rest := EntriesCost(kind, ms[1..]);
      Cost(NodeCount(ms[0].1) + rest.nodes, KeyBytes(kind, ms[0].0) + Size(ms[0].1) + rest.bytes)
  }

  function Plus(c: Cost, d: Cost): Cost { Cost(c.nodes + d.nodes, c.bytes + d.bytes) }

  function CostOf(j: Json): Cost { Cost(NodeCount(j), Size(j)) }

  predicate Within(c: Cost) { c.nodes <= MAX_NODES && c.bytes <= MAX_BYTES }

  lemma {:induction false} BuildCost(kind: Kind, ms: seq<(Text, Json)>)
    ensures CostOf(Build(kind, ms)) == Plus(Cost(1, Overhead(kind, |ms|)), EntriesCost(kind, ms))
  {
    EntriesAdd(kind, ms);
  }

  lemma {:induction false} EntriesAdd(kind: Kind, ms: seq<(Text, Json)>)
    ensures |Values(ms)| == |ms|
    ensures kind == ArrayObject ==> EntriesCost(kind, ms) == Cost(NodeCounts(Values(ms)), ItemSizes(Values(ms)))
    ensures kind != ArrayObject ==> EntriesCost(kind, ms) == Cost(MemberCounts(ms), MemberSizes(ms))
  {
    hide Size, NodeCount;
    if ms != [] {
      EntriesAdd(kind, ms[1..]);
      assert Values(ms)[1..] == Values(ms[1..]);
    }
  }

  lemma {:induction false} VisitUnfolds(g: Graph, v: Item, depth: nat, ancestors: set<Ref>, c: Cost)
    requires Within(c) && Visit(g, v, depth, ancestors, c).Some?
    ensures var (j, c') := Visit(g, v, depth, ancestors, c).value;
      Unfold(g, v, depth) == Some(j) && c' == Plus(c, CostOf(j)) && Within(c')
    decreases MAX_DEPTH + 1 - depth, 1, 0
  {
    hide GoodObject, Size, Overhead, Build;
    if v.Object? {
      var n := g[v.ref];
      var c2 := Claim(c.(nodes := c.nodes + 1), Overhead(n.kind, |n.entries|)).value;
      VisitUnfoldsFrom(g, n, 0, depth, ancestors + {v.ref}, c2);
      BuildCost(n.kind, UnfoldFrom(g, n, 0, depth).value);
    }
  }

  lemma {:induction false} VisitUnfoldsFrom(g: Graph, n: Node, i: nat, depth: nat, ancestors: set<Ref>, c: Cost)
    requires depth <= MAX_DEPTH && i <= |n.entries| && Within(c) && VisitFrom(g, n, i, depth, ancestors, c).Some?
    ensures var (ms, c') := VisitFrom(g, n, i, depth, ancestors, c).value;
      UnfoldFrom(g, n, i, depth) == Some(ms) && c' == Plus(c, EntriesCost(n.kind, ms)) && Within(c')
    decreases MAX_DEPTH + 1 - depth, 0, |n.entries| - i
  {
    hide Unfold, Visit, Size, NodeCount, KeyBytes, GoodKey;
    if i < |n.entries| {
      var c1 := Claim(c, KeyBytes(n.kind, n.entries[i].0)).value;
      VisitUnfolds(g, n.entries[i].1, depth + 1, ancestors, c1);
      var (j, c2) := Visit(g, n.entries[i].1, depth + 1, ancestors, c1).value;
      VisitUnfoldsFrom(g, n, i + 1, depth, ancestors, c2);
      var ms := UnfoldFrom(g, n, i, depth).value;
      assert ms[1..] == UnfoldFrom(g, n, i + 1, depth).value;
    }
  }

  // ---- values within the bounds are copied ----

  ghost function Judged(g: Graph): (Ref, nat) -> bool {
    (r: Ref, depth: nat) => Unfold(g, Object(r), depth).Some?
  }

  lemma {:induction false} UnfoldedEntry(g: Graph, n: Node, i: nat, k: nat, depth: nat)
    requires depth <= MAX_DEPTH && i <= k < |n.entries| && UnfoldFrom(g, n, i, depth).Some?
    ensures Unfold(g, n.entries[k].1, depth + 1).Some?
    decreases k - i
  {
    hide Unfold;
    if i < k {
      UnfoldedEntry(g, n, i + 1, k, depth);
    }
  }

  lemma UnfoldIsHereditary(g: Graph)
    ensures Hereditary(g, Judged(g), MAX_DEPTH)
  {
    forall a: Ref, b: Ref, d: nat | Judged(g)(a, d) && Edge(g, a, b) ensures Judged(g)(b, d + 1) {
      var k :| 0 <= k < |g[a].entries| && g[a].entries[k].1 == Object(b);
      UnfoldedEntry(g, g[a], 0, k, d);
    }
  }

  lemma {:induction false} UnfoldVisits(g: Graph, v: Item, depth: nat, ancestors: set<Ref>, c: Cost, p: seq<Ref>)
    requires Unfold(g, v, depth).Some? && Ancestors(g, Judged(g), p, v, depth, ancestors)
    requires Within(Plus(c, CostOf(Unfold(g, v, depth).value)))
    ensures Visit(g, v, depth, ancestors, c).Some?
    decreases MAX_DEPTH + 1 - depth, 1, 0
  {
    hide GoodObject, Size, Overhead, Build, Ancestors;
    if v.Object? {
      var n := g[v.ref];
      var ms := UnfoldFrom(g, n, 0, depth).value;
      BuildCost(n.kind, ms);
      UnfoldIsHereditary(g);
      NewObject(g, Judged(g), MAX_DEPTH, p, v.ref, depth, ancestors);
      var c2 := Plus(c, Cost(1, Overhead(n.kind, |n.entries|)));
      LastIsNew(g, p, v.ref, depth, ancestors);
      UnfoldVisitsFrom(g, v.ref, 0, depth, ancestors + {v.ref}, c2, p + [v.ref]);
    } else {
      assert NodeCount(Leaf(v).value) == 1;
    }
  }

  lemma LastIsNew(g: Graph, p: seq<Ref>, r: Ref, depth: nat, ancestors: set<Ref>)
    requires Ancestors(g, Judged(g), p, Object(r), depth, ancestors)
    ensures |p| == depth && (p + [r])[depth] == r
  {
  }

  lemma {:induction false} UnfoldVisitsFrom(g: Graph, r: Ref, i: nat, depth: nat, ancestors: set<Ref>, c: Cost,
                                            p: seq<Ref>)
    requires depth <= MAX_DEPTH && r in g && i <= |g[r].entries| && UnfoldFrom(g, g[r], i, depth).Some?
    requires Ancestors(g, Judged(g), p, Null, depth + 1, ancestors) && p[depth] == r
    requires Within(Plus(c, EntriesCost(g[r].kind, UnfoldFrom(g, g[r], i, depth).value)))
    ensures VisitFrom(g, g[r], i, depth, ancestors, c).Some?
    decreases MAX_DEPTH + 1 - depth, 0, |g[r].entries| - i
  {
    hide Unfold, Visit, Size, NodeCount, KeyBytes, GoodKey, Path;
    var n := g[r];
    if i < |n.entries| {
      var v := n.entries[i].1;
      assert v.Object? ==> Edge(g, r, v.ref);
      var ms := UnfoldFrom(g, n, i, depth).value;
      assert ms[1..] == UnfoldFrom(g, n, i + 1, depth).value;
      var c1 := Plus(c, Cost(0, KeyBytes(n.kind, n.entries[i].0)));
      UnfoldVisits(g, v, depth + 1, ancestors, c1, p);
      VisitUnfolds(g, v, depth + 1, ancestors, c1);
      UnfoldVisitsFrom(g, r, i + 1, depth, ancestors, Visit(g, v, depth + 1, ancestors, c1).value.1, p);
    }
  }

  /**
   * The copy is the tree the graph stands for, the byte counter ends at the exact length of its JSON text,
   * and the limits reject exactly the values with too many nodes or too long a text.
   */
  lemma CloneIsExact(g: Graph, v: Item, j: Json)
    ensures Visit(g, v, 0, {}, Cost(0, 0)) == Some((j, Cost(NodeCount(j), ByteLength(Show(j))))) <==>
      Unfold(g, v, 0) == Some(j) && NodeCount(j) <= MAX_NODES && ByteLength(Show(j)) <= MAX_BYTES
    ensures Visit(g, v, 0, {}, Cost(0, 0)).Some? && Visit(g, v, 0, {}, Cost(0, 0)).value.0 == j ==>
      Visit(g, v, 0, {}, Cost(0, 0)).value.1 == Cost(NodeCount(j), ByteLength(Show(j)))
  {
    hide Visit, Unfold, ByteLength, Show, Size, NodeCount;
    SizeIsByteLength(j);
    var start := Cost(0, 0);
    if Visit(g, v, 0, {}, start).Some? {
      VisitUnfolds(g, v, 0, {}, start);
    }
    if Unfold(g, v, 0) == Some(j) && NodeCount(j) <= MAX_NODES && ByteLength(Show(j)) <= MAX_BYTES {
      assert Plus(start, CostOf(j)) == CostOf(j);
      UnfoldVisits(g, v, 0, {}, start, []);
      VisitUnfolds(g, v, 0, {}, start);
      var r := Visit(g, v, 0, {}, start).value;
      assert r == (r.0, r.1) == (j, CostOf(j)) && Visit(g, v, 0, {}, start) == Some(r);
    }
  }
}
