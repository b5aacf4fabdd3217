/** Values with object identity: shared objects and cycles are possible. */
module ObjectGraph {
  import opened Utf8

  type Text = seq<Unit>
  type Ref = nat

  // The JSON text of a finite number.
  type NumberText = t: seq<Unit> | forall i :: 0 <= i < |t| ==> t[i] < 0x80 witness []

  datatype Item =
    | Null | Bool(b: bool) | Str(s: Text) | Num(text: NumberText) | NonFinite | Unserializable | Object(ref: Ref)

  datatype Kind = ArrayObject | RecordObject | OtherObject

  // `dataOnly`: the object has only enumerable data properties, with the keys its kind allows. `ordinary`: its
  // prototype is the standard one of its kind.
  datatype Node = Node(kind: Kind, dataOnly: bool, ordinary: bool, entries: seq<(Text, Item)>)

  // The objects behind the references.
  type Graph = map<Ref, Node>

  predicate Edge(g: Graph, a: Ref, b: Ref) {
    a in g && exists i :: 0 <= i < |g[a].entries| && g[a].entries[i].1 == Object(b)
  }

  // Each object of the path refers to the next one.
  predicate Path(g: Graph, p: seq<Ref>) {
    forall i :: 0 <= i < |p| - 1 ==> Edge(g, p[i], p[i + 1])
  }

  predicate NoRepeat(p: seq<Ref>) {
    forall i, j :: 0 <= i < j < |p| ==> p[i] != p[j]
  }

  // A judgement of objects at depths that passes from an object to what it refers to, one deeper.
  ghost predicate Hereditary(g: Graph, judged: (Ref, nat) -> bool, most: nat) {
    && (forall a: Ref, d: nat :: judged(a, d) ==> d <= most)
    && (forall a: Ref, b: Ref, d: nat :: judged(a, d) && Edge(g, a, b) ==> judged(b, d + 1))
  }

  lemma {:induction false} JudgedAlong(g: Graph, judged: (Ref, nat) -> bool, most: nat, p: seq<Ref>, depth: nat)
    requires Hereditary(g, judged, most) && p != [] && Path(g, p) && judged(p[0], depth)
    ensures depth + |p| - 1 <= most && judged(p[|p| - 1], depth + |p| - 1)
    decreases |p|
  {
    if |p| > 1 {
      SubPath(g, p, 1, |p| - 1);
      assert Edge(g, p[0], p[1]);
      assert p[1..|p|] == p[1..];
      JudgedAlong(g, judged, most, p[1..], depth + 1);
    }
  }

  // A closed walk can be taken again and again, so nothing on it is judged well.
  lemma {:induction false} CycleNotJudged(g: Graph, judged: (Ref, nat) -> bool, most: nat, p: seq<Ref>, depth: nat)
    requires Hereditary(g, judged, most) && |p| >= 2 && Path(g, p) && p[0] == p[|p| - 1]
    ensures !judged(p[0], depth)
    decreases most + 1 - depth
  {
    if judged(p[0], depth) {
      JudgedAlong(g, judged, most, p, depth);
      CycleNotJudged(g, judged, most, p, depth + |p| - 1);
    }
  }

  lemma JudgedPathsDoNotRepeat(g: Graph, judged: (Ref, nat) -> bool, most: nat, p: seq<Ref>, depth: nat)
    requires Hereditary(g, judged, most) && p != [] && Path(g, p) && judged(p[0], depth)
    ensures NoRepeat(p)
  {
    forall i, j | 0 <= i < j < |p| ensures p[i] != p[j] {
      if p[i] == p[j] {
        SubPath(g, p, 0, i);
        JudgedAlong(g, judged, most, p[0..i + 1], depth);
        SubPath(g, p, i, j);
        CycleNotJudged(g, judged, most, p[i..j + 1], depth + i);
      }
    }
  }

  lemma SubPath(g: Graph, p: seq<Ref>, i: nat, j: nat)
    requires i <= j < |p| && Path(g, p)
    ensures Path(g, p[i..j + 1])
  {
    var q := p[i..j + 1];
    forall k | 0 <= k < |q| - 1 ensures Edge(g, q[k], q[k + 1]) {
      assert Edge(g, p[i + k], p[i + k + 1]);
    }
  }

  lemma PathGrows(g: Graph, p: seq<Ref>, r: Ref)
    requires Path(g, p) && (p != [] ==> Edge(g, p[|p| - 1], r))
    ensures Path(g, p + [r])
  {
    var q := p + [r];
    forall k | 0 <= k < |q| - 1 ensures Edge(g, q[k], q[k + 1]) {
      if k < |p| - 1 {
        assert Edge(g, p[k], p[k + 1]);
      }
    }
  }

  // The path from the root to the value under the walk, whose objects are the active ones.
  ghost predicate Ancestors(g: Graph, judged: (Ref, nat) -> bool, p: seq<Ref>, v: Item, depth: nat, active: set<Ref>) {
    && (forall a :: a in active <==> a in p)
    && |p| == depth
    && Path(g, p)
    && (p != [] ==> judged(p[0], 0))
    && (p != [] && v.Object? ==> Edge(g, p[|p| - 1], v.ref))
  }

  // Below well-judged ancestors, a well-judged object is never one of them.
  lemma NewObject(g: Graph, judged: (Ref, nat) -> bool, most: nat, p: seq<Ref>, r: Ref, depth: nat, active: set<Ref>)
    requires Hereditary(g, judged, most) && judged(r, depth)
    requires Ancestors(g, judged, p, Object(r), depth, active)
    ensures r !in active && Ancestors(g, judged, p + [r], Null, depth + 1, active + {r})
  {
    var q := p + [r];
    PathGrows(g, p, r);
    JudgedPathsDoNotRepeat(g, judged, most, q, 0);
    assert forall i :: 0 <= i < |p| ==> p[i] == q[i] && q[i] != q[|p|];
  }

  // ---- judging by paths ----

  // A judgement that looks at an object itself, and at what it refers to, one deeper.
  ghost predicate Local(g: Graph, judged: (Ref, nat) -> bool, fine: (Node, nat) -> bool, most: nat) {
    forall a: Ref, d: nat :: judged(a, d) <==>
      d <= most && a in g && fine(g[a], d) && forall b: Ref :: Edge(g, a, b) ==> judged(b, d + 1)
  }

  // Whatever path leads from the object, it ends within the bound, at a fine object.
  ghost predicate PathsFine(g: Graph, fine: (Node, nat) -> bool, most: nat, a: Ref, depth: nat) {
    forall p: seq<Ref> :: p != [] && p[0] == a && Path(g, p) ==>
      depth + |p| - 1 <= most && p[|p| - 1] in g && fine(g[p[|p| - 1]], depth + |p| - 1)
  }

  lemma LocalIsHereditary(g: Graph, judged: (Ref, nat) -> bool, fine: (Node, nat) -> bool, most: nat)
    requires Local(g, judged, fine, most)
    ensures Hereditary(g, judged, most)
  {
  }

  lemma PathsFineBelow(g: Graph, fine: (Node, nat) -> bool, most: nat, a: Ref, b: Ref, depth: nat)
    requires PathsFine(g, fine, most, a, depth) && Edge(g, a, b)
    ensures PathsFine(g, fine, most, b, depth + 1)
  {
    hide Edge;
    forall q: seq<Ref> | q != [] && q[0] == b && Path(g, q)
      ensures depth + 1 + |q| - 1 <= most && q[|q| - 1] in g && fine(g[q[|q| - 1]], depth + 1 + |q| - 1)
    {
      var p := [a] + q;
      forall k | 0 <= k < |p| - 1 ensures Edge(g, p[k], p[k + 1]) {
        assert k > 0 ==> Edge(g, q[k - 1], q[k - 1 + 1]);
      }
      assert Path(g, p) && p[|p| - 1] == q[|q| - 1];
    }
  }

  /** Such a judgement holds exactly when every path from the object is within the bound and ends well. */
  lemma {:induction false} JudgedExactly(g: Graph, judged: (Ref, nat) -> bool, fine: (Node, nat) -> bool, most: nat,
                                         a: Ref, depth: nat)
    requires Local(g, judged, fine, most)
    ensures judged(a, depth) <==> PathsFine(g, fine, most, a, depth)
    decreases most + 1 - depth
  {
    hide Edge;
    LocalIsHereditary(g, judged, fine, most);
    if judged(a, depth) {
      forall p: seq<Ref> | p != [] && p[0] == a && Path(g, p)
        ensures depth + |p| - 1 <= most && p[|p| - 1] in g && fine(g[p[|p| - 1]], depth + |p| - 1)
      {
        JudgedAlong(g, judged, most, p, depth);
      }
    }
    if PathsFine(g, fine, most, a, depth) {
      assert Path(g, [a]) && [a][0] == a;
      forall b: Ref | Edge(g, a, b) ensures judged(b, depth + 1) {
        PathsFineBelow(g, fine, most, a, b, depth);
        JudgedExactly(g, judged, fine, most, b, depth + 1);
      }
    }
  }
}
