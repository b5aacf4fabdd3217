/** What the two walks over untrusted objects accept, by the paths from the root, and what the copy holds. */
module GraphLaws {
  import opened Common
  import opened Utf8
  import opened ObjectGraph
  import opened JsonBytes
  import Serializable
  import JsonClone

  // ---- serializable data ----

  predicate PlainText(s: Text) { WellFormed(s) && 0 !in s }

  // An object that holds only plain data, whatever it refers to.
  predicate PlainNode(n: Node) {
    && (n.kind == ArrayObject || n.kind == RecordObject) && n.dataOnly && |n.entries| <= 2_000
    && forall i :: 0 <= i < |n.entries| ==>
         && (n.kind == RecordObject ==> 1 <= |n.entries[i].0| <= 256 && PlainText(n.entries[i].0))
         && match n.entries[i].1
            case Str(s) => |s| <= 100_000 && PlainText(s)
            case NonFinite => false
            case Unserializable => false
            case _ => true
  }

  function Plain(): (Node, nat) -> bool { (n: Node, d: nat) => PlainNode(n) }

  lemma SerializableIsLocal(g: Graph)
    ensures Local(g, Serializable.Judged(g), Plain(), 64)
  {
    forall a: Ref, d: nat
      ensures Serializable.Judged(g)(a, d) <==>
        d <= 64 && a in g && Plain()(g[a], d)
        && forall b: Ref :: Edge(g, a, b) ==> Serializable.Judged(g)(b, d + 1)
    {
      hide Edge, Serializable.Bounded, PlainNode;
      BoundedIsLocal(g, a, d);
    }
  }

  lemma BoundedIsLocal(g: Graph, a: Ref, d: nat)
    ensures Serializable.Bounded(g, Object(a), d) <==>
      d <= 64 && a in g && PlainNode(g[a])
      && forall b: Ref :: Edge(g, a, b) ==> Serializable.Bounded(g, Object(b), d + 1)
  {
    if d <= 64 && a in g {
      var n := g[a];
      if Serializable.Bounded(g, Object(a), d) {
        forall b: Ref | Edge(g, a, b) ensures Serializable.Bounded(g, Object(b), d + 1) {
          var i :| 0 <= i < |n.entries| && n.entries[i].1 == Object(b);
        }
        forall i | 0 <= i < |n.entries| ensures Serializable.Bounded(g, n.entries[i].1, d + 1) {
        }
      } else if PlainNode(n) && forall b: Ref :: Edge(g, a, b) ==> Serializable.Bounded(g, Object(b), d + 1) {
        forall i | 0 <= i < |n.entries| ensures Serializable.Bounded(g, n.entries[i].1, d + 1) {
          if n.entries[i].1.Object? {
            assert Edge(g, a, n.entries[i].1.ref);
          }
        }
      }
    }
  }

  /**
   * An object is accepted exactly when every path from it has at most 65 objects and ends at one that holds plain
   * data, and the tree has at most 20000 positions.
   */
  lemma AcceptedByPaths(g: Graph, r: Ref)
    ensures Serializable.Check(g, Object(r), 0, {}, 0).0 <==>
      PathsFine(g, Plain(), 64, r, 0) && Serializable.Positions(g, Object(r), 0) <= 20_000
  {
    Serializable.AcceptanceIsExact(g, Object(r));
    SerializableIsLocal(g);
    JudgedExactly(g, Serializable.Judged(g), Plain(), 64, r, 0);
  }

  // ---- the JSON copy ----

  predicate CopiedLeaf(v: Item) {
    match v
    case Str(s) => |s| <= 512 * 1024
    case NonFinite => false
    case Unserializable => false
    case _ => true
  }

  // An object within the limits of the copy, whatever it refers to.
  predicate CopiedNode(n: Node, d: nat) {
    && n.dataOnly && n.ordinary
    && (match n.kind
        case ArrayObject => |n.entries| <= 10_000
        case RecordObject => |n.entries| <= 1_024
        case OtherObject => false)
    && (n.entries != [] ==> d + 1 <= 16)
    && forall i :: 0 <= i < |n.entries| ==>
         (n.kind == RecordObject ==> |n.entries[i].0| <= 512 * 1024) && CopiedLeaf(n.entries[i].1)
  }

  function Copied(): (Node, nat) -> bool { (n: Node, d: nat) => CopiedNode(n, d) }

  function Unfolds(g: Graph): (Ref, nat) -> bool { (r: Ref, d: nat) => JsonClone.Unfold(g, Object(r), d).Some? }

  lemma {:induction false} EntriesUnfold(g: Graph, n: Node, i: nat, d: nat)
    requires d <= 16
    ensures JsonClone.UnfoldFrom(g, n, i, d).Some? <==>
      forall k :: i <= k < |n.entries| ==>
        JsonClone.GoodKey(n.kind, n.entries[k].0) && JsonClone.Unfold(g, n.entries[k].1, d + 1).Some?
    decreases |n.entries| - i
  {
    hide JsonClone.Unfold, JsonClone.GoodKey;
    if i < |n.entries| {
      EntriesUnfold(g, n, i + 1, d);
    }
  }

  lemma LeafUnfolds(g: Graph, v: Item, d: nat)
    requires !v.Object?
    ensures JsonClone.Unfold(g, v, d).Some? <==> d <= 16 && CopiedLeaf(v)
  {
  }

  lemma UnfoldIsLocal(g: Graph, a: Ref, d: nat)
    ensures Unfolds(g)(a, d) <==>
      d <= 16 && a in g && CopiedNode(g[a], d) && forall b: Ref :: Edge(g, a, b) ==> Unfolds(g)(b, d + 1)
  {
    hide JsonClone.UnfoldFrom, JsonClone.Build;
    if d <= 16 && a in g {
      var n := g[a];
      EntriesUnfold(g, n, 0, d);
      if Unfolds(g)(a, d) {
        UnfoldsAreCopied(g, a, d);
      }
      if CopiedNode(n, d) && forall b: Ref :: Edge(g, a, b) ==> Unfolds(g)(b, d + 1) {
        CopiedUnfold(g, a, d);
      }
    }
  }

  ghost predicate EntriesFine(g: Graph, n: Node, d: nat) {
    forall k :: 0 <= k < |n.entries| ==>
      JsonClone.GoodKey(n.kind, n.entries[k].0) && JsonClone.Unfold(g, n.entries[k].1, d + 1).Some?
  }

  lemma UnfoldsAreCopied(g: Graph, a: Ref, d: nat)
    requires d <= 16 && a in g && JsonClone.GoodObject(g[a]) && EntriesFine(g, g[a], d)
    ensures CopiedNode(g[a], d) && forall b: Ref :: Edge(g, a, b) ==> Unfolds(g)(b, d + 1)
  {
    hide JsonClone.Unfold;
    var n := g[a];
    forall i | 0 <= i < |n.entries|
      ensures d + 1 <= 16 && CopiedLeaf(n.entries[i].1)
    {
      DeepIsNone(g, n.entries[i].1, d + 1);
      if !n.entries[i].1.Object? {
        LeafUnfolds(g, n.entries[i].1, d + 1);
      }
    }
    assert n.entries != [] ==> n.entries[0] == n.entries[0] && d + 1 <= 16;
    forall b: Ref | Edge(g, a, b) ensures Unfolds(g)(b, d + 1) {
      var i :| 0 <= i < |n.entries| && n.entries[i].1 == Object(b);
      assert JsonClone.Unfold(g, n.entries[i].1, d + 1).Some?;
    }
  }

  lemma CopiedUnfold(g: Graph, a: Ref, d: nat)
    requires d <= 16 && a in g && CopiedNode(g[a], d)
    requires forall b: Ref :: Edge(g, a, b) ==> Unfolds(g)(b, d + 1)
    ensures JsonClone.GoodObject(g[a]) && EntriesFine(g, g[a], d)
  {
    hide JsonClone.Unfold;
    var n := g[a];
    forall k | 0 <= k < |n.entries|
      ensures JsonClone.GoodKey(n.kind, n.entries[k].0) && JsonClone.Unfold(g, n.entries[k].1, d + 1).Some?
    {
      if n.entries[k].1.Object? {
        assert Edge(g, a, n.entries[k].1.ref) && Unfolds(g)(n.entries[k].1.ref, d + 1);
      } else {
        LeafUnfolds(g, n.entries[k].1, d + 1);
      }
    }
  }

  lemma DeepIsNone(g: Graph, v: Item, d: nat)
    ensures JsonClone.Unfold(g, v, d).Some? ==> d <= 16
  {
  }

  /**
   * An object has a JSON copy exactly when every path from it has at most 17 objects and ends at one that holds
   * plain data within the limits.
   */
  lemma CopiedByPaths(g: Graph, r: Ref)
    ensures JsonClone.Unfold(g, Object(r), 0).Some? <==> PathsFine(g, Copied(), 16, r, 0)
  {
    forall a: Ref, d: nat
      ensures Unfolds(g)(a, d) <==>
        d <= 16 && a in g && Copied()(g[a], d) && forall b: Ref :: Edge(g, a, b) ==> Unfolds(g)(b, d + 1)
    {
      hide Edge, JsonClone.Unfold, CopiedNode;
      UnfoldIsLocal(g, a, d);
    }
    JudgedExactly(g, Unfolds(g), Copied(), 16, r, 0);
  }

  // ---- what the copy holds ----

  // The JSON value says what the value says, entry for entry.
  ghost predicate Mirrors(g: Graph, v: Item, j: Json)
    decreases j, 1
  {
    match j
    case JNull => v == Null
    case JBool(b) => v == Bool(b)
    case JStr(s) => v == Str(s)
    case JNum(t) => v == Num(t)
    case JList(items) =>
      v.Object? && v.ref in g && g[v.ref].kind == ArrayObject && |items| == |g[v.ref].entries|
      && forall i :: 0 <= i < |items| ==> Mirrors(g, g[v.ref].entries[i].1, items[i])
    case JObject(members) =>
      v.Object? && v.ref in g && g[v.ref].kind == RecordObject && |members| == |g[v.ref].entries|
      && forall i :: 0 <= i < |members| ==>
           members[i].0 == g[v.ref].entries[i].0 && MirrorsMember(g, g[v.ref].entries[i].1, members[i])
  }

  ghost predicate MirrorsMember(g: Graph, v: Item, m: (Text, Json))
    decreases m, 2
  {
    Mirrors(g, v, m.1)
  }

  lemma {:induction false} ValuesAt(ms: seq<(Text, Json)>, i: nat)
    requires i < |ms|
    ensures |JsonClone.Values(ms)| == |ms| && JsonClone.Values(ms)[i] == ms[i].1
  {
    if |ms| > 1 {
      ValuesAt(ms[1..], if i > 0 then i - 1 else 0);
    } else {
      assert JsonClone.Values(ms[1..]) == [];
    }
  }

  lemma NoValues()
    ensures JsonClone.Values([]) == []
  {
  }

  lemma {:induction false} CopyMirrors(g: Graph, v: Item, d: nat)
    requires JsonClone.Unfold(g, v, d).Some?
    ensures Mirrors(g, v, JsonClone.Unfold(g, v, d).value)
    decreases 17 - d, 1
  {
    if v.Object? {
      var n := g[v.ref];
      var ms := JsonClone.UnfoldFrom(g, n, 0, d).value;
      forall i | 0 <= i < |ms| ensures ms[i].0 == n.entries[i].0 && Mirrors(g, n.entries[i].1, ms[i].1) {
        EntryMirrors(g, n, 0, d, i);
      }
      NoValues();
      if n.kind == ArrayObject && ms != [] {
        ValuesAt(ms, 0);
        forall i | 0 <= i < |ms| ensures JsonClone.Values(ms)[i] == ms[i].1 {
          ValuesAt(ms, i);
        }
      }
    }
  }

  lemma {:induction false} EntryMirrors(g: Graph, n: Node, i: nat, d: nat, k: nat)
    requires d <= 16 && i <= k < |n.entries| && JsonClone.UnfoldFrom(g, n, i, d).Some?
    ensures var ms := JsonClone.UnfoldFrom(g, n, i, d).value;
      k - i < |ms| && ms[k - i].0 == n.entries[k].0 && Mirrors(g, n.entries[k].1, ms[k - i].1)
    decreases 17 - d, 0, |n.entries| - i
  {
    hide JsonClone.Unfold;
    if k == i {
      CopyMirrors(g, n.entries[i].1, d + 1);
    } else {
      EntryMirrors(g, n, i + 1, d, k);
    }
  }
}
