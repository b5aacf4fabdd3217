/** The builder's lists form a finite forest that holds every comment exactly once. */
module CommentTheorems {
  import opened Common
  import opened CommentForest
  import S = Subsequences

  predicate UniqueIds(cs: seq<Comment>) {
    forall i, j :: 0 <= i < j < |cs| ==> cs[i].id != cs[j].id
  }

  lemma {:induction false} FiledIsListed(cs: seq<Comment>, c: Comment)
    requires UniqueIds(cs) && c in cs
    ensures Filed(cs, c.id) == Some(c) && c.id in Ids(cs)
  {
    FiledIds(cs, c.id);
    var i :| 0 <= i < |cs| && cs[i] == c;
    assert cs[i].id in Ids(cs);
    var found := Filed(cs, c.id).value;
    var j :| 0 <= j < |cs| && cs[j] == found;
  }

  // ---- chains of links ----

  // Where k links lead from an id; None once the chain has ended.
  function Up(cs: seq<Comment>, id: Text, k: nat): Option<Text> {
    if k == 0 then Some(id)
    else
      match Up(cs, id, k - 1)
      case None => None
      case Some(x) => Link(cs, x)
  }

  // The chain of links runs into a cycle: it never ends.
  ghost predicate Endless(cs: seq<Comment>, id: Text) {
    forall k: nat :: Up(cs, id, k).Some?
  }

  lemma {:induction false} RepeatIsEndless(cs: seq<Comment>, id: Text, i: nat, m: nat, k: nat)
    requires i < m && Up(cs, id, m).Some? && Up(cs, id, m) == Up(cs, id, i)
    ensures k < m ==> Up(cs, id, k).Some?
    ensures k >= m ==> Up(cs, id, k).Some? && Up(cs, id, k) == Up(cs, id, k - (m - i))
    decreases k, if k < m then m - k else 0
  {
    if k < m {
      EndedStaysEnded(cs, id, k, m);
    } else if k > m {
      RepeatIsEndless(cs, id, i, m, k - 1);
      RepeatIsEndless(cs, id, i, m, k - (m - i));
    }
  }

  lemma {:induction false} EndedStaysEnded(cs: seq<Comment>, id: Text, k: nat, m: nat)
    requires k <= m
    ensures Up(cs, id, k).None? ==> Up(cs, id, m).None?
    decreases m - k
  {
    if k < m {
      EndedStaysEnded(cs, id, k + 1, m);
    }
  }

  // The ids of the first m steps of a chain.
  ghost predicate Visited(cs: seq<Comment>, id: Text, visited: set<Text>, m: nat) {
    && (forall k: nat :: k < m ==> Up(cs, id, k).Some? && Up(cs, id, k).value in visited)
    && (forall x :: x in visited ==> exists k: nat :: k < m && Up(cs, id, k) == Some(x))
  }

  lemma VisitedGrows(cs: seq<Comment>, id: Text, visited: set<Text>, m: nat)
    requires Visited(cs, id, visited, m) && Up(cs, id, m).Some?
    ensures Visited(cs, id, visited + {Up(cs, id, m).value}, m + 1)
  {
    hide Up;
    forall x | x in visited + {Up(cs, id, m).value} ensures exists k: nat :: k < m + 1 && Up(cs, id, k) == Some(x) {
      if x in visited {
        var k: nat :| k < m && Up(cs, id, k) == Some(x);
        assert k < m + 1;
      } else {
        assert Up(cs, id, m) == Some(x);
      }
    }
  }

  lemma VisitedIsEndless(cs: seq<Comment>, id: Text, visited: set<Text>, m: nat)
    requires Visited(cs, id, visited, m) && Up(cs, id, m).Some? && Up(cs, id, m).value in visited
    ensures Endless(cs, id)
  {
    hide Up;
    var i: nat :| i < m && Up(cs, id, i) == Up(cs, id, m);
    forall k: nat ensures Up(cs, id, k).Some? {
      RepeatIsEndless(cs, id, i, m, k);
    }
  }

  // The search after m links: visited holds the ids before, p is the next one.
  lemma {:induction false} MeetsIsEndless(cs: seq<Comment>, id: Text, visited: set<Text>, m: nat)
    requires Visited(cs, id, visited, m)
    ensures Meets(cs, visited, Up(cs, id, m)) <==> Endless(cs, id)
    decreases |Ids(cs) - visited|
  {
    hide Visited, Ids;
    var p := Up(cs, id, m);
    if p.Some? {
      if p.value in visited {
        VisitedIsEndless(cs, id, visited, m);
      } else if p.value !in Ids(cs) {
        FiledIds(cs, p.value);
        assert Up(cs, id, m + 1).None?;
      } else {
        var more := visited + {p.value};
        assert p.value in Ids(cs) - visited && p.value !in Ids(cs) - more;
        SmallerSet(Ids(cs) - more, Ids(cs) - visited);
        VisitedGrows(cs, id, visited, m);
        MeetsIsEndless(cs, id, more, m + 1);
        assert Up(cs, id, m + 1) == Link(cs, p.value);
      }
    }
  }

  /**
   * The detached roots are exactly the comments with a parent link whose parent is not in the list or whose
   * chain of links runs into a cycle.
   */
  lemma DetachedExactly(cs: seq<Comment>, c: Comment)
    requires UniqueIds(cs) && c in cs
    ensures Detached(cs, c) <==> Parent(c).Some? && (Parent(c).value !in Ids(cs) || Endless(cs, c.id))
  {
    FiledIsListed(cs, c);
    assert Up(cs, c.id, 0) == Some(c.id);
    assert Up(cs, c.id, 1) == Parent(c);
    MeetsIsEndless(cs, c.id, {c.id}, 1);
  }

  // ---- every comment has one place ----

  lemma {:induction false} Places(cs: seq<Comment>, from: seq<Comment>, id: Text)
    ensures forall c :: c in Roots(cs, from) <==> c in from && !Attached(cs, c)
    ensures forall c :: c in Children(cs, from, id) <==> c in from && Attached(cs, c) && Parent(c) == Some(id)
  {
    hide Attached;
    if from != [] {
      var (front, last) := (from[..|from| - 1], from[|from| - 1]);
      assert from == front + [last];
      Places(cs, front, id);
    }
  }

  /** Roots and siblings keep the order of the list. */
  lemma {:induction false} OrderIsKept(cs: seq<Comment>, from: seq<Comment>, id: Text)
    ensures S.Subsequence(Roots(cs, from), from)
    ensures S.Subsequence(Children(cs, from, id), from)
  {
    hide Attached;
    if from != [] {
      var (front, last) := (from[..|from| - 1], from[|from| - 1]);
      OrderIsKept(cs, front, id);
      assert from == front + [last];
      S.Same([last]);
      S.Concat(Roots(cs, front), front, [last], [last]);
      S.Concat(Roots(cs, front), front, [], [last]);
      S.Concat(Children(cs, front, id), front, [last], [last]);
      S.Concat(Children(cs, front, id), front, [], [last]);
      assert Roots(cs, front) + [] == Roots(cs, front) && Children(cs, front, id) + [] == Children(cs, front, id);
    }
  }

  // ---- paths from the roots ----

  // A way down the forest: it starts at a root and follows child lists.
  predicate RootPath(cs: seq<Comment>, p: seq<Comment>) {
    p != [] && p[0] in Roots(cs, cs) && forall i :: 0 <= i < |p| - 1 ==> p[i + 1] in Children(cs, cs, p[i].id)
  }

  lemma {:induction false} PathTo(cs: seq<Comment>, c: Comment, k: nat) returns (p: seq<Comment>)
    requires UniqueIds(cs) && c in cs && (Attached(cs, c) ==> Up(cs, c.id, k).None?)
    ensures RootPath(cs, p) && p[|p| - 1] == c
    decreases k
  {
    hide Attached, Roots, Children, Ids;
    Places(cs, cs, c.id);
    if !Attached(cs, c) {
      p := [c];
    } else {
      assert Parent(c).Some? && Parent(c).value in Ids(cs) by {
        AttachedHasParent(cs, c);
      }
      FiledIds(cs, Parent(c).value);
      var parent := Filed(cs, Parent(c).value).value;
      FiledIsListed(cs, c);
      UpFromParent(cs, c, k);
      var q := PathTo(cs, parent, k - 1);
      Places(cs, cs, parent.id);
      p := q + [c];
    }
  }

  lemma AttachedHasParent(cs: seq<Comment>, c: Comment)
    requires Attached(cs, c)
    ensures Parent(c).Some? && Parent(c).value in Ids(cs)
  {
  }

  lemma {:induction false} UpFromParent(cs: seq<Comment>, c: Comment, k: nat)
    requires Filed(cs, c.id) == Some(c) && Parent(c).Some? && Up(cs, c.id, k).None?
    ensures k > 0 && Up(cs, Parent(c).value, k - 1).None?
  {
    if k > 1 {
      ShiftUp(cs, c, k - 1);
    }
  }

  lemma {:induction false} ShiftUp(cs: seq<Comment>, c: Comment, k: nat)
    requires Filed(cs, c.id) == Some(c) && Parent(c).Some?
    ensures Up(cs, c.id, k + 1) == Up(cs, Parent(c).value, k)
  {
    if k > 0 {
      ShiftUp(cs, c, k - 1);
    }
  }

  lemma {:induction false} OnePath(cs: seq<Comment>, p: seq<Comment>, q: seq<Comment>)
    requires UniqueIds(cs) && RootPath(cs, p) && RootPath(cs, q) && p[|p| - 1] == q[|q| - 1]
    ensures p == q
    decreases |p|
  {
    hide Attached, Roots, Children;
    var c := p[|p| - 1];
    Places(cs, cs, c.id);
    var p', q' := p[..|p| - 1], q[..|q| - 1];
    assert p == p' + [c] && q == q' + [c];
    if p' != [] {
      Above(cs, p);
    }
    if q' != [] {
      Above(cs, q);
    }
    if p' != [] && q' != [] {
      FiledIsListed(cs, p'[|p'| - 1]);
      FiledIsListed(cs, q'[|q'| - 1]);
      OnePath(cs, p', q');
    }
  }

  // The step before the last leads from the comment's own parent.
  lemma {:induction false} Above(cs: seq<Comment>, p: seq<Comment>)
    requires RootPath(cs, p) && |p| > 1
    ensures RootPath(cs, p[..|p| - 1]) && p[|p| - 2] in cs
    ensures Attached(cs, p[|p| - 1]) && Parent(p[|p| - 1]) == Some(p[|p| - 2].id)
  {
    hide Attached, Roots, Children;
    var i := |p| - 2;
    assert p[i + 1] in Children(cs, cs, p[i].id);
    Places(cs, cs, p[i].id);
    if i > 0 {
      assert p[(i - 1) + 1] in Children(cs, cs, p[i - 1].id);
      Places(cs, cs, p[i - 1].id);
    }
  }

  /** Every comment hangs below exactly one root, by exactly one path, and no path repeats a comment. */
  lemma ForestHoldsEachCommentOnce(cs: seq<Comment>, c: Comment)
    requires UniqueIds(cs) && c in cs
    ensures exists p :: RootPath(cs, p) && p[|p| - 1] == c
    ensures forall p, q :: RootPath(cs, p) && RootPath(cs, q) && p[|p| - 1] == c && q[|q| - 1] == c ==> p == q
    ensures forall p, i, j :: RootPath(cs, p) && 0 <= i < j < |p| ==> p[i] != p[j]
  {
    var k := FiniteChain(cs, c);
    var p := PathTo(cs, c, k);
    forall p, q | RootPath(cs, p) && RootPath(cs, q) && p[|p| - 1] == c && q[|q| - 1] == c ensures p == q {
      OnePath(cs, p, q);
    }
    forall p, i, j | RootPath(cs, p) && 0 <= i < j < |p| ensures p[i] != p[j] {
      if p[i] == p[j] {
        OnePath(cs, p[..i + 1], p[..j + 1]);
      }
    }
  }

  lemma FiniteChain(cs: seq<Comment>, c: Comment) returns (k: nat)
    requires UniqueIds(cs) && c in cs
    ensures Attached(cs, c) ==> Up(cs, c.id, k).None?
  {
    DetachedExactly(cs, c);
    if Attached(cs, c) {
      k :| Up(cs, c.id, k).None?;
    } else {
      k := 0;
    }
  }
}
