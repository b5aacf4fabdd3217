/** `indexOf`, `includes`, `split` and `join` on sequences. */
module TextSearch {

  predicate MatchesAt<T(==)>(s: seq<T>, p: seq<T>, i: nat) {
    i + |p| <= |s| && s[i..i + |p|] == p
  }

  lemma MatchUnits<T>(s: seq<T>, p: seq<T>, i: nat)
    requires MatchesAt(s, p, i)
    ensures i + |p| <= |s| && forall k :: 0 <= k < |p| ==> s[i + k] == p[k]
  {
    assert forall k :: 0 <= k < |p| ==> s[i..i + |p|][k] == p[k];
  }

  // The least match at or after `from`, or -1.
  function IndexOf<T(==)>(s: seq<T>, p: seq<T>, from: nat): (r: int)
    ensures r == -1 || (from <= r && MatchesAt(s, p, r))
    ensures forall k: nat :: from <= k && MatchesAt(s, p, k) ==> 0 <= r <= k
    decreases |s| - from
  {
    if from + |p| > |s| then -1
    else if MatchesAt(s, p, from) then from
    else IndexOf(s, p, from + 1)
  }

  function Split<T(==)>(s: seq<T>, at: T): (r: seq<seq<T>>)
    ensures |r| >= 1
  {
    if s == [] then [[]]
    else
      var rest := Split(s[1..], at);
      if s[0] == at then [[]] + rest else [[s[0]] + rest[0]] + rest[1..]
  }

  lemma {:induction false} SplitPlain<T>(a: seq<T>, at: T)
    requires at !in a
    ensures Split(a, at) == [a]
  {
    if a != [] {
      SplitPlain(a[1..], at);
      assert [a[0]] + a[1..] == a;
    }
  }

  lemma {:induction false} SplitFirst<T>(a: seq<T>, at: T, b: seq<T>)
    requires at !in a
    ensures Split(a + [at] + b, at) == [a] + Split(b, at)
  {
    var s := a + [at] + b;
    if a == [] {
      assert s[1..] == b;
    } else {
      SplitFirst(a[1..], at, b);
      assert s[1..] == a[1..] + [at] + b && [a[0]] + a[1..] == a;
    }
  }

  function Join<T>(parts: seq<seq<T>>, sep: T): seq<T> {
    if parts == [] then []
    else if |parts| == 1 then parts[0]
    else parts[0] + ([sep] + Join(parts[1..], sep))
  }

  lemma {:induction false} JoinSplit<T>(s: seq<T>, at: T)
    ensures Join(Split(s, at), at) == s
    ensures forall i :: 0 <= i < |Split(s, at)| ==> at !in Split(s, at)[i]
  {
    if s != [] {
      JoinSplit(s[1..], at);
      var rest := Split(s[1..], at);
      assert s == [s[0]] + s[1..];
      if s[0] == at {
        assert ([[]] + rest)[1..] == rest;
      } else {
        assert ([[s[0]] + rest[0]] + rest[1..])[1..] == rest[1..];
      }
    }
  }

  lemma {:induction false} SplitJoin<T>(parts: seq<seq<T>>, at: T)
    requires parts != [] && forall i :: 0 <= i < |parts| ==> at !in parts[i]
    ensures Split(Join(parts, at), at) == parts
  {
    if |parts| == 1 {
      SplitPlain(parts[0], at);
      assert parts == [parts[0]];
    } else {
      var rest := Join(parts[1..], at);
      SplitJoin(parts[1..], at);
      SplitFirst(parts[0], at, rest);
      assert parts[0] + [at] + rest == parts[0] + ([at] + rest);
      assert parts == [parts[0]] + parts[1..];
    }
  }

  predicate Includes<T(==)>(s: seq<T>, p: seq<T>) {
    IndexOf(s, p, 0) >= 0
  }

  lemma IncludesAround<T>(a: seq<T>, s: seq<T>, b: seq<T>, p: seq<T>)
    requires Includes(s, p)
    ensures Includes(a + s + b, p)
  {
    var i := IndexOf(s, p, 0);
    var t := a + s + b;
    assert t[|a|..|a| + |s|] == s;
    assert t[|a| + i..|a| + i + |p|] == s[i..i + |p|];
    assert MatchesAt(t, p, |a| + i);
  }

  /** What a part includes, the joined text includes. */
  lemma {:induction false} JoinIncludes<T>(parts: seq<seq<T>>, sep: T, i: nat, p: seq<T>)
    requires i < |parts| && Includes(parts[i], p)
    ensures Includes(Join(parts, sep), p)
  {
    hide Includes;
    if |parts| > 1 {
      var (first, rest) := (parts[0], Join(parts[1..], sep));
      if i == 0 {
        IncludesAround([], first, [sep] + rest, p);
        assert [] + first + ([sep] + rest) == first + ([sep] + rest);
      } else {
        JoinIncludes(parts[1..], sep, i - 1, p);
        IncludesAround(first + [sep], rest, [], p);
        assert first + [sep] + rest + [] == first + ([sep] + rest);
      }
    }
  }
}
