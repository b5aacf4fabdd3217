/** One list contained in another, in order. */
module Subsequences {

  predicate Subsequence<T(==)>(a: seq<T>, b: seq<T>) {
    a == [] || (b != [] && ((a[0] == b[0] && Subsequence(a[1..], b[1..])) || Subsequence(a, b[1..])))
  }

  lemma {:induction false} Same<T>(a: seq<T>)
    ensures Subsequence(a, a)
  {
    if a != [] {
      Same(a[1..]);
    }
  }

  lemma {:induction false} Concat<T>(a: seq<T>, b: seq<T>, c: seq<T>, d: seq<T>)
    requires Subsequence(a, b) && Subsequence(c, d)
    ensures Subsequence(a + c, b + d)
    decreases |b|
  {
    if b == [] {
      assert a + c == c && b + d == d;
    } else {
      assert (b + d)[1..] == b[1..] + d;
      if a != [] && a[0] == b[0] && Subsequence(a[1..], b[1..]) {
        assert (a + c)[1..] == a[1..] + c;
        Concat(a[1..], b[1..], c, d);
      } else {
        Concat(a, b[1..], c, d);
      }
    }
  }

  lemma {:induction false} Members<T>(a: seq<T>, b: seq<T>)
    requires Subsequence(a, b)
    ensures forall x :: x in a ==> x in b
  {
    if a != [] {
      assert a == [a[0]] + a[1..] && b == [b[0]] + b[1..];
      if a[0] == b[0] && Subsequence(a[1..], b[1..]) {
        Members(a[1..], b[1..]);
      } else {
        Members(a, b[1..]);
      }
    }
  }
}
