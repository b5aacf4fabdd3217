/** The white space JavaScript's `trim` and `\s` know. */
module Whitespace {
  import opened Utf8

  predicate Space(u: Unit) {
    9 <= u <= 13 || u == 0x20 || u == 0xA0 || u == 0x1680 || 0x2000 <= u <= 0x200A || u == 0x2028 || u == 0x2029
    || u == 0x202F || u == 0x205F || u == 0x3000 || u == 0xFEFF
  }

  function Trim(t: seq<Unit>): (r: seq<Unit>)
    ensures r == [] || (!Space(r[0]) && !Space(r[|r| - 1]))
    ensures t != [] && !Space(t[0]) && !Space(t[|t| - 1]) ==> r == t
    decreases |t|
  {
    if t == [] then []
    else if Space(t[0]) then Trim(t[1..])
    else if Space(t[|t| - 1]) then Trim(t[..|t| - 1])
    else t
  }

  predicate AllSpace(t: seq<Unit>) { forall u <- t :: Space(u) }

  /** Trimming takes white space off the two ends, and nothing else. */
  lemma {:induction false} TrimExactly(t: seq<Unit>) returns (a: seq<Unit>, b: seq<Unit>)
    ensures t == a + Trim(t) + b && AllSpace(a) && AllSpace(b)
    decreases |t|
  {
    if t == [] {
      a, b := [], [];
    } else if Space(t[0]) {
      a, b := TrimExactly(t[1..]);
      a := [t[0]] + a;
      assert t == [t[0]] + t[1..];
    } else if Space(t[|t| - 1]) {
      a, b := TrimExactly(t[..|t| - 1]);
      b := b + [t[|t| - 1]];
      assert t == t[..|t| - 1] + [t[|t| - 1]];
    } else {
      a, b := [], [];
      assert [] + t + [] == t;
    }
  }

  lemma TrimIsEmpty(t: seq<Unit>)
    ensures Trim(t) == [] <==> !exists u <- t :: !Space(u)
  {
    var a, b := TrimExactly(t);
    assert forall u :: u in t <==> u in a || u in Trim(t) || u in b;
    if Trim(t) != [] {
      assert Trim(t)[0] in Trim(t);
    }
  }
}
