/** Plain ASCII literals and decimal numerals as UTF-16 units. */
module Ascii {
  import opened Utf8

  function UnitOf(c: char): Unit {
    if c as int < 0x80 then c as int else 0xFFFD
  }

  function Lit(s: string): (r: seq<Unit>)
    ensures |r| == |s|
    ensures forall i :: 0 <= i < |s| ==> r[i] == UnitOf(s[i])
  {
    seq(|s|, i requires 0 <= i < |s| => UnitOf(s[i]))
  }

  function Digit(d: nat): Unit
    requires d < 10
  {
    '0' as int + d
  }

  predicate IsDigit(u: int) { '0' as int <= u <= '9' as int }

  function Decimal(n: nat): (r: seq<Unit>)
    ensures r != [] && forall i :: 0 <= i < |r| ==> IsDigit(r[i])
  {
    if n < 10 then [Digit(n)] else Decimal(n / 10) + [Digit(n % 10)]
  }

  lemma {:induction false} DecimalInjective(m: nat, n: nat)
    requires Decimal(m) == Decimal(n)
    ensures m == n
  {
    var a, b := Decimal(m), Decimal(n);
    assert a[|a| - 1] == b[|b| - 1];
    if m >= 10 && n >= 10 {
      assert a[..|a| - 1] == Decimal(m / 10) && b[..|b| - 1] == Decimal(n / 10);
      DecimalInjective(m / 10, n / 10);
    }
  }
}
