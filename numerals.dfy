/**
 Decimal rendering of natural numbers, as JavaScript's template literals
 print the integers `Date.now()` and `Math.floor(Math.random() * 1000)`.
 */
module Numerals {

  function DigitChar(d: nat): (c: char)
    requires d < 10
    ensures '0' <= c <= '9'
    ensures c as int - '0' as int == d
  {
    ('0' as int + d) as char
  }

  /** The decimal digits of `n`, most significant first, without leading zeros. */
  function Decimal(n: nat): (s: string)
    ensures |s| >= 1
    ensures forall i :: 0 <= i < |s| ==> '0' <= s[i] <= '9'
    ensures |s| == 1 <==> n < 10
  {
    if n < 10 then [DigitChar(n)] else Decimal(n / 10) + [DigitChar(n % 10)]
  }

  /** Two numbers print alike only when they are equal. */
  lemma {:induction false} DecimalInjective(a: nat, b: nat)
    requires Decimal(a) == Decimal(b)
    ensures a == b
  {
    if a >= 10 && b >= 10 {
      var s := Decimal(a);
      assert s == Decimal(a / 10) + [DigitChar(a % 10)];
      assert s == Decimal(b / 10) + [DigitChar(b % 10)];
      assert Decimal(a / 10) == s[..|s| - 1] == Decimal(b / 10);
      DecimalInjective(a / 10, b / 10);
      assert DigitChar(a % 10) == s[|s| - 1] == DigitChar(b % 10);
    } else if a < 10 && b < 10 {
      assert DigitChar(a) == Decimal(a)[0] == DigitChar(b);
    }
  }

  /** In `x + sep + y`, with no `sep` in `x`, the first `sep` stands right after `x`. */
  lemma FirstSeparator(x: string, y: string, sep: char)
    requires forall i :: 0 <= i < |x| ==> x[i] != sep
    ensures (x + [sep] + y)[|x|] == sep
    ensures forall i :: 0 <= i < |x| ==> (x + [sep] + y)[i] != sep
  {
  }

  /** Splitting `x + sep + y` at the first `sep` recovers `x` and `y` when `x` contains no `sep`. */
  lemma SplitAtSeparator(x1: string, y1: string, x2: string, y2: string, sep: char)
    requires forall i :: 0 <= i < |x1| ==> x1[i] != sep
    requires forall i :: 0 <= i < |x2| ==> x2[i] != sep
    requires x1 + [sep] + y1 == x2 + [sep] + y2
    ensures x1 == x2 && y1 == y2
  {
    var s := x1 + [sep] + y1;
    FirstSeparator(x1, y1, sep);
    FirstSeparator(x2, y2, sep);
    assert |x1| == |x2|;
    assert x1 == s[..|x1|] == x2;
    assert y1 == s[|x1| + 1..] == y2;
  }
}
