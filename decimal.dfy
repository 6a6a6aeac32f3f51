/** Decimal rendering of natural numbers, the way Go's strconv.Itoa prints the
    non-negative loop indices that the ledger appends to its seed-key prefixes. */
module Decimal {

  predicate IsDigit(c: char) {
    '0' <= c <= '9'
  }

  /** The character of a single decimal digit. */
  function DigitChar(d: nat): (c: char)
    requires d < 10
    ensures c as int == '0' as int + d
    ensures IsDigit(c)
  {
    ('0' as int + d) as char
  }

  /** strconv.Itoa on a non-negative int: most significant digit first, no sign, no leading zero. */
  function Itoa(n: nat): (s: string)
    ensures |s| >= 1
    ensures forall i :: 0 <= i < |s| ==> IsDigit(s[i])
    ensures n < 10 <==> |s| == 1
    ensures s[|s| - 1] == DigitChar(n % 10)
    ensures |s| > 1 ==> s[0] != '0'
  {
    if n < 10 then [DigitChar(n)] else Itoa(n / 10) + [DigitChar(n % 10)]
  }

  /** Distinct numbers print differently, so keys built from distinct indices are distinct. */
  lemma {:induction false} ItoaInjective(a: nat, b: nat)
    requires Itoa(a) == Itoa(b)
    ensures a == b
  {
    var sa, sb := Itoa(a), Itoa(b);
    assert DigitChar(a % 10) == sa[|sa| - 1] == sb[|sb| - 1] == DigitChar(b % 10);
    assert a % 10 == b % 10 by {
      assert DigitChar(a % 10) as int == DigitChar(b % 10) as int;
    }
    if a >= 10 && b >= 10 {
      assert Itoa(a / 10) == sa[..|sa| - 1];
      assert Itoa(b / 10) == sb[..|sb| - 1];
      ItoaInjective(a / 10, b / 10);
    }
  }
}
