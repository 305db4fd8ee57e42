/** Decimal notation of integers. */
module Decimal {

  function Digit(d: nat): char
    requires d < 10
  {
    "0123456789"[d]
  }

  function Dec(n: nat): string {
    if n < 10 then [Digit(n)] else Dec(n / 10) + [Digit(n % 10)]
  }

  function IntText(i: int): string { if i < 0 then "-" + Dec(-i) else Dec(i) }

  predicate IsDigit(c: char) { '0' <= c <= '9' }

  lemma {:induction false} DecDigits(n: nat)
    ensures Dec(n) != "" && forall c :: c in Dec(n) ==> IsDigit(c)
  {
    if n >= 10 { DecDigits(n / 10); }
  }

  lemma {:induction false} DecInjective(m: nat, n: nat)
    requires Dec(m) == Dec(n)
    ensures m == n
  {
    DecLast(m);
    DecLast(n);
    if m >= 10 && n >= 10 { DecInjective(m / 10, n / 10); }
  }

  /** The last character is the last digit, and what precedes it the rest of the number. */
  lemma DecLast(n: nat)
    ensures var k := |Dec(n)| - 1;
      k >= 0 && Dec(n)[k] == Digit(n % 10) && (k == 0 <==> n < 10) && (n >= 10 ==> Dec(n)[..k] == Dec(n / 10))
  {
    DecDigits(n / 10);
  }

  lemma IntTextSpec(i: int)
    ensures IntText(i) != "" && (IntText(i)[0] == '-' <==> i < 0)
    ensures '.' !in IntText(i)
  {
    DecDigits(if i < 0 then -i else i);
    if i >= 0 { assert Dec(i)[0] in Dec(i); }
  }

  lemma IntTextInjective(i: int, j: int)
    requires IntText(i) == IntText(j)
    ensures i == j
  {
    IntTextSpec(i);
    IntTextSpec(j);
    if i < 0 {
      assert IntText(i)[1..] == Dec(-i) && IntText(j)[1..] == Dec(-j);
      DecInjective(-i, -j);
    } else {
      DecInjective(i, j);
    }
  }
}
