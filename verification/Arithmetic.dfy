/** Multiples and quotients, where the verifier needs a hand. */
module Arithmetic {
  lemma MultipleGrows(q: int, m: int)
    requires m > 0
    ensures q >= 1 ==> m * q >= m
    ensures q <= -1 ==> m * q <= -m
  {
  }

  function Min(a: int, b: int): int {
    if a < b then a else b
  }

  /** A product as a sum, for loops that count it up. */
  function Times(n: nat, d: int): int {
    if n == 0 then 0 else Times(n - 1, d) + d
  }

  lemma {:induction false} TimesIs(n: nat, d: int)
    ensures Times(n, d) == d * n
  {
    if n > 0 { TimesIs(n - 1, d); }
  }

  lemma QuotientAtLeast(n: nat, d: nat, q: nat)
    requires d > 0 && Times(q, d) <= n
    ensures n / d >= q
  {
    TimesIs(q, d);
    assert n == d * (n / d) + n % d;
    MultipleGrows(q - n / d, d);
    assert d * q == d * (n / d) + d * (q - n / d);
  }

  lemma QuotientBelow(n: nat, d: nat, q: nat)
    requires d > 0 && n < Times(q, d)
    ensures n / d < q
  {
    TimesIs(q, d);
    assert n == d * (n / d) + n % d;
    MultipleGrows(n / d - q, d);
    assert d * (n / d) == d * q + d * (n / d - q);
  }
}
