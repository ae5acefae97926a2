/** Powers of two, multiples and remainders. */
module Arithmetic {
  const TWO32: nat := 0x1_0000_0000
  const TWO64: nat := 0x1_0000_0000_0000_0000

  function Pow2(k: nat): (p: nat)
    ensures 0 < p
  {
    if k == 0 then 1 else 2 * Pow2(k - 1)
  }

  lemma {:induction false} Pow2Grows(j: nat, k: nat)
    requires j < k
    ensures 2 * Pow2(j) <= Pow2(k)
  {
    if j + 1 < k { Pow2Grows(j, k - 1); }
  }

  lemma SmallMultiple(d: int, m: int)
    requires -m < d * m < m
    ensures d == 0
  {
  }

  /** Quotient and remainder are unique. */
  lemma QuotientRemainder(x: nat, m: nat, q: nat, r: nat)
    requires r < m && x == q * m + r
    ensures x / m == q && x % m == r
  {
    var d := x / m - q;
    assert d * m == r - x % m;
    assert 0 - m < d * m < m;
    SmallMultiple(d, m);
  }

  lemma Multiples(q: nat, n: nat, m: nat)
    ensures q > n ==> q * m >= n * m + m
    ensures q < n ==> q * m + m <= n * m
  {
    if q > n {
      OneMore(n, q - n - 1, m);
    } else if q < n {
      OneMore(q, n - q - 1, m);
    }
  }

  lemma OneMore(n: nat, d: nat, m: nat)
    ensures (n + 1 + d) * m == n * m + m + d * m && 0 <= d * m
  {
  }
}
