/** The smaller and the larger of two numbers, and facts about products and quotients. */
module Arithmetic {
  function Min(a: int, b: int): int { if a < b then a else b }

  function Max(a: int, b: int): int { if a < b then b else a }

  lemma Distribute(k: int, n: nat)
    ensures (k + 1) * n == k * n + n
  {}

  lemma {:induction false} ProductGrows(a: int, b: int, n: nat)
    requires a < b
    ensures a * n + n <= b * n
    decreases b - a
  {
    Distribute(b - 1, n);
    if a < b - 1 {
      ProductGrows(a, b - 1, n);
    }
  }

  lemma QuotientIsUnique(k: int, n: nat, q: int, r: nat)
    requires r < n && k == q * n + r
    ensures k / n == q && k % n == r
  {
    assert k == (k / n) * n + k % n;
    if q < k / n {
      ProductGrows(q, k / n, n);
    } else if k / n < q {
      ProductGrows(k / n, q, n);
    }
  }
}
