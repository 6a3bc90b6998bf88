/** Facts about multiplication and Euclidean division on naturals used by
    the work-list and report proofs. */
module Arith {

  lemma MulAtLeast(a: int, m: nat)
    requires a >= 1
    ensures a * m >= m
  {
  }

  /** Euclidean division is unique: `q`, `r` with `i == q * m + r` and
      `0 <= r < m` are the quotient and the remainder. */
  lemma DivModUnique(i: int, m: nat, q: int, r: int)
    requires 0 < m && 0 <= r < m && i == q * m + r
    ensures i / m == q && i % m == r
  {
    var q', r' := i / m, i % m;
    assert (q - q') * m == r' - r;
    if q > q' {
      MulAtLeast(q - q', m);
    } else if q < q' {
      MulAtLeast(q' - q, m);
    }
  }
}
