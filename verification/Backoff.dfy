/** Doubling delays with a cap, as both retry policies use them. */
module Backoff {

  function Pow2(k: nat): (p: nat)
    ensures p >= 1
  {
    if k == 0 then 1 else 2 * Pow2(k - 1)
  }

  function Min(a: int, b: int): int { if a <= b then a else b }

  function Max(a: int, b: int): int { if a >= b then a else b }

  /** `Math.round` on non-negative arguments. */
  function Round(x: real): int {
    (x + 0.5).Floor
  }

  lemma {:induction false} Pow2Grows(j: nat, k: nat)
    requires j <= k
    ensures Pow2(j) <= Pow2(k)
  {
    if j < k { Pow2Grows(j, k - 1); }
  }

  lemma RoundGrows(x: real, y: real)
    requires x <= y
    ensures Round(x) <= Round(y)
  {
  }

  lemma ScaleGrows(a: int, b: int, x: real, y: real)
    requires 0 <= a <= b && 0.0 <= x <= y
    ensures a as real * x <= b as real * y
  {
    assert a as real * x <= a as real * y;
    assert (b - a) as real * y >= 0.0;
    assert b as real * y == a as real * y + (b - a) as real * y;
  }
}
