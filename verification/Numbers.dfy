/** Number limits and powers shared by several components. */
module Numbers {

  const MAX_SAFE_INTEGER: int := 9_007_199_254_740_991

  function Pow2(n: nat): nat {
    if n == 0 then 1 else 2 * Pow2(n - 1)
  }

  /** Exponential back-off below a cap: each delay is twice the one before, until the cap. */
  function Backoff(base: nat, cap: nat, n: nat): nat {
    if base * Pow2(n) < cap then base * Pow2(n) else cap
  }

  lemma BackoffDoubles(base: nat, cap: nat, n: nat)
    ensures Backoff(base, cap, 0) == if base < cap then base else cap
    ensures Backoff(base, cap, n + 1) == if 2 * Backoff(base, cap, n) < cap then 2 * Backoff(base, cap, n) else cap
    ensures Backoff(base, cap, n) <= cap
  {
    assert base * Pow2(n + 1) == 2 * (base * Pow2(n));
    assert base * Pow2(0) == base;
  }
}
