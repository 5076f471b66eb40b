/** Powers of two, shared by the truth-table size and the retry backoff. */
module Powers {
  /** 2^n. */
  function Pow2(n: nat): (r: nat)
    ensures r >= 1
  {
    if n == 0 then 1 else 2 * Pow2(n - 1)
  }
}
