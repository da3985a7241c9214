// A wait that doubles from one second up to a limit, in milliseconds.
module Backoffs {
  import opened Basics

  const SECOND: nat := 1000

  function Pow2(k: nat): (p: nat)
    ensures p >= 1
  {
    if k == 0 then 1 else 2 * Pow2(k - 1)
  }

  // The wait after `k` earlier waits in a row: min(2^k seconds, max).
  function Nth(k: nat, max: nat): nat {
    Min(Pow2(k) * SECOND, max)
  }

  // Doubling and cutting off is one more wait.
  lemma NextNth(k: nat, max: nat)
    requires max >= SECOND
    ensures Min(2 * Nth(k, max), max) == Nth(k + 1, max)
    ensures SECOND <= Nth(k, max) <= max
  {
    assert Pow2(k + 1) * SECOND == 2 * (Pow2(k) * SECOND);
  }
}
