/** Small arithmetic the other modules share. */
module Numbers {

  const SECONDS_PER_DAY := 86_400

  function Min(a: int, b: int): int { if a < b then a else b }

  function Max(a: int, b: int): int { if a < b then b else a }

  function Power2(n: nat): nat {
    if n == 0 then 1 else 2 * Power2(n - 1)
  }

  lemma {:induction false} Power2Grows(m: nat, n: nat)
    requires m <= n
    ensures 1 <= Power2(m) <= Power2(n)
  {
    if n > 0 && m < n { Power2Grows(m, n - 1); } else if n > 0 { Power2Grows(n - 1, n - 1); }
  }
}
