// Powers of two, for the backoff of the outbox and the masks of the network guard.
module Powers {
  function Pow2(n: nat): (r: nat)
    ensures r >= 1
  {
    if n == 0 then 1 else 2 * Pow2(n - 1)
  }

  lemma {:induction false} Pow2Grows(m: nat, n: nat)
    requires m <= n
    ensures Pow2(m) <= Pow2(n)
  {
    if m < n {
      Pow2Grows(m, n - 1);
    }
  }

  lemma {:induction false} Pow2Adds(m: nat, n: nat)
    ensures Pow2(m + n) == Pow2(m) * Pow2(n)
  {
    if m > 0 {
      Pow2Adds(m - 1, n);
      assert Pow2(m + n) == 2 * Pow2(m - 1 + n);
      assert 2 * (Pow2(m - 1) * Pow2(n)) == (2 * Pow2(m - 1)) * Pow2(n);
    }
  }

  lemma {:induction false} ScalingKeepsOrder(b: nat, x: nat, y: nat)
    requires x <= y
    ensures b * x <= b * y
  {
    if b > 0 {
      ScalingKeepsOrder(b - 1, x, y);
      assert b * x == (b - 1) * x + x && b * y == (b - 1) * y + y;
    }
  }
}
