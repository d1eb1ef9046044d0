/** internal/notify/worker.go: the retry delay, in 64-bit time.Duration arithmetic. */
module Backoff {
  const INT64_MAX: int := 0x7FFF_FFFF_FFFF_FFFF
  const TWO_TO_THE_63: int := 0x8000_0000_0000_0000
  const TWO_TO_THE_64: int := 0x1_0000_0000_0000_0000
  const MAX_SHIFT: nat := 10

  /** The value a Go int64 holds after an operation whose exact result is x. */
  function Wrap64(x: int): int {
    (x + TWO_TO_THE_63) % TWO_TO_THE_64 - TWO_TO_THE_63
  }

  function Pow2(n: nat): (r: nat)
    ensures r >= 1
  {
    if n == 0 then 1 else 2 * Pow2(n - 1)
  }

  function Shift(newAttempts: nat): nat {
    if newAttempts > MAX_SHIFT then MAX_SHIFT else newAttempts
  }

  /** The delay in exact arithmetic. */
  function ExactBackoff(base: int, newAttempts: nat): int {
    base * Pow2(Shift(newAttempts))
  }

  /** The delay the worker computes. */
  function NextBackoff(base: int, newAttempts: nat): int {
    Wrap64(ExactBackoff(base, newAttempts))
  }

  /** The least time from the first recorded failure of a row to its k-th. */
  ghost function TotalBackoff(base: int, k: nat): int {
    if k <= 1 then 0 else TotalBackoff(base, k - 1) + NextBackoff(base, k - 1)
  }

  lemma Pow2At10()
    ensures Pow2(10) == 1024
  {
    assert Pow2(5) == 32;
    assert Pow2(10) == 2 * (2 * (2 * (2 * (2 * Pow2(5)))));
  }

  lemma {:induction false} Pow2Monotone(m: nat, n: nat)
    requires m <= n
    ensures Pow2(m) <= Pow2(n)
    decreases n - m
  {
    if m < n {
      Pow2Monotone(m + 1, n);
    }
  }

  lemma ScaleMonotone(base: int, a: int, b: int)
    requires base >= 0 && a <= b
    ensures base * a <= base * b
  {
    assert base * (b - a) >= 0;
    assert base * (b - a) == base * b - base * a;
  }

  /** Delays never shrink with more attempts and never pass 1024 times the base. */
  lemma ExactMonotone(base: int, i: nat, j: nat)
    requires base > 0 && i <= j
    ensures 0 < ExactBackoff(base, i) <= ExactBackoff(base, j) <= 1024 * base
  {
    Pow2Monotone(0, Shift(i));
    Pow2Monotone(Shift(i), Shift(j));
    Pow2Monotone(Shift(j), 10);
    Pow2At10();
    ScaleMonotone(base, 1, Pow2(Shift(i)));
    ScaleMonotone(base, Pow2(Shift(i)), Pow2(Shift(j)));
    ScaleMonotone(base, Pow2(Shift(j)), 1024);
  }

  lemma WrapExact(x: int)
    requires x > 0
    ensures Wrap64(x) == x <==> x <= INT64_MAX
  {
    if x <= INT64_MAX {
      assert (x + TWO_TO_THE_63) % TWO_TO_THE_64 == x + TWO_TO_THE_63;
    }
  }

  /** One delay is computed exactly if and only if it fits in an int64. */
  lemma BackoffExactIff(base: int, newAttempts: nat)
    requires base > 0
    ensures NextBackoff(base, newAttempts) == ExactBackoff(base, newAttempts)
            <==> ExactBackoff(base, newAttempts) <= INT64_MAX
  {
    ExactMonotone(base, newAttempts, newAttempts);
    WrapExact(ExactBackoff(base, newAttempts));
  }

  /** Every delay is computed exactly if and only if the base is at most (2^63 - 1) / 1024. */
  lemma BackoffFits(base: int)
    requires base > 0
    ensures base <= INT64_MAX / 1024
            <==> forall k: nat :: NextBackoff(base, k) == ExactBackoff(base, k)
  {
    Pow2At10();
    BackoffExactIff(base, 10);
    if base <= INT64_MAX / 1024 {
      forall k: nat ensures NextBackoff(base, k) == ExactBackoff(base, k) {
        ExactMonotone(base, k, k);
        BackoffExactIff(base, k);
      }
    } else {
      assert ExactBackoff(base, 10) == base * 1024;
      assert NextBackoff(base, 10) != ExactBackoff(base, 10);
    }
  }

  /** For any base, the delay is what a signed 64-bit product holds: in range, and off by a multiple of 2^64. */
  lemma BackoffWraps(base: int, newAttempts: nat)
    ensures -0x8000_0000_0000_0000 <= NextBackoff(base, newAttempts) <= 0x7FFF_FFFF_FFFF_FFFF
    ensures (ExactBackoff(base, newAttempts) - NextBackoff(base, newAttempts)) % 0x1_0000_0000_0000_0000 == 0
  {
    var x := ExactBackoff(base, newAttempts) + TWO_TO_THE_63;
    assert x - x % TWO_TO_THE_64 == x / TWO_TO_THE_64 * TWO_TO_THE_64;
  }

  lemma BackoffMonotone(base: int, i: nat, j: nat)
    requires 0 < base <= INT64_MAX / 1024 && i <= j
    ensures 0 < NextBackoff(base, i) <= NextBackoff(base, j) <= 1024 * base
  {
    BackoffFits(base);
    ExactMonotone(base, i, j);
  }

  /** The delays: the base before any attempt, doubled by each attempt up to the tenth, and the same from then on. */
  lemma DelaysDouble(base: int, k: nat)
    requires 0 < base <= INT64_MAX / 1024
    ensures NextBackoff(base, 0) == base && NextBackoff(base, 10) == 1024 * base
    ensures NextBackoff(base, k + 1) == if k < 10 then 2 * NextBackoff(base, k) else 1024 * base
  {
    BackoffFits(base);
    Pow2At10();
    assert forall n: nat :: NextBackoff(base, n) == ExactBackoff(base, n);
    if k < 10 {
      assert Pow2(k + 1) == 2 * Pow2(k);
      assert base * (2 * Pow2(k)) == 2 * (base * Pow2(k));
    }
  }

  lemma TotalBackoffStep(base: int, k: nat)
    requires 0 < base <= INT64_MAX / 1024 && k >= 1
    ensures TotalBackoff(base, k + 1) == TotalBackoff(base, k) + ExactBackoff(base, k)
  {
    BackoffFits(base);
    assert NextBackoff(base, k) == ExactBackoff(base, k);
  }

  /** Up to the eleventh failure the summed delays are base * (2^k - 2). */
  lemma {:induction false} TotalBackoffGrowing(base: int, k: nat)
    requires 0 < base <= INT64_MAX / 1024 && 1 <= k <= 11
    ensures TotalBackoff(base, k) == base * (Pow2(k) - 2)
  {
    if k == 1 {
      assert Pow2(1) == 2;
    } else {
      TotalBackoffGrowing(base, k - 1);
      TotalBackoffStep(base, k - 1);
      Doubling(base, Pow2(k - 1));
    }
  }

  lemma Doubling(base: int, p: int)
    ensures base * (2 * p - 2) == base * (p - 2) + base * p
  {
  }

  /** From the eleventh on, each failure adds 1024 * base. */
  lemma {:induction false} TotalBackoffCapped(base: int, k: nat)
    requires 0 < base <= INT64_MAX / 1024 && k >= 11
    ensures TotalBackoff(base, k) == 2046 * base + (k - 11) * (1024 * base)
  {
    Pow2At10();
    if k == 11 {
      TotalBackoffGrowing(base, 11);
      assert Pow2(11) == 2 * Pow2(10);
    } else {
      TotalBackoffCapped(base, k - 1);
      TotalBackoffStep(base, k - 1);
      assert ExactBackoff(base, k - 1) == base * 1024;
      var d := 1024 * base;
      assert (k - 11) * d == (k - 12) * d + d;
    }
  }
}
