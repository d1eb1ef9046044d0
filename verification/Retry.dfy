/** When a worker's retries happen, with the delays it really computes. */
module Retry {
  import opened Uuids
  import opened Outbox
  import OutboxInvariant
  import OutboxSteps
  import opened Workers
  import opened Backoff

  lemma {:induction false} DelaySumIsTotal(maxAttempts: nat, base: int, k: nat)
    ensures OutboxTheorems.DelaySum(Settings(maxAttempts, base), k) == TotalBackoff(base, k)
  {
    if k > 1 {
      DelaySumIsTotal(maxAttempts, base, k - 1);
    }
  }

  /** When a failed row is next due: the delay for its attempts so far after the last of them. */
  lemma NextAttempt(maxAttempts: nat, base: int, s: State, id: Uuid)
    requires maxAttempts >= 1 && Reachable(Settings(maxAttempts, base), s)
    requires id in s.rows && s.rows[id].status == Pending && s.rows[id].attempts > 0
    ensures var r := s.rows[id];
            && |r.failedAt| == r.attempts < maxAttempts
            && r.nextAttemptAt == r.failedAt[r.attempts - 1] + NextBackoff(base, r.attempts)
  {
    OutboxSteps.ReachableInv(Settings(maxAttempts, base), s);
    assert OutboxInvariant.RowOk(Settings(maxAttempts, base), s.rows[id]);
  }

  /** In every run, the k-th recorded failure of a row comes at least base * (2^k - 2) after the first for k up
      to 11, and 1024 * base more for each failure after that. */
  lemma FailureTimes(maxAttempts: nat, base: int, s: State, id: Uuid, k: nat)
    requires maxAttempts >= 1 && 0 < base <= INT64_MAX / 1024
    requires Reachable(Settings(maxAttempts, base), s) && id in s.rows
    requires 1 <= k <= s.rows[id].attempts
    ensures |s.rows[id].failedAt| == s.rows[id].attempts
    ensures k <= 11 ==> s.rows[id].failedAt[k - 1] - s.rows[id].failedAt[0] >= base * (Pow2(k) - 2)
    ensures k > 11 ==> s.rows[id].failedAt[k - 1] - s.rows[id].failedAt[0] >= 2046 * base + (k - 11) * (1024 * base)
  {
    OutboxTheorems.FailureSpacing(Settings(maxAttempts, base), s, id, k);
    DelaySumIsTotal(maxAttempts, base, k);
    if k <= 11 {
      TotalBackoffGrowing(base, k);
    } else {
      TotalBackoffCapped(base, k);
    }
  }
}
