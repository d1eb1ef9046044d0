/** Theorems about every run of the outbox machine, with any number of workers, aborts, lost commit
    acknowledgements and Redis answers. */
module OutboxTheorems {
  import opened Wrappers
  import opened Uuids
  import opened Messages
  import opened Outbox
  import opened OutboxInvariant
  import OutboxSteps
  import opened Sums

  // ---- accounting of publishes and pushes ----

  /** Successful publishes of a row = 1 if it is committed `sent`, + the aborted batches that had published it,
      + 1 if a batch still open has published it. */
  lemma PublishAccounting(cfg: Config, s: State, id: Uuid)
    requires ValidConfig(cfg) && Reachable(cfg, s)
    ensures s.acked[id] == SentCount(s, id) + s.wasted[id] + OpenCount(s, id)
    ensures OpenCount(s, id) == 1 <==> exists w :: id in AckedIn(SessionOf(s, w))
  {
    OutboxSteps.ReachableInv(cfg, s);
    assert s.acked[id] == SentCount(s, id) + s.wasted[id] + OpenCount(s, id);
    forall w | id in AckedIn(SessionOf(s, w)) ensures OpenCount(s, id) == 1 {
      assert SessionOk(cfg, s, SessionOf(s, w));
      AckedAreHeld(cfg, s, SessionOf(s, w));
      assert id in Held(SessionOf(s, w));
    }
  }

  /** A `sent` row was published with an acknowledgement at least once, exactly once unless a batch holding it aborted
      after such a publish, and its message is in the Redis log on its citizen's channel. Publishes whose answer was
      lost are counted by OutboxLedger. */
  lemma SentMeansPublished(cfg: Config, s: State, id: Uuid)
    requires ValidConfig(cfg) && Reachable(cfg, s)
    requires id in s.rows && s.rows[id].status == Sent
    ensures s.acked[id] == 1 + s.wasted[id]
    ensures Message(cfg.channel(s.rows[id].citizen), s.rows[id].payload) in s.redis
  {
    OutboxSteps.ReachableInv(cfg, s);
    assert s.acked[id] == SentCount(s, id) + s.wasted[id] + OpenCount(s, id);
    if id in s.locks {
      assert id in Held(SessionOf(s, s.locks[id]));
      OutboxInvariant.TouchedArePending(cfg, s, s.locks[id]);
      assert false;
    }
  }

  /** A row is pushed at most once, and only when its `sent` mark is committed; jobs waiting to be pushed are
      committed, distinct and not yet pushed. */
  lemma PushedAtMostOnce(cfg: Config, s: State, id: Uuid)
    requires ValidConfig(cfg) && Reachable(cfg, s)
    ensures s.pushed[id] <= SentCount(s, id) <= 1
    ensures forall w | id in Queued(SessionOf(s, w)) :: s.pushed[id] == 0 && SentCount(s, id) == 1
  {
    OutboxSteps.ReachableInv(cfg, s);
    assert s.pushed[id] <= SentCount(s, id);
    forall w | id in Queued(SessionOf(s, w)) ensures s.pushed[id] == 0 && SentCount(s, id) == 1 {
      OutboxSteps.QueuedAreSent(cfg, s, w, id);
    }
  }

  /** The jobs queued by an acknowledged commit are the batch's rows whose mark is `sent`, in batch order; a lost
      acknowledgement commits the same rows and queues none. */
  lemma CommitQueuesSentRows(cfg: Config, s: State, w: WorkerId)
    requires ValidConfig(cfg) && Reachable(cfg, s) && Enabled(s, Commit(w))
    ensures SessionOf(s, w).jobs == SentAmong(SessionOf(s, w).claims, SessionOf(s, w).staged)
    ensures SessionOf(Apply(cfg, s, Commit(w)), w) == Pushing(SessionOf(s, w).jobs)
    ensures SessionOf(Apply(cfg, s, CommitAckLost(w)), w) == Idle
    ensures Apply(cfg, s, CommitAckLost(w)).rows == Apply(cfg, s, Commit(w)).rows
  {
    CommitSession(cfg, s, w);
    FinishedJobs(cfg, s, SessionOf(s, w));
    CommitsAlike(cfg, s, w);
  }

  lemma CommitsAlike(cfg: Config, s: State, w: WorkerId)
    requires Enabled(s, Commit(w))
    ensures SessionOf(Apply(cfg, s, CommitAckLost(w)), w) == Idle
    ensures Apply(cfg, s, CommitAckLost(w)).rows == Apply(cfg, s, Commit(w)).rows
  {
  }

  /** A committed batch leaves exactly its jobs `sent`. */
  lemma CommitMarksJobsSent(cfg: Config, s: State, w: WorkerId, i: nat)
    requires ValidConfig(cfg) && Reachable(cfg, s) && Enabled(s, Commit(w)) && i < |SessionOf(s, w).claims|
    ensures var c := SessionOf(s, w).claims[i];
            var rows := Apply(cfg, s, Commit(w)).rows;
            c.id in rows && (rows[c.id].status == Sent <==> c in SessionOf(s, w).jobs)
  {
    CommitSession(cfg, s, w);
    FinishedJobs(cfg, s, SessionOf(s, w));
  }

  lemma CommitSession(cfg: Config, s: State, w: WorkerId)
    requires ValidConfig(cfg) && Reachable(cfg, s) && Enabled(s, Commit(w))
    ensures SessionOk(cfg, s, SessionOf(s, w))
    ensures SessionOf(Apply(cfg, s, Commit(w)), w) == Pushing(SessionOf(s, w).jobs)
    ensures Apply(cfg, s, Commit(w)).rows == s.rows + SessionOf(s, w).staged
  {
    OutboxSteps.ReachableInv(cfg, s);
  }

  lemma FinishedJobs(cfg: Config, s: State, n: Session)
    requires n.Working? && SessionOk(cfg, s, n) && n.done == |n.claims|
    ensures n.jobs == SentAmong(n.claims, n.staged)
    ensures forall i | 0 <= i < |n.claims| ::
              n.claims[i].id in n.staged
              && (n.staged[n.claims[i].id].status == Sent <==> n.claims[i] in n.jobs)
  {
    assert n.claims[..n.done] == n.claims;
    SentAmongMembers(n.claims, n.staged);
    forall i | 0 <= i < |n.claims|
      ensures n.claims[i].id in n.staged
              && (n.staged[n.claims[i].id].status == Sent <==> n.claims[i] in n.jobs)
    {
      assert n.claims[i] in n.claims;
    }
  }

  // ---- locks and stale copies ----

  /** No row is claimed by two open batches. */
  lemma ClaimsDisjoint(cfg: Config, s: State, v: WorkerId, w: WorkerId)
    requires ValidConfig(cfg) && Reachable(cfg, s) && v != w
    ensures Held(SessionOf(s, v)) !! Held(SessionOf(s, w))
  {
    OutboxSteps.ReachableInv(cfg, s);
    forall id | id in Held(SessionOf(s, v)) ensures id !in Held(SessionOf(s, w)) {
      assert s.locks[id] == v;
    }
  }

  /** When a row is about to be marked, the worker's copy equals the stored row, which is pending and which this
      transaction has not rewritten: the count the worker decides by is the count SQL increments. */
  lemma MarkIsCurrent(cfg: Config, s: State, w: WorkerId)
    requires ValidConfig(cfg) && Reachable(cfg, s)
    requires var n := SessionOf(s, w);
             n.Working? && n.done < |n.claims| && n.answer.Some?
    ensures var n := SessionOf(s, w);
            var c := n.claims[n.done];
            && n.now <= s.clock && Enabled(s, Mark(w, s.clock))
            && c == CopyOf(c.id, s.rows[c.id]) && s.rows[c.id].status == Pending && c.id !in n.staged
            && c.attempts + 1 <= cfg.maxAttempts
            && (FailureDead(cfg, c) <==> s.rows[c.id].attempts + 1 == cfg.maxAttempts)
  {
    OutboxSteps.ReachableInv(cfg, s);
    var n := SessionOf(s, w);
    assert SessionOk(cfg, s, n);
    assert ClaimOk(s.rows, n.claims[n.done], n.now);
    assert RowOk(cfg, s.rows[n.claims[n.done].id]);
    NotBefore(n.claims, n.done);
  }

  /** One more failure at `time`: an attempt more, and a row that has attempts left gets the delay for the new count,
      one that has none is `dead` and keeps its next_attempt_at. */
  ghost predicate FailedOnce(cfg: Config, before: Row, after: Row, time: int) {
    && after.attempts == before.attempts + 1 && after.failedAt == before.failedAt + [time]
    && after.sentAt == before.sentAt && SameIdentity(before, after)
    && if before.attempts + 1 >= cfg.maxAttempts then
         after.status == Dead && after.nextAttemptAt == before.nextAttemptAt
       else
         after.status == Pending && after.nextAttemptAt == time + cfg.delay(before.attempts + 1)
  }

  /** Column by column what a commit, heard of or not, writes: an acknowledged row becomes `sent` at the transaction's
      time, every other row of the batch has failed once more at a time since, and no row outside the batch changes. */
  lemma CommitWrites(cfg: Config, s: State, w: WorkerId, i: nat)
    requires ValidConfig(cfg) && Reachable(cfg, s) && Enabled(s, Commit(w)) && i < |SessionOf(s, w).claims|
    ensures var n, rows := SessionOf(s, w), Apply(cfg, s, Commit(w)).rows;
            var c := n.claims[i];
            && c.id in s.rows && c.id in rows
            && if c in n.jobs then rows[c.id] == s.rows[c.id].(status := Sent, sentAt := Some(n.now))
               else exists time :: n.now <= time <= s.clock && FailedOnce(cfg, s.rows[c.id], rows[c.id], time)
    ensures forall id | id in s.rows && id !in Ids(SessionOf(s, w).claims) ::
              id in Apply(cfg, s, Commit(w)).rows && Apply(cfg, s, Commit(w)).rows[id] == s.rows[id]
  {
    CommitSession(cfg, s, w);
    var n := SessionOf(s, w);
    var c := n.claims[i];
    FinishedJobs(cfg, s, n);
    assert n.claims[..n.done] == n.claims;
    assert ClaimOk(s.rows, c, n.now);
    assert StagedOk(cfg, s.rows[c.id], n.staged[c.id], c, n.now, s.clock);
    StagedColumns(cfg, s.rows[c.id], n.staged[c.id], c, n.now, s.clock);
  }

  lemma StagedColumns(cfg: Config, before: Row, after: Row, c: Claim, now: int, clock: int)
    requires StagedOk(cfg, before, after, c, now, clock) && c == CopyOf(c.id, before) && before.status == Pending
    ensures if after.status == Sent then after == before.(status := Sent, sentAt := Some(now))
            else exists time :: now <= time <= clock && FailedOnce(cfg, before, after, time)
  {
    if after.status != Sent {
      var time := after.failedAt[|after.failedAt| - 1];
      assert FailedOnce(cfg, before, after, time);
    }
  }

  /** Only a commit rewrites rows, and only pending ones; no step removes a row or changes what it is about. */
  lemma StepRows(cfg: Config, s: State, e: Event)
    requires ValidConfig(cfg) && Inv(cfg, s) && Enabled(s, e)
    ensures var t := Apply(cfg, s, e);
            forall id | id in s.rows ::
              && id in t.rows
              && SameIdentity(s.rows[id], t.rows[id])
              && (s.rows[id].status != Pending || !(e.Commit? || e.CommitAckLost?) ==> t.rows[id] == s.rows[id])
    ensures !e.Insert? ==> Apply(cfg, s, e).rows.Keys == s.rows.Keys
  {
    if e.Commit? || e.CommitAckLost? {
      assert SessionOk(cfg, s, SessionOf(s, e.w));
      StagedRows(cfg, s, SessionOf(s, e.w));
      RowsAfterCommit(s.rows, SessionOf(s, e.w).staged);
    } else {
      RowsWithoutCommit(cfg, s, e);
    }
  }

  lemma RowsWithoutCommit(cfg: Config, s: State, e: Event)
    requires Enabled(s, e) && !e.Commit? && !e.CommitAckLost?
    ensures forall id | id in s.rows :: id in Apply(cfg, s, e).rows && Apply(cfg, s, e).rows[id] == s.rows[id]
    ensures !e.Insert? ==> Apply(cfg, s, e).rows == s.rows
  {
  }

  lemma RowsAfterCommit(rows: map<Uuid, Row>, staged: map<Uuid, Row>)
    requires forall id | id in staged ::
               id in rows && rows[id].status == Pending && SameIdentity(rows[id], staged[id])
    ensures (rows + staged).Keys == rows.Keys
    ensures forall id | id in rows ::
              SameIdentity(rows[id], (rows + staged)[id])
              && (rows[id].status != Pending ==> (rows + staged)[id] == rows[id])
  {
  }

  lemma StagedRows(cfg: Config, s: State, n: Session)
    requires n.Working? && SessionOk(cfg, s, n) && n.done == |n.claims|
    ensures forall id | id in n.staged ::
              id in s.rows && s.rows[id].status == Pending && SameIdentity(s.rows[id], n.staged[id])
  {
    assert n.claims[..n.done] == n.claims;
    forall id | id in n.staged
      ensures id in s.rows && s.rows[id].status == Pending && SameIdentity(s.rows[id], n.staged[id])
    {
      var i :| 0 <= i < |n.claims| && n.claims[i].id == id;
      assert ClaimOk(s.rows, n.claims[i], n.now);
      assert StagedOk(cfg, s.rows[id], n.staged[id], n.claims[i], n.now, s.clock);
    }
  }

  ghost predicate SameIdentity(a: Row, b: Row) {
    a.citizen == b.citizen && a.notification == b.notification && a.payload == b.payload && a.createdAt == b.createdAt
  }

  /** `sent` and `dead` are final: no later step of any run changes such a row in any column. */
  lemma {:induction false} TerminalRowsStay(cfg: Config, s: State, es: seq<Event>, id: Uuid)
    requires ValidConfig(cfg) && Reachable(cfg, s) && ValidRun(cfg, s, es)
    requires id in s.rows && s.rows[id].status != Pending
    ensures id in Run(cfg, s, es).rows && Run(cfg, s, es).rows[id] == s.rows[id]
    decreases |es|
  {
    if es != [] {
      OutboxSteps.ReachableInv(cfg, s);
      StepRows(cfg, s, es[0]);
      ReachableStep(cfg, s, es[0]);
      TerminalRowsStay(cfg, Apply(cfg, s, es[0]), es[1..], id);
    }
  }

  // ---- attempts ----

  /** The attempt budget in every reachable state. */
  lemma AttemptBudget(cfg: Config, s: State, id: Uuid)
    requires ValidConfig(cfg) && Reachable(cfg, s) && id in s.rows
    ensures var r := s.rows[id];
            && (r.status == Dead <==> r.attempts == cfg.maxAttempts)
            && (r.status != Dead ==> r.attempts < cfg.maxAttempts)
            && |r.failedAt| == r.attempts && (r.sentAt.Some? <==> r.status == Sent)
  {
    OutboxSteps.ReachableInv(cfg, s);
  }

  /** Without a commit no run changes a stored row in any column: claiming, publishing, marking and aborting
      cost no attempt. */
  lemma {:induction false} OnlyCommitsChangeRows(cfg: Config, s: State, es: seq<Event>)
    requires ValidConfig(cfg) && Reachable(cfg, s) && ValidRun(cfg, s, es)
    requires forall i | 0 <= i < |es| :: !es[i].Commit? && !es[i].CommitAckLost?
    ensures forall id | id in s.rows :: id in Run(cfg, s, es).rows && Run(cfg, s, es).rows[id] == s.rows[id]
    decreases |es|
  {
    if es != [] {
      OutboxSteps.ReachableInv(cfg, s);
      StepRows(cfg, s, es[0]);
      ReachableStep(cfg, s, es[0]);
      OnlyCommitsChangeRows(cfg, Apply(cfg, s, es[0]), es[1..]);
    }
  }

  /** The delays a row's recorded failures are apart, summed. */
  ghost function DelaySum(cfg: Config, k: nat): int {
    if k <= 1 then 0 else DelaySum(cfg, k - 1) + cfg.delay(k - 1)
  }

  lemma {:induction false} SpacedFromFirst(cfg: Config, failedAt: seq<int>, k: nat)
    requires Spaced(cfg, failedAt) && 1 <= k <= |failedAt|
    ensures failedAt[0] + DelaySum(cfg, k) <= failedAt[k - 1]
  {
    if k > 1 {
      SpacedFromFirst(cfg, failedAt, k - 1);
    }
  }

  /** In every run the k-th recorded failure of a row comes at least the first k - 1 delays after the first. */
  lemma FailureSpacing(cfg: Config, s: State, id: Uuid, k: nat)
    requires ValidConfig(cfg) && Reachable(cfg, s) && id in s.rows
    requires 1 <= k <= s.rows[id].attempts
    ensures var r := s.rows[id];
            |r.failedAt| == r.attempts && r.failedAt[0] + DelaySum(cfg, k) <= r.failedAt[k - 1]
  {
    OutboxSteps.ReachableInv(cfg, s);
    var r := s.rows[id];
    assert RowOk(cfg, r);
    SpacedFromFirst(cfg, r.failedAt, k);
  }

  // ---- termination ----

  /** The attempts a row may still use up. */
  ghost function Remaining(cfg: Config, rows: map<Uuid, Row>): Uuid -> int {
    id => if id in rows && rows[id].status == Pending then cfg.maxAttempts - rows[id].attempts else 0
  }

  ghost function Potential(cfg: Config, rows: map<Uuid, Row>): int {
    Sum(rows.Keys, Remaining(cfg, rows))
  }

  lemma {:induction false} DistinctCount(claims: seq<Claim>)
    requires Distinct(claims)
    ensures |Ids(claims)| == |claims|
  {
    if claims != [] {
      var k := |claims| - 1;
      DistinctCount(claims[..k]);
      NotBefore(claims, k);
      IdsTake(claims, k);
      assert claims[..k + 1] == claims;
    } else {
      assert Ids(claims) == {};
    }
  }

  /** A commit lowers the potential by at least the number of rows in its batch. */
  lemma CommitLowersPotential(cfg: Config, s: State, w: WorkerId)
    requires ValidConfig(cfg) && Inv(cfg, s) && Enabled(s, Commit(w))
    ensures var n := SessionOf(s, w);
            Potential(cfg, s.rows + n.staged) + |n.claims| <= Potential(cfg, s.rows)
  {
    var n := SessionOf(s, w);
    assert SessionOk(cfg, s, n);
    DistinctCount(n.claims);
    StagedLowersRemaining(cfg, s, n);
    RowsLowerPotential(cfg, s.rows, n.staged);
  }

  lemma RowsLowerPotential(cfg: Config, rows: map<Uuid, Row>, staged: map<Uuid, Row>)
    requires staged.Keys <= rows.Keys
    requires forall id | id in staged.Keys :: Remaining(cfg, rows + staged)(id) + 1 <= Remaining(cfg, rows)(id)
    ensures Potential(cfg, rows + staged) + |staged.Keys| <= Potential(cfg, rows)
  {
    var after := rows + staged;
    assert after.Keys == rows.Keys;
    forall id | id in rows.Keys ensures Remaining(cfg, after)(id) <= Remaining(cfg, rows)(id) {
    }
    SumDrop(rows.Keys, staged.Keys, Remaining(cfg, rows), Remaining(cfg, after));
  }

  lemma StagedLowersRemaining(cfg: Config, s: State, n: Session)
    requires ValidConfig(cfg) && RowsOk(cfg, s.rows) && n.Working? && SessionOk(cfg, s, n) && n.done == |n.claims|
    ensures n.staged.Keys == Ids(n.claims) && n.staged.Keys <= s.rows.Keys
    ensures forall id | id in n.staged.Keys ::
              Remaining(cfg, s.rows + n.staged)(id) + 1 <= Remaining(cfg, s.rows)(id)
  {
    assert n.claims[..n.done] == n.claims;
    forall id | id in n.staged.Keys
      ensures id in s.rows && Remaining(cfg, s.rows + n.staged)(id) + 1 <= Remaining(cfg, s.rows)(id)
    {
      var i :| 0 <= i < |n.claims| && n.claims[i].id == id;
      assert ClaimOk(s.rows, n.claims[i], n.now);
      assert RowOk(cfg, s.rows[id]);
      assert StagedOk(cfg, s.rows[id], n.staged[id], n.claims[i], n.now, s.clock);
      MarkLowersRemaining(cfg, s.rows[id], n.staged[id], n.claims[i], n.now, s.clock);
    }
  }

  lemma MarkLowersRemaining(cfg: Config, before: Row, after: Row, c: Claim, now: int, clock: int)
    requires RowOk(cfg, before) && before.status == Pending && c == CopyOf(c.id, before)
    requires StagedOk(cfg, before, after, c, now, clock)
    ensures (if after.status == Pending then cfg.maxAttempts - after.attempts else 0) + 1
            <= cfg.maxAttempts - before.attempts
  {
  }

  /** The rows of the batch a step commits. */
  function BatchOf(s: State, e: Event): nat
    requires Enabled(s, e)
  {
    if e.Commit? || e.CommitAckLost? then |SessionOf(s, e.w).claims| else 0
  }

  /** Rows committed by the batches of a run. */
  ghost function RowsCommitted(cfg: Config, s: State, es: seq<Event>): nat
    requires ValidRun(cfg, s, es)
    decreases |es|
  {
    if es == [] then 0 else BatchOf(s, es[0]) + RowsCommitted(cfg, Apply(cfg, s, es[0]), es[1..])
  }

  /** Committed batches of a run that held at least one row. */
  ghost function BatchesCommitted(cfg: Config, s: State, es: seq<Event>): nat
    requires ValidRun(cfg, s, es)
    decreases |es|
  {
    if es == [] then 0
    else (if BatchOf(s, es[0]) > 0 then 1 else 0) + BatchesCommitted(cfg, Apply(cfg, s, es[0]), es[1..])
  }

  ghost predicate NoInsert(es: seq<Event>) {
    forall i | 0 <= i < |es| :: !es[i].Insert?
  }

  lemma StepLowersPotential(cfg: Config, s: State, e: Event)
    requires ValidConfig(cfg) && Inv(cfg, s) && Enabled(s, e) && !e.Insert?
    ensures Potential(cfg, Apply(cfg, s, e).rows) + BatchOf(s, e) <= Potential(cfg, s.rows)
    ensures Apply(cfg, s, e).rows.Keys == s.rows.Keys
  {
    StepRows(cfg, s, e);
    if e.Commit? || e.CommitAckLost? {
      CommitLowersPotential(cfg, s, e.w);
    } else {
      assert Apply(cfg, s, e).rows == s.rows;
    }
  }

  /** Every committed batch lowers the potential by at least its length; nothing else raises it. */
  lemma {:induction false} RunLowersPotential(cfg: Config, s: State, es: seq<Event>)
    requires ValidConfig(cfg) && Reachable(cfg, s) && ValidRun(cfg, s, es) && NoInsert(es)
    ensures Potential(cfg, Run(cfg, s, es).rows) + RowsCommitted(cfg, s, es) <= Potential(cfg, s.rows)
    ensures BatchesCommitted(cfg, s, es) <= RowsCommitted(cfg, s, es)
    decreases |es|
  {
    if es != [] {
      OutboxSteps.ReachableInv(cfg, s);
      StepLowersPotential(cfg, s, es[0]);
      ReachableStep(cfg, s, es[0]);
      RunLowersPotential(cfg, Apply(cfg, s, es[0]), es[1..]);
    }
  }

  lemma PotentialBounds(cfg: Config, s: State)
    requires ValidConfig(cfg) && Reachable(cfg, s)
    ensures 0 <= Potential(cfg, s.rows) <= |s.rows| * cfg.maxAttempts
    ensures (exists id :: id in s.rows && s.rows[id].status == Pending) ==> Potential(cfg, s.rows) > 0
  {
    OutboxSteps.ReachableInv(cfg, s);
    forall id | id in s.rows.Keys ensures 0 <= Remaining(cfg, s.rows)(id) <= cfg.maxAttempts {
      assert RowOk(cfg, s.rows[id]);
    }
    SumBounds(s.rows.Keys, Remaining(cfg, s.rows), cfg.maxAttempts);
    if id :| id in s.rows && s.rows[id].status == Pending {
      assert RowOk(cfg, s.rows[id]);
      SumPositive(s.rows.Keys, id, Remaining(cfg, s.rows));
    }
  }

  /** Without new inserts, N rows allow at most N * MaxAttempts committed non-empty batches, whatever Redis
      answers and however often batches abort. */
  lemma BatchesAreBounded(cfg: Config, s: State, es: seq<Event>)
    requires ValidConfig(cfg) && Reachable(cfg, s) && ValidRun(cfg, s, es) && NoInsert(es)
    ensures BatchesCommitted(cfg, s, es) <= |s.rows| * cfg.maxAttempts
  {
    RunLowersPotential(cfg, s, es);
    ReachableRun(cfg, s, es);
    PotentialBounds(cfg, s);
    PotentialBounds(cfg, Run(cfg, s, es));
  }
}
