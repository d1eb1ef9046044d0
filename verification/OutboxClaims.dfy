/** What a worker's claim takes: SELECT ... WHERE status = 'pending' AND next_attempt_at <= now()
    ORDER BY created_at, id LIMIT n FOR UPDATE SKIP LOCKED (internal/repo/outbox.go, lines 31-57). */
module OutboxClaims {
  import opened Wrappers
  import opened Uuids
  import opened Ordering
  import opened Messages
  import opened Outbox
  import opened OutboxInvariant
  import OutboxSteps
  import OutboxTheorems

  /** A claim takes the oldest claimable rows, in order: every claimable row it leaves comes later. */
  lemma SelectTakesOldest(s: State, now: int, batch: int)
    ensures StrictlyAscending(SelectedIds(s, now, batch), Created(s.rows))
    ensures forall i, x | 0 <= i < |SelectedIds(s, now, batch)| && x in Claimable(s, now)
                          && x !in SelectedIds(s, now, batch) ::
              Before(Created(s.rows), SelectedIds(s, now, batch)[i], x)
  {
    var all := Ascending(Claimable(s, now), Created(s.rows));
    var ids := SelectedIds(s, now, batch);
    var at := Created(s.rows);
    AscendingOrders(Claimable(s, now), at);
    assert forall j | 0 <= j < |ids| :: ids[j] == all[j];
    forall i, x | 0 <= i < |ids| && x in Claimable(s, now) && x !in ids ensures Before(at, ids[i], x) {
      assert x in all;
      var k :| 0 <= k < |all| && all[k] == x;
      assert k >= |ids|;
    }
  }

  /** A claim takes as many rows as there are, up to the batch size (at least one). */
  lemma SelectTakesMany(s: State, now: int, batch: int)
    ensures var limit := if batch < 1 then 1 else batch;
            |SelectedIds(s, now, batch)|
            == if |Claimable(s, now)| <= limit then |Claimable(s, now)| else limit
  {
    AscendingOrders(Claimable(s, now), Created(s.rows));
  }

  /** Row a comes before row b in (created_at, id). */
  predicate Earlier(rows: map<Uuid, Row>, a: Uuid, b: Uuid) {
    && a in rows && b in rows
    && (rows[a].createdAt < rows[b].createdAt || (rows[a].createdAt == rows[b].createdAt && a < b))
  }

  /** A row the claim can take: pending, due and locked by nobody. */
  predicate Due(s: State, now: int, id: Uuid) {
    id in s.rows && s.rows[id].status == Pending && s.rows[id].nextAttemptAt <= now && id !in s.locks
  }

  /** The worker's copy has the row's columns. */
  predicate CopiedFrom(c: Claim, r: Row) {
    c.citizen == r.citizen && c.payload == r.payload && c.attempts == r.attempts && c.nextAttemptAt == r.nextAttemptAt
  }

  /** A claimable row that a claim leaves out: the claim is full. */
  lemma LeftOut(s: State, now: int, batch: int, id: Uuid)
    requires id in Claimable(s, now) && id !in Ids(SelectedClaims(s, now, batch))
    ensures id !in SelectedIds(s, now, batch)
    ensures |SelectedIds(s, now, batch)| == if batch < 1 then 1 else batch
  {
    var ids, out := SelectedIds(s, now, batch), SelectedClaims(s, now, batch);
    SelectedAreClaimable(s, now, batch);
    AscendingOrders(Claimable(s, now), Created(s.rows));
    forall i | 0 <= i < |ids| ensures ids[i] != id {
      assert out[i].id == ids[i];
    }
  }

  /** What is taken. */
  lemma SelectedAre(s: State, now: int, batch: int)
    ensures var out := SelectedClaims(s, now, batch);
            && |out| <= (if batch < 1 then 1 else batch)
            && (forall i | 0 <= i < |out| :: Due(s, now, out[i].id) && CopiedFrom(out[i], s.rows[out[i].id]))
            && (forall i, j | 0 <= i < j < |out| :: Earlier(s.rows, out[i].id, out[j].id))
  {
    SelectedAreClaimable(s, now, batch);
    SelectTakesOldest(s, now, batch);
    SelectTakesMany(s, now, batch);
  }

  /** What is left. */
  lemma LeftAreLater(s: State, now: int, batch: int, id: Uuid)
    requires Due(s, now, id) && id !in Ids(SelectedClaims(s, now, batch))
    ensures var out := SelectedClaims(s, now, batch);
            |out| == (if batch < 1 then 1 else batch) && forall i | 0 <= i < |out| :: Earlier(s.rows, out[i].id, id)
  {
    LeftOut(s, now, batch, id);
    SelectTakesOldest(s, now, batch);
    SelectedAreClaimable(s, now, batch);
  }

  /** Exactly what a claim takes from a table: copies of pending rows that are due and not locked, oldest first, at most
      `batch` (at least one) of them; and every such row, unless the claim is full and all of it older. */
  ghost predicate TakesDue(rows: map<Uuid, Row>, locks: map<Uuid, WorkerId>, now: int, batch: int, out: seq<Claim>) {
    && |out| <= (if batch < 1 then 1 else batch)
    && (forall i | 0 <= i < |out| ::
          var id := out[i].id;
          && id in rows && id !in locks && rows[id].status == Pending && rows[id].nextAttemptAt <= now
          && out[i].citizen == rows[id].citizen && out[i].payload == rows[id].payload
          && out[i].attempts == rows[id].attempts && out[i].nextAttemptAt == rows[id].nextAttemptAt)
    && (forall i, j | 0 <= i < j < |out| :: Earlier(rows, out[i].id, out[j].id))
    && (forall id | id in rows && rows[id].status == Pending && rows[id].nextAttemptAt <= now && id !in locks
                    && id !in Ids(out) ::
          |out| == (if batch < 1 then 1 else batch) && forall i | 0 <= i < |out| :: Earlier(rows, out[i].id, id))
  }

  lemma SelectionIsExact(s: State, now: int, batch: int)
    ensures TakesDue(s.rows, s.locks, now, batch, SelectedClaims(s, now, batch))
  {
    SelectedAre(s, now, batch);
    forall id | Due(s, now, id) && id !in Ids(SelectedClaims(s, now, batch)) { LeftAreLater(s, now, batch, id); }
  }

  lemma ClaimIsExact(cfg: Config, s: State, w: WorkerId, batch: int)
    requires Enabled(s, Select(w, batch))
    ensures var t := Apply(cfg, s, Select(w, batch));
            SessionOf(t, w).Working? && TakesDue(s.rows, s.locks, SessionOf(s, w).now, batch, SessionOf(t, w).claims)
  {
    SelectionIsExact(s, SessionOf(s, w).now, batch);
  }

  /** The table and the locks after a claim by worker w, whose transaction began at `now`: `out` are pending rows that
      were due and that w now holds, oldest first, at most `batch` (at least one) of them; a due row that nobody holds
      has been left only by a full claim of older rows. */
  ghost predicate TookDue(rows: map<Uuid, Row>, locks: map<Uuid, WorkerId>, w: WorkerId, now: int, batch: int,
                          out: seq<Claim>) {
    && |out| <= (if batch < 1 then 1 else batch)
    && (forall i | 0 <= i < |out| ::
          var id := out[i].id;
          && id in rows && id in locks && locks[id] == w
          && rows[id].status == Pending && rows[id].nextAttemptAt <= now
          && out[i].citizen == rows[id].citizen && out[i].payload == rows[id].payload
          && out[i].attempts == rows[id].attempts && out[i].nextAttemptAt == rows[id].nextAttemptAt)
    && (forall i, j | 0 <= i < j < |out| :: Earlier(rows, out[i].id, out[j].id))
    && (forall id | id in rows && rows[id].status == Pending && rows[id].nextAttemptAt <= now && id !in locks ::
          |out| == (if batch < 1 then 1 else batch) && forall i | 0 <= i < |out| :: Earlier(rows, out[i].id, id))
  }

  lemma ClaimTakesDue(cfg: Config, s: State, w: WorkerId, batch: int)
    requires Enabled(s, Select(w, batch))
    ensures var t := Apply(cfg, s, Select(w, batch));
            SessionOf(t, w).Working?
            && TookDue(t.rows, t.locks, w, SessionOf(s, w).now, batch, SessionOf(t, w).claims)
  {
    ClaimIsExact(cfg, s, w, batch);
    var out := SessionOf(Apply(cfg, s, Select(w, batch)), w).claims;
    forall i | 0 <= i < |out| ensures out[i].id in Ids(out) {}
  }

  // ---- a new row ----

  /** A row is not locked in any state of a run. */
  ghost predicate NeverLocked(cfg: Config, s: State, es: seq<Event>, id: Uuid)
    requires ValidRun(cfg, s, es)
    decreases |es|
  {
    id !in s.locks && (es != [] ==> NeverLocked(cfg, Apply(cfg, s, es[0]), es[1..], id))
  }

  lemma UnlockedStays(cfg: Config, s: State, e: Event, id: Uuid)
    requires ValidConfig(cfg) && Inv(cfg, s) && Enabled(s, e) && id in s.rows && id !in s.locks
    ensures id in Apply(cfg, s, e).rows && Apply(cfg, s, e).rows[id] == s.rows[id]
  {
    if e.Commit? || e.CommitAckLost? {
      var n := SessionOf(s, e.w);
      assert SessionOk(cfg, s, n);
      assert n.claims[..n.done] == n.claims;
      assert n.staged.Keys == Held(n);
    } else {
      OutboxTheorems.RowsWithoutCommit(cfg, s, e);
    }
  }

  /** While nobody claims a row it stays as it is. */
  lemma {:induction false} UnclaimedStays(cfg: Config, s: State, es: seq<Event>, id: Uuid)
    requires ValidConfig(cfg) && Reachable(cfg, s) && ValidRun(cfg, s, es)
    requires id in s.rows && NeverLocked(cfg, s, es, id)
    ensures id in Run(cfg, s, es).rows && Run(cfg, s, es).rows[id] == s.rows[id] && id !in Run(cfg, s, es).locks
    decreases |es|
  {
    if es != [] {
      OutboxSteps.ReachableInv(cfg, s);
      UnlockedStays(cfg, s, es[0], id);
      ReachableStep(cfg, s, es[0]);
      UnclaimedStays(cfg, Apply(cfg, s, es[0]), es[1..], id);
    }
  }

  lemma BeginsNow(cfg: Config, s: State, e: Event, w: WorkerId)
    requires Enabled(s, e)
    ensures SessionOf(Apply(cfg, s, e), w).Open? ==>
              SessionOf(Apply(cfg, s, e), w) == if e == Begin(w) then Open(s.clock) else SessionOf(s, w)
  {
  }

  lemma ClockGrows(cfg: Config, s: State, e: Event)
    requires Enabled(s, e)
    ensures s.clock <= Apply(cfg, s, e).clock
  {
  }

  /** A transaction that was not open at some time and is later began no earlier. */
  lemma {:induction false} BeganLater(cfg: Config, s: State, es: seq<Event>, w: WorkerId, time: int)
    requires ValidRun(cfg, s, es) && time <= s.clock && (SessionOf(s, w).Open? ==> time <= SessionOf(s, w).now)
    ensures SessionOf(Run(cfg, s, es), w).Open? ==> time <= SessionOf(Run(cfg, s, es), w).now
    decreases |es|
  {
    if es != [] {
      BeginsNow(cfg, s, es[0], w);
      ClockGrows(cfg, s, es[0]);
      BeganLater(cfg, Apply(cfg, s, es[0]), es[1..], w, time);
    }
  }

  /** A row just inserted is taken by the first claim that has room for all rows and whose transaction began after the
      insert: there is no other condition to wait for. */
  lemma InsertedIsClaimed(cfg: Config, s: State, row: Event, es: seq<Event>, w: WorkerId, batch: int)
    requires ValidConfig(cfg) && Reachable(cfg, s) && row.Insert? && Enabled(s, row) && !SessionOf(s, w).Open?
    requires ValidRun(cfg, Apply(cfg, s, row), es) && NeverLocked(cfg, Apply(cfg, s, row), es, row.id)
    requires var t := Run(cfg, Apply(cfg, s, row), es); Enabled(t, Select(w, batch)) && batch >= |t.rows|
    ensures var t := Run(cfg, Apply(cfg, s, row), es);
            exists i :: 0 <= i < |SessionOf(Apply(cfg, t, Select(w, batch)), w).claims|
                        && var c := SessionOf(Apply(cfg, t, Select(w, batch)), w).claims[i];
                           c.id == row.id && c.citizen == row.citizen && c.payload == row.payload && c.attempts == 0
  {
    var r := Apply(cfg, s, row);
    var t := Run(cfg, r, es);
    ReachableStep(cfg, s, row);
    UnclaimedStays(cfg, r, es, row.id);
    BeganLater(cfg, r, es, w, row.at);
    assert Due(t, SessionOf(t, w).now, row.id);
    ClaimIsExact(cfg, t, w, batch);
    var out := SessionOf(Apply(cfg, t, Select(w, batch)), w).claims;
    if row.id !in Ids(out) {
      RoomForAll(t, out, row.id);
      assert false;
    }
  }

  /** A claim that leaves a row of the table out is smaller than the table. */
  lemma RoomForAll(s: State, out: seq<Claim>, id: Uuid)
    requires id in s.rows && id !in Ids(out) && forall i | 0 <= i < |out| :: out[i].id in s.rows
    requires forall i, j | 0 <= i < j < |out| :: Earlier(s.rows, out[i].id, out[j].id)
    ensures |out| < |s.rows|
  {
    OutboxTheorems.DistinctCount(out);
    assert Ids(out) <= s.rows.Keys - {id};
    Smaller(Ids(out), s.rows.Keys - {id});
    assert |s.rows.Keys| == |s.rows|;
  }

  lemma {:induction false} Smaller<T>(a: set<T>, b: set<T>)
    requires a <= b
    ensures |a| <= |b|
    decreases |a|
  {
    if a != {} {
      var x :| x in a;
      Smaller(a - {x}, b - {x});
    }
  }
}
