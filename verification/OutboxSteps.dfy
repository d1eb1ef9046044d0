/** Every step of the outbox machine keeps the invariant. */
module OutboxSteps {
  import opened Wrappers
  import opened Uuids
  import opened Ordering
  import opened Messages
  import opened Outbox
  import opened OutboxInvariant

  // ---- steps outside any transaction ----

  lemma StepInsert(cfg: Config, s: State, id: Uuid, citizen: Uuid, notification: Uuid, payload: Payload, at: int)
    requires ValidConfig(cfg) && Inv(cfg, s) && Enabled(s, Insert(id, citizen, notification, payload, at))
    ensures Inv(cfg, Apply(cfg, s, Insert(id, citizen, notification, payload, at)))
  {
    var t := Apply(cfg, s, Insert(id, citizen, notification, payload, at));
    forall w | w in t.sessions ensures SessionOk(cfg, t, t.sessions[w]) {
      KeepSession(cfg, s, t, {}, s.sessions[w]);
    }
    forall x | x in t.rows ensures RowOk(cfg, t.rows[x]) {
    }
    KeepRedis(cfg, s, t);
    SameSessions(s, t);
    InsertBooks(s, t, id);
  }

  lemma InsertBooks(s: State, t: State, id: Uuid)
    requires AccountsOk(s) && PushesOk(s)
    requires id !in s.rows && id in t.rows && t.rows[id].status == Pending && t.rows == s.rows[id := t.rows[id]]
    requires t == s.(rows := t.rows)
    ensures AccountsOk(t) && PushesOk(t)
  {
    SameSessions(s, t);
    forall x: Uuid
      ensures t.pushed[x] <= SentCount(t, x) && t.acked[x] == SentCount(t, x) + t.wasted[x] + OpenCount(t, x)
    {
      assert SentCount(t, x) == SentCount(s, x);
      assert OpenCount(t, x) == OpenCount(s, x);
      assert s.acked[x] == SentCount(s, x) + s.wasted[x] + OpenCount(s, x);
      assert s.pushed[x] <= SentCount(s, x);
    }
  }

  /** Messages already published keep their rows: rows are never removed or re-addressed. */
  lemma KeepRedis(cfg: Config, s: State, t: State)
    requires RedisOk(cfg, s) && t.redis == s.redis && t.acked == s.acked
    requires forall id | id in s.rows :: id in t.rows && MessageOf(cfg, t.rows[id]) == MessageOf(cfg, s.rows[id])
    ensures RedisOk(cfg, t)
  {
    forall m | m in t.redis ensures FromRow(cfg, t.rows, m) {
      assert FromRow(cfg, s.rows, m);
      var id :| id in s.rows && m == MessageOf(cfg, s.rows[id]);
      assert id in t.rows && m == MessageOf(cfg, t.rows[id]);
    }
  }

  lemma SameSessions(s: State, t: State)
    requires t.sessions == s.sessions
    ensures forall w :: SessionOf(t, w) == SessionOf(s, w)
  {
  }

  lemma TickSessions(cfg: Config, s: State, time: int)
    requires SessionsOk(cfg, s) && Enabled(s, Tick(time))
    ensures SessionsOk(cfg, Apply(cfg, s, Tick(time)))
  {
    var t := Apply(cfg, s, Tick(time));
    forall w | w in t.sessions ensures SessionOk(cfg, t, t.sessions[w]) {
      KeepSession(cfg, s, t, {}, s.sessions[w]);
    }
  }

  lemma StepTick(cfg: Config, s: State, time: int)
    requires ValidConfig(cfg) && Inv(cfg, s) && Enabled(s, Tick(time))
    ensures Inv(cfg, Apply(cfg, s, Tick(time)))
  {
    var t := Apply(cfg, s, Tick(time));
    TickSessions(cfg, s, time);
    SameSessions(s, t);
    TickAccounts(s, t);
    KeepRedis(cfg, s, t);
  }

  lemma TickAccounts(s: State, t: State)
    requires AccountsOk(s) && t == s.(clock := t.clock)
    ensures AccountsOk(t)
  {
    forall x: Uuid ensures t.acked[x] == SentCount(t, x) + t.wasted[x] + OpenCount(t, x) {
      assert s.acked[x] == SentCount(s, x) + s.wasted[x] + OpenCount(s, x);
    }
  }

  // ---- session changes that touch neither rows nor locks ----

  /** A step that replaces one session by another with the same locks, acknowledged rows and queue. */
  lemma KeepBooks(cfg: Config, s: State, t: State, w: WorkerId, n: Session)
    requires Inv(cfg, s)
    requires t.rows == s.rows && t.locks == s.locks && t.clock == s.clock && t.redis == s.redis
    requires t.acked == s.acked && t.wasted == s.wasted && t.pushed == s.pushed
    requires t.sessions == s.sessions[w := n]
    requires Held(n) == Held(SessionOf(s, w)) && AckedIn(n) == AckedIn(SessionOf(s, w))
    requires Queued(n) <= Queued(SessionOf(s, w))
    requires SessionOk(cfg, t, n)
    ensures Inv(cfg, t)
  {
    KeepOthers(cfg, s, t, w, {}, n);
    KeepLocks(s, t, w, n);
    KeepAccounts(s, t, w, n);
    KeepPushes(s, t, w, n);
    KeepRedis(cfg, s, t);
  }

  lemma KeepLocks(s: State, t: State, w: WorkerId, n: Session)
    requires LocksOk(s) && t.locks == s.locks
    requires t.sessions == s.sessions[w := n] && Held(n) == Held(SessionOf(s, w))
    ensures LocksOk(t)
  {
    OneSession(s, t, w, n);
    forall v ensures Held(SessionOf(t, v)) == Held(SessionOf(s, v)) {
    }
    forall v, id | id in Held(SessionOf(t, v)) ensures id in t.locks && t.locks[id] == v {
      assert id in Held(SessionOf(s, v));
    }
  }

  lemma KeepAccounts(s: State, t: State, w: WorkerId, n: Session)
    requires AccountsOk(s) && t.rows == s.rows && t.locks == s.locks
    requires t.acked == s.acked && t.wasted == s.wasted
    requires t.sessions == s.sessions[w := n] && AckedIn(n) == AckedIn(SessionOf(s, w))
    ensures AccountsOk(t)
  {
    OneSession(s, t, w, n);
    forall x: Uuid ensures t.acked[x] == SentCount(t, x) + t.wasted[x] + OpenCount(t, x) {
      assert s.acked[x] == SentCount(s, x) + s.wasted[x] + OpenCount(s, x);
      assert OpenCount(t, x) == OpenCount(s, x);
    }
  }

  lemma KeepPushes(s: State, t: State, w: WorkerId, n: Session)
    requires PushesOk(s) && t.rows == s.rows && t.pushed == s.pushed
    requires t.sessions == s.sessions[w := n] && Queued(n) <= Queued(SessionOf(s, w))
    ensures PushesOk(t)
  {
    OneSession(s, t, w, n);
    forall x: Uuid ensures t.pushed[x] <= SentCount(t, x) {
      assert s.pushed[x] <= SentCount(s, x);
    }
    forall v, x | x in Queued(SessionOf(t, v)) ensures x in Queued(SessionOf(s, v)) {
    }
  }

  lemma OneSession(s: State, t: State, w: WorkerId, n: Session)
    requires t.sessions == s.sessions[w := n]
    ensures SessionOf(t, w) == n
    ensures forall v | v != w :: SessionOf(t, v) == SessionOf(s, v)
  {
  }

  lemma StepBegin(cfg: Config, s: State, w: WorkerId)
    requires ValidConfig(cfg) && Inv(cfg, s) && Enabled(s, Begin(w))
    ensures Inv(cfg, Apply(cfg, s, Begin(w)))
  {
    KeepBooks(cfg, s, Apply(cfg, s, Begin(w)), w, Open(s.clock));
  }

  lemma StepStop(cfg: Config, s: State, w: WorkerId)
    requires ValidConfig(cfg) && Inv(cfg, s) && Enabled(s, Stop(w))
    ensures Inv(cfg, Apply(cfg, s, Stop(w)))
  {
    KeepBooks(cfg, s, Apply(cfg, s, Stop(w)), w, Idle);
  }

  lemma StepMark(cfg: Config, s: State, w: WorkerId, time: int)
    requires ValidConfig(cfg) && Inv(cfg, s) && Enabled(s, Mark(w, time))
    ensures Inv(cfg, Apply(cfg, s, Mark(w, time)))
  {
    var n := SessionOf(s, w);
    assert SessionOk(cfg, s, n);
    var m, r := MarkedPieces(cfg, s, n, w, time);
    MarkedSessionOk(cfg, s, n, m, r);
    MarkKeeps(cfg, s, w, m, r);
  }

  /** A mark moves the row at the cursor from `answered` to `staged` and touches nothing else. */
  lemma MarkKeeps(cfg: Config, s: State, w: WorkerId, m: Session, r: Row)
    requires Inv(cfg, s) && SessionOk(cfg, s, m)
    requires var n := SessionOf(s, w);
             && n.Working? && n.answer.Some? && n.done < |n.claims|
             && (r.status == Sent <==> n.answer == Some(true))
             && m == n.(done := n.done + 1, answer := None, staged := n.staged[n.claims[n.done].id := r],
                        jobs := if r.status == Sent then n.jobs + [n.claims[n.done]] else n.jobs)
    ensures Inv(cfg, Goto(s, w, m))
  {
    var n := SessionOf(s, w);
    var t := Goto(s, w, m);
    KeepSession(cfg, s, t, {}, m);
    MarkKeepsAcked(n, m);
    KeepBooks(cfg, s, t, w, m);
  }

  lemma MarkKeepsAcked(n: Session, m: Session)
    requires n.Working? && n.answer.Some? && n.done < |n.claims|
    requires m.Working? && m.claims == n.claims && m.answer == None
    requires m.jobs == if n.answer == Some(true) then n.jobs + [n.claims[n.done]] else n.jobs
    ensures AckedIn(m) == AckedIn(n) && Held(m) == Held(n)
  {
    JobsAppend(n.jobs, n.claims[n.done]);
  }

  lemma JobsAppend(jobs: seq<Claim>, c: Claim)
    ensures Ids(jobs + [c]) == Ids(jobs) + {c.id}
  {
    var js := jobs + [c];
    IdsTake(js, |jobs|);
    assert js[..|jobs|] == jobs && js[..|jobs| + 1] == js;
  }

  /** The session after a mark, in terms of the row as it is stored: the copy is still current and the row has
      not been rewritten before. */
  lemma MarkedPieces(cfg: Config, s: State, n: Session, w: WorkerId, time: int) returns (m: Session, r: Row)
    requires n.Working? && WorkingOk(cfg, s, n)
    requires n.done < |n.claims| && n.answer.Some? && n.claims[n.done].id in s.rows && n.now <= time <= s.clock
    ensures AfterMark(cfg, s, w, n, time) == Goto(s, w, m)
    ensures var c := n.claims[n.done];
            && c.id !in n.staged
            && StagedOk(cfg, s.rows[c.id], r, c, n.now, s.clock)
            && (r.status == Sent <==> n.answer == Some(true))
            && m == n.(done := n.done + 1, answer := None, staged := n.staged[c.id := r],
                       jobs := if r.status == Sent then n.jobs + [c] else n.jobs)
  {
    var c := n.claims[n.done];
    assert ClaimOk(s.rows, c, n.now);
    NotBefore(n.claims, n.done);
    m := SessionOf(AfterMark(cfg, s, w, n, time), w);
    r := MarkedRow(cfg, s.rows[c.id], c, n.answer.value, n.now, time);
  }

  /** Marking the row at the cursor keeps the session in order. */
  lemma MarkedSessionOk(cfg: Config, s: State, n: Session, m: Session, r: Row)
    requires n.Working? && WorkingOk(cfg, s, n) && n.done < |n.claims|
    requires var c := n.claims[n.done];
             && c.id !in n.staged
             && StagedOk(cfg, s.rows[c.id], r, c, n.now, s.clock)
             && m == n.(done := n.done + 1, answer := None, staged := n.staged[c.id := r],
                        jobs := if r.status == Sent then n.jobs + [c] else n.jobs)
    ensures SessionOk(cfg, s, m)
  {
    IdsTake(n.claims, n.done);
    StagedExtend(cfg, s, n, r);
    JobsExtend(n, r);
  }

  lemma StagedExtend(cfg: Config, s: State, n: Session, r: Row)
    requires n.Working? && WorkingOk(cfg, s, n) && n.done < |n.claims|
    requires var c := n.claims[n.done]; c.id !in n.staged && StagedOk(cfg, s.rows[c.id], r, c, n.now, s.clock)
    ensures StagedAllOk(cfg, s.rows, n.staged[n.claims[n.done].id := r], n.claims, n.done + 1, n.now, s.clock)
  {
    var staged := n.staged[n.claims[n.done].id := r];
    forall i | 0 <= i < n.done + 1
      ensures n.claims[i].id in staged
              && StagedOk(cfg, s.rows[n.claims[i].id], staged[n.claims[i].id], n.claims[i], n.now, s.clock)
    {
      if i < n.done {
        assert n.claims[i].id in n.staged;
      }
    }
  }

  lemma JobsExtend(n: Session, r: Row)
    requires n.Working? && n.done < |n.claims| && Distinct(n.claims)
    requires n.jobs == SentAmong(n.claims[..n.done], n.staged)
    ensures var c := n.claims[n.done];
            SentAmong(n.claims[..n.done + 1], n.staged[c.id := r])
            == if r.status == Sent then n.jobs + [c] else n.jobs
  {
    var c := n.claims[n.done];
    var front, all := n.claims[..n.done], n.claims[..n.done + 1];
    assert all[..|all| - 1] == front && all[|all| - 1] == c;
    SentAmongExtend(front, n.staged, c.id, r);
  }

  // ---- publishing ----

  lemma StepPublish(cfg: Config, s: State, w: WorkerId, answer: Answer)
    requires ValidConfig(cfg) && Inv(cfg, s) && Enabled(s, Publish(w, answer))
    ensures Inv(cfg, Apply(cfg, s, Publish(w, answer)))
  {
    var n := SessionOf(s, w);
    var c := n.claims[n.done];
    var t := Apply(cfg, s, Publish(w, answer));
    var m := SessionOf(t, w);
    KeepOthers(cfg, s, t, w, {}, m);
    KeepLocks(s, t, w, m);
    KeepPushes(s, t, w, m);
    assert ClaimOk(s.rows, c, n.now);
    PublishAccounts(cfg, s, t, w, answer);
    PublishKeepsRedis(cfg, s, t, c.id, answer);
  }

  /** A success answer counts once, for the open batch. */
  lemma PublishAccounts(cfg: Config, s: State, t: State, w: WorkerId, answer: Answer)
    requires SessionsOk(cfg, s) && LocksOk(s) && AccountsOk(s) && Enabled(s, Publish(w, answer))
    requires t == AfterPublish(cfg, s, w, SessionOf(s, w), answer)
    ensures AccountsOk(t)
  {
    var n := SessionOf(s, w);
    var m := SessionOf(t, w);
    var c := n.claims[n.done];
    OneSession(s, t, w, m);
    IdsMember(n.claims, n.done);
    assert c.id in Held(SessionOf(s, w));
    assert s.locks[c.id] == w;
    NotYetAcked(cfg, s, n);
    assert AckedIn(m) == if answer.Acked? then AckedIn(n) + {c.id} else AckedIn(n);
    forall x: Uuid ensures t.acked[x] == SentCount(t, x) + t.wasted[x] + OpenCount(t, x) {
      assert s.acked[x] == SentCount(s, x) + s.wasted[x] + OpenCount(s, x);
      assert SentCount(t, x) == SentCount(s, x);
      if x == c.id && answer.Acked? {
        assert OpenCount(s, x) == 0 && OpenCount(t, x) == 1;
      } else {
        assert OpenCount(t, x) == OpenCount(s, x);
      }
    }
  }

  lemma PublishKeepsRedis(cfg: Config, s: State, t: State, id: Uuid, answer: Answer)
    requires RedisOk(cfg, s) && id in s.rows && t.rows == s.rows
    requires t.redis == if answer.Refused? then s.redis else s.redis + [MessageOf(cfg, s.rows[id])]
    requires t.acked == if answer.Acked? then s.acked + multiset{id} else s.acked
    ensures RedisOk(cfg, t)
  {
    forall m | m in t.redis ensures FromRow(cfg, t.rows, m) {
      if m in s.redis { assert FromRow(cfg, s.rows, m); }
    }
    forall x: Uuid | t.acked[x] > 0 ensures x in t.rows && MessageOf(cfg, t.rows[x]) in t.redis {
      if x != id { assert s.acked[x] > 0; }
    }
  }

  lemma NotYetAcked(cfg: Config, s: State, n: Session)
    requires n.Working? && SessionOk(cfg, s, n) && n.answer.None? && n.done < |n.claims|
    ensures n.claims[n.done].id !in AckedIn(n)
  {
    AckedAreHeld(cfg, s, n);
    NotBefore(n.claims, n.done);
  }

  // ---- claiming ----

  lemma SelectSession(cfg: Config, s: State, w: WorkerId, batch: int)
    requires SessionOk(cfg, s, SessionOf(s, w)) && Enabled(s, Select(w, batch))
    ensures SessionOk(cfg, Apply(cfg, s, Select(w, batch)), SessionOf(Apply(cfg, s, Select(w, batch)), w))
    ensures Ids(SelectedClaims(s, SessionOf(s, w).now, batch)) !! s.locks.Keys
  {
    SelectedOk(s, SessionOf(s, w).now, batch);
    assert SelectedClaims(s, SessionOf(s, w).now, batch)[..0] == [];
  }

  lemma StepSelect(cfg: Config, s: State, w: WorkerId, batch: int)
    requires ValidConfig(cfg) && Inv(cfg, s) && Enabled(s, Select(w, batch))
    ensures Inv(cfg, Apply(cfg, s, Select(w, batch)))
  {
    var t := Apply(cfg, s, Select(w, batch));
    var m := Working(SessionOf(s, w).now, SelectedClaims(s, SessionOf(s, w).now, batch), 0, None, map[], []);
    assert SessionOk(cfg, s, SessionOf(s, w));
    SelectSession(cfg, s, w, batch);
    KeepOthers(cfg, s, t, w, {}, m);
    SelectLocks(cfg, s, t, w, m);
    KeepPushes(s, t, w, m);
    KeepRedis(cfg, s, t);
  }

  /** Locking rows nobody holds. */
  lemma SelectLocks(cfg: Config, s: State, t: State, w: WorkerId, m: Session)
    requires LocksOk(s) && AccountsOk(s) && SessionOf(s, w).Open?
    requires m.Working? && m.jobs == [] && m.answer.None? && Ids(m.claims) !! s.locks.Keys
    requires t == Goto(s, w, m).(locks := Locked(s.locks, Ids(m.claims), w))
    ensures LocksOk(t) && AccountsOk(t)
  {
    OneSession(s, t, w, m);
    forall v, id | id in Held(SessionOf(t, v)) ensures id in t.locks && t.locks[id] == v {
      if v != w { assert id in Held(SessionOf(s, v)); }
    }
    forall id | id in t.locks ensures id in Held(SessionOf(t, t.locks[id])) {
      if id !in Ids(m.claims) { assert id in Held(SessionOf(s, s.locks[id])); }
    }
    assert AckedIn(m) == {};
    forall x: Uuid ensures t.acked[x] == SentCount(t, x) + t.wasted[x] + OpenCount(t, x) {
      assert s.acked[x] == SentCount(s, x) + s.wasted[x] + OpenCount(s, x);
      assert SentCount(t, x) == SentCount(s, x);
      if x in s.locks {
        assert x in Held(SessionOf(s, s.locks[x]));
        assert t.locks[x] == s.locks[x] != w;
      }
      assert OpenCount(t, x) == OpenCount(s, x);
    }
  }

  /** A claimed batch holds distinct, pending, due and unlocked rows, copied as they are. */
  lemma SelectedOk(s: State, now: int, batch: int)
    ensures Distinct(SelectedClaims(s, now, batch))
    ensures forall i | 0 <= i < |SelectedClaims(s, now, batch)| ::
              ClaimOk(s.rows, SelectedClaims(s, now, batch)[i], now)
              && SelectedClaims(s, now, batch)[i].id !in s.locks
    ensures Ids(SelectedClaims(s, now, batch)) !! s.locks.Keys
  {
    var claims := SelectedClaims(s, now, batch);
    var ids := SelectedIds(s, now, batch);
    var all := Ascending(Claimable(s, now), Created(s.rows));
    SelectedAreClaimable(s, now, batch);
    AscendingOrders(Claimable(s, now), Created(s.rows));
    forall i | 0 <= i < |claims|
      ensures claims[i].id == ids[i] && ClaimOk(s.rows, claims[i], now) && claims[i].id !in s.locks
    {
      assert ids[i] in Claimable(s, now);
    }
    forall i, j | 0 <= i < j < |claims| ensures claims[i].id != claims[j].id {
      assert ids[i] == all[i] && ids[j] == all[j];
      assert Before(Created(s.rows), all[i], all[j]);
    }
  }

  // ---- ending a transaction ----

  lemma ReleaseLocks(s: State, t: State, w: WorkerId, n: Session)
    requires LocksOk(s) && t.sessions == s.sessions[w := n] && Held(n) == {}
    requires t.locks == Released(s.locks, w)
    ensures LocksOk(t)
    ensures forall id | id in s.locks && s.locks[id] == w :: id in Held(SessionOf(s, w))
  {
    OneSession(s, t, w, n);
    forall v, id | id in Held(SessionOf(t, v)) ensures id in t.locks && t.locks[id] == v {
      assert id in Held(SessionOf(s, v));
    }
    forall id | id in t.locks ensures id in Held(SessionOf(t, t.locks[id])) {
      assert id in Held(SessionOf(s, s.locks[id]));
    }
  }

  lemma StepAbort(cfg: Config, s: State, w: WorkerId)
    requires ValidConfig(cfg) && Inv(cfg, s) && Enabled(s, Abort(w))
    ensures Inv(cfg, Apply(cfg, s, Abort(w)))
  {
    var t := Apply(cfg, s, Abort(w));
    KeepOthers(cfg, s, t, w, {}, Idle);
    ReleaseLocks(s, t, w, Idle);
    AbortAccounts(cfg, s, t, w);
    KeepPushes(s, t, w, Idle);
    KeepRedis(cfg, s, t);
  }

  /** What an aborted batch had published moves from the open count to the wasted count. */
  lemma AbortAccounts(cfg: Config, s: State, t: State, w: WorkerId)
    requires SessionsOk(cfg, s) && LocksOk(s) && AccountsOk(s) && Enabled(s, Abort(w))
    requires t == AfterAbort(s, w, SessionOf(s, w))
    ensures AccountsOk(t)
  {
    var n := SessionOf(s, w);
    ReleaseLocks(s, t, w, Idle);
    OneSession(s, t, w, Idle);
    assert SessionOk(cfg, s, n);
    AckedAreHeld(cfg, s, n);
    forall x: Uuid ensures t.acked[x] == SentCount(t, x) + t.wasted[x] + OpenCount(t, x) {
      assert s.acked[x] == SentCount(s, x) + s.wasted[x] + OpenCount(s, x);
      assert SentCount(t, x) == SentCount(s, x);
      if x in AckedIn(n) {
        assert x in Held(SessionOf(s, w));
        assert s.locks[x] == w && x !in t.locks;
        assert t.wasted[x] == s.wasted[x] + 1;
      } else {
        assert t.wasted[x] == s.wasted[x];
        assert OpenCount(t, x) == OpenCount(s, x);
      }
    }
  }

  lemma MarkedRowOk(cfg: Config, r: Row, c: Claim, now: int, clock: int, after: Row)
    requires ValidConfig(cfg) && RowOk(cfg, r) && r.status == Pending
    requires c == CopyOf(c.id, r) && r.nextAttemptAt <= now
    requires StagedOk(cfg, r, after, c, now, clock)
    ensures RowOk(cfg, after)
    ensures MessageOf(cfg, after) == MessageOf(cfg, r)
  {
    if after.status != Sent {
      var k := r.attempts;
      var time := after.failedAt[|after.failedAt| - 1];
      forall i | 1 <= i < |after.failedAt|
        ensures after.failedAt[i - 1] + cfg.delay(i) <= after.failedAt[i]
      {
        if i < k {
          assert after.failedAt[i] == r.failedAt[i] && after.failedAt[i - 1] == r.failedAt[i - 1];
        }
      }
    }
  }

  /** The rows after a commit, one by one. */
  lemma CommittedRows(cfg: Config, s: State, n: Session)
    requires ValidConfig(cfg) && RowsOk(cfg, s.rows) && n.Working? && SessionOk(cfg, s, n) && n.done == |n.claims|
    ensures n.staged.Keys == Ids(n.claims)
    ensures forall id | id in n.staged ::
              id in s.rows && s.rows[id].status == Pending
              && RowOk(cfg, n.staged[id]) && MessageOf(cfg, n.staged[id]) == MessageOf(cfg, s.rows[id])
              && (n.staged[id].status == Sent <==> id in Ids(n.jobs))
    ensures Distinct(n.jobs) && Ids(n.jobs) <= n.staged.Keys
    ensures forall i | 0 <= i < |n.jobs| :: JobOk(s.rows + n.staged, n.jobs[i])
  {
    assert n.claims[..n.done] == n.claims;
    SentAmongMembers(n.claims, n.staged);
    forall id | id in n.staged
      ensures id in s.rows && s.rows[id].status == Pending
              && RowOk(cfg, n.staged[id]) && MessageOf(cfg, n.staged[id]) == MessageOf(cfg, s.rows[id])
              && (n.staged[id].status == Sent ==> id in Ids(n.jobs))
    {
      var i :| 0 <= i < |n.claims| && n.claims[i].id == id;
      var c := n.claims[i];
      assert ClaimOk(s.rows, c, n.now);
      assert StagedOk(cfg, s.rows[c.id], n.staged[c.id], c, n.now, s.clock);
      MarkedRowOk(cfg, s.rows[id], c, n.now, s.clock, n.staged[id]);
      if n.staged[id].status == Sent {
        assert c in n.jobs;
      }
    }
    forall i | 0 <= i < |n.jobs| ensures JobOk(s.rows + n.staged, n.jobs[i]) && n.jobs[i].id in n.staged {
      assert n.jobs[i] in n.jobs && n.jobs[i] in n.claims;
      var k :| 0 <= k < |n.claims| && n.claims[k] == n.jobs[i];
      assert ClaimOk(s.rows, n.claims[k], n.now);
      assert MessageOf(cfg, n.staged[n.jobs[i].id]) == MessageOf(cfg, s.rows[n.jobs[i].id]);
      assert StagedOk(cfg, s.rows[n.claims[k].id], n.staged[n.claims[k].id], n.claims[k], n.now, s.clock);
    }
  }

  /** Committing a finished batch, whether or not the worker learns of it. */
  lemma CommitKeeps(cfg: Config, s: State, w: WorkerId, next: Session)
    requires ValidConfig(cfg) && Inv(cfg, s) && Enabled(s, Commit(w))
    requires next == Idle || next == Pushing(SessionOf(s, w).jobs)
    ensures Inv(cfg, AfterCommit(s, w, SessionOf(s, w), next))
  {
    var n := SessionOf(s, w);
    var t := AfterCommit(s, w, n, next);
    CommitTable(cfg, s, t, w, next);
    ReleaseLocks(s, t, w, next);
    CommitAccounts(cfg, s, t, w, next);
    CommittedRows(cfg, s, n);
    forall v, x | x in Queued(SessionOf(s, v)) ensures x in s.rows && s.rows[x].status == Sent {
      QueuedAreSent(cfg, s, v, x);
    }
    CommitPushes(s, t, w, n, next);
  }

  lemma CommitTable(cfg: Config, s: State, t: State, w: WorkerId, next: Session)
    requires ValidConfig(cfg) && RowsOk(cfg, s.rows) && SessionsOk(cfg, s) && LocksOk(s) && RedisOk(cfg, s)
    requires Enabled(s, Commit(w))
    requires next == Idle || next == Pushing(SessionOf(s, w).jobs)
    requires t == AfterCommit(s, w, SessionOf(s, w), next)
    ensures RowsOk(cfg, t.rows) && SessionsOk(cfg, t) && RedisOk(cfg, t)
  {
    CommitRows(cfg, s, t, w, next);
    KeepRedis(cfg, s, t);
    CommitSessions(cfg, s, t, w, next);
  }

  lemma CommitRows(cfg: Config, s: State, t: State, w: WorkerId, next: Session)
    requires ValidConfig(cfg) && RowsOk(cfg, s.rows) && SessionsOk(cfg, s) && Enabled(s, Commit(w))
    requires t == AfterCommit(s, w, SessionOf(s, w), next)
    ensures RowsOk(cfg, t.rows)
    ensures forall id | id in s.rows :: id in t.rows && MessageOf(cfg, t.rows[id]) == MessageOf(cfg, s.rows[id])
    ensures SessionOf(s, w).staged.Keys <= Held(SessionOf(s, w)) && Distinct(SessionOf(s, w).jobs)
    ensures forall i | 0 <= i < |SessionOf(s, w).jobs| :: JobOk(t.rows, SessionOf(s, w).jobs[i])
  {
    var n := SessionOf(s, w);
    assert SessionOk(cfg, s, n);
    CommittedRows(cfg, s, n);
  }

  lemma CommitSessions(cfg: Config, s: State, t: State, w: WorkerId, next: Session)
    requires SessionsOk(cfg, s) && LocksOk(s) && SessionOf(s, w).Working?
    requires next == Idle || next == Pushing(SessionOf(s, w).jobs)
    requires t == AfterCommit(s, w, SessionOf(s, w), next)
    requires SessionOf(s, w).staged.Keys <= Held(SessionOf(s, w)) && Distinct(SessionOf(s, w).jobs)
    requires forall i | 0 <= i < |SessionOf(s, w).jobs| :: JobOk(t.rows, SessionOf(s, w).jobs[i])
    ensures SessionsOk(cfg, t)
  {
    assert SessionOk(cfg, t, next);
    KeepOthers(cfg, s, t, w, Held(SessionOf(s, w)), next);
  }

  lemma CommitAccounts(cfg: Config, s: State, t: State, w: WorkerId, next: Session)
    requires ValidConfig(cfg) && Inv(cfg, s) && Enabled(s, Commit(w))
    requires next == Idle || next == Pushing(SessionOf(s, w).jobs)
    requires t == AfterCommit(s, w, SessionOf(s, w), next)
    ensures AccountsOk(t)
  {
    var n := SessionOf(s, w);
    assert SessionOk(cfg, s, n);
    CommittedRows(cfg, s, n);
    ReleaseLocks(s, t, w, next);
    BatchHoldsStaged(n);
    forall x: Uuid ensures t.acked[x] == SentCount(t, x) + t.wasted[x] + OpenCount(t, x) {
      assert s.acked[x] == SentCount(s, x) + s.wasted[x] + OpenCount(s, x);
      if x in n.staged {
        CommitOfStaged(s, t, w, n, next, x);
      } else {
        CommitOfOther(s, t, w, n, next, x);
      }
    }
  }

  lemma BatchHoldsStaged(n: Session)
    requires n.Working? && n.done == |n.claims| && n.staged.Keys == Ids(n.claims)
    ensures n.staged.Keys == Held(n)
  {
  }

  /** A row of the batch: what counted for the open batch now counts for `sent`. */
  lemma CommitOfStaged(s: State, t: State, w: WorkerId, n: Session, next: Session, x: Uuid)
    requires LocksOk(s) && n == SessionOf(s, w) && n.Working? && n.done == |n.claims|
    requires t == AfterCommit(s, w, n, next)
    requires x in Held(n) && x in n.staged && x in s.rows && s.rows[x].status == Pending
    requires n.staged[x].status == Sent <==> x in Ids(n.jobs)
    ensures SentCount(t, x) == OpenCount(s, x) && SentCount(s, x) == 0 && OpenCount(t, x) == 0
  {
    assert s.locks[x] == w;
  }

  lemma CommitOfOther(s: State, t: State, w: WorkerId, n: Session, next: Session, x: Uuid)
    requires LocksOk(s) && n == SessionOf(s, w) && n.Working? && n.staged.Keys == Held(n)
    requires t == AfterCommit(s, w, n, next) && x !in n.staged
    ensures SentCount(t, x) == SentCount(s, x) && OpenCount(t, x) == OpenCount(s, x)
  {
    OneSession(s, t, w, next);
    assert x in s.locks ==> x in Held(SessionOf(s, s.locks[x]));
  }

  /** The new jobs were pending until this commit, so they are in nobody else's queue and not yet pushed. */
  lemma CommitPushes(s: State, t: State, w: WorkerId, n: Session, next: Session)
    requires PushesOk(s) && QueuesSent(s) && n == SessionOf(s, w) && n.Working?
    requires next == Idle || next == Pushing(n.jobs)
    requires t == AfterCommit(s, w, n, next)
    requires forall id | id in n.staged :: id in s.rows && s.rows[id].status == Pending
    requires forall id | id in Ids(n.jobs) :: id in n.staged && n.staged[id].status == Sent
    ensures PushesOk(t)
  {
    OneSession(s, t, w, next);
    forall x: Uuid ensures t.pushed[x] <= SentCount(t, x) {
      assert s.pushed[x] <= SentCount(s, x);
    }
    forall x | x in Queued(next) ensures t.pushed[x] == 0 && x in Ids(n.jobs) {
      assert s.pushed[x] <= SentCount(s, x);
    }
    forall v, x | v != w && x in Queued(SessionOf(s, v)) ensures x !in Queued(next) {
      assert s.rows[x].status == Sent;
    }
  }

  ghost predicate QueuesSent(s: State) {
    forall w, id {:trigger id in Queued(SessionOf(s, w))} | id in Queued(SessionOf(s, w)) ::
      id in s.rows && s.rows[id].status == Sent
  }

  lemma QueuedAreSent(cfg: Config, s: State, v: WorkerId, x: Uuid)
    requires SessionsOk(cfg, s) && x in Queued(SessionOf(s, v))
    ensures x in s.rows && s.rows[x].status == Sent
  {
    var n := SessionOf(s, v);
    var i :| 0 <= i < |n.jobs| && n.jobs[i].id == x;
    assert JobOk(s.rows, n.jobs[i]);
  }

  // ---- pushing ----

  lemma StepPush(cfg: Config, s: State, w: WorkerId)
    requires ValidConfig(cfg) && Inv(cfg, s) && Enabled(s, Push(w))
    ensures Inv(cfg, Apply(cfg, s, Push(w)))
  {
    var n := SessionOf(s, w);
    var t := Apply(cfg, s, Push(w));
    var m := Pushing(n.jobs[1..]);
    assert SessionOk(cfg, s, n);
    RestOfJobs(cfg, s, n);
    KeepOthers(cfg, s, t, w, {}, m);
    KeepLocks(s, t, w, m);
    KeepAccounts(s, t, w, m);
    KeepRedis(cfg, s, t);
    IdsMember(n.jobs, 0);
    assert n.jobs[0].id in Queued(SessionOf(s, w));
    QueuedAreSent(cfg, s, w, n.jobs[0].id);
    PushBooks(s, t, w, n.jobs[0].id, m);
  }

  lemma RestOfJobs(cfg: Config, s: State, n: Session)
    requires n.Pushing? && SessionOk(cfg, s, n) && n.jobs != []
    ensures SessionOk(cfg, s, Pushing(n.jobs[1..]))
    ensures Ids(n.jobs[1..]) <= Ids(n.jobs) && n.jobs[0].id !in Ids(n.jobs[1..])
  {
    var rest := n.jobs[1..];
    forall i | 0 <= i < |rest|
      ensures rest[i] == n.jobs[i + 1] && JobOk(s.rows, rest[i]) && rest[i].id != n.jobs[0].id
              && rest[i].id in Ids(n.jobs)
    {
      assert JobOk(s.rows, n.jobs[i + 1]);
      IdsMember(n.jobs, i + 1);
    }
  }

  /** A job leaves its queue when it is run, so it is run once. */
  lemma PushBooks(s: State, t: State, w: WorkerId, id: Uuid, m: Session)
    requires PushesOk(s) && id in Queued(SessionOf(s, w)) && SentCount(s, id) == 1
    requires t == Goto(s, w, m).(pushed := s.pushed + multiset{id})
    requires Queued(m) <= Queued(SessionOf(s, w)) && id !in Queued(m)
    ensures PushesOk(t)
  {
    OneSession(s, t, w, m);
    forall x: Uuid ensures t.pushed[x] <= SentCount(t, x) {
      assert SentCount(t, x) == SentCount(s, x);
      assert s.pushed[x] <= SentCount(s, x);
    }
    forall v, x | x in Queued(SessionOf(t, v)) ensures x in Queued(SessionOf(s, v)) && x != id {
    }
  }

  // ---- all steps, all runs ----

  lemma StepInv(cfg: Config, s: State, e: Event)
    requires ValidConfig(cfg) && Inv(cfg, s) && Enabled(s, e)
    ensures Inv(cfg, Apply(cfg, s, e))
  {
    match e
    case Insert(id, citizen, notification, payload, at) => StepInsert(cfg, s, id, citizen, notification, payload, at);
    case Tick(time) => StepTick(cfg, s, time);
    case Begin(w) => StepBegin(cfg, s, w);
    case Select(w, batch) => StepSelect(cfg, s, w, batch);
    case Publish(w, answer) => StepPublish(cfg, s, w, answer);
    case Mark(w, time) => StepMark(cfg, s, w, time);
    case Commit(w) => CommitKeeps(cfg, s, w, Pushing(SessionOf(s, w).jobs));
    case CommitAckLost(w) => CommitKeeps(cfg, s, w, Idle);
    case Abort(w) => StepAbort(cfg, s, w);
    case Push(w) => StepPush(cfg, s, w);
    case Stop(w) => StepStop(cfg, s, w);
  }

  lemma {:induction false} RunInv(cfg: Config, s: State, es: seq<Event>)
    requires ValidConfig(cfg) && Inv(cfg, s) && ValidRun(cfg, s, es)
    ensures Inv(cfg, Run(cfg, s, es))
    decreases |es|
  {
    if es != [] {
      StepInv(cfg, s, es[0]);
      RunInv(cfg, Apply(cfg, s, es[0]), es[1..]);
    }
  }

  /** The invariant holds in every reachable state. */
  lemma ReachableInv(cfg: Config, s: State)
    requires ValidConfig(cfg) && Reachable(cfg, s)
    ensures Inv(cfg, s)
  {
    var es :| ValidRun(cfg, Init, es) && Run(cfg, Init, es) == s;
    InitInv(cfg);
    RunInv(cfg, Init, es);
  }
}
