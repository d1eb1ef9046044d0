/** Exact accounts of the outbox over whole runs: what committed batches do to its rows, and where its publishes go
    (internal/notify/worker.go, lines 63-107). */
module OutboxLedger {
  import opened Wrappers
  import opened Uuids
  import opened Messages
  import opened Sums
  import opened Outbox
  import opened OutboxInvariant
  import opened OutboxTheorems
  import OutboxSteps

  /** How often a row has been committed as part of a batch: once for each recorded failure, and once if `sent`. */
  function Marks(r: Row): nat {
    r.attempts + if r.status == Sent then 1 else 0
  }

  ghost function MarksIn(rows: map<Uuid, Row>): Uuid -> int {
    id => if id in rows then Marks(rows[id]) else 0
  }

  ghost function TotalMarks(rows: map<Uuid, Row>): int {
    Sum(rows.Keys, MarksIn(rows))
  }

  /** How many more commits a row can be part of. */
  ghost function SlotsIn(cfg: Config, rows: map<Uuid, Row>): Uuid -> int {
    id => if id in rows then cfg.maxAttempts - Marks(rows[id]) else 0
  }

  ghost function Slots(cfg: Config, rows: map<Uuid, Row>): int {
    Sum(rows.Keys, SlotsIn(cfg, rows))
  }

  lemma StagedAddsOne(cfg: Config, before: Row, after: Row, c: Claim, now: int, clock: int)
    requires before.status == Pending && StagedOk(cfg, before, after, c, now, clock)
    ensures Marks(after) == Marks(before) + 1
  {
  }

  /** Every row of a batch is committed with one mark more. */
  lemma StagedMarks(cfg: Config, s: State, n: Session)
    requires n.Working? && SessionOk(cfg, s, n) && n.done == |n.claims|
    ensures n.staged.Keys == Ids(n.claims) && n.staged.Keys <= s.rows.Keys
    ensures forall id | id in n.staged :: Marks(n.staged[id]) == Marks(s.rows[id]) + 1
  {
    assert n.claims[..n.done] == n.claims;
    forall id | id in n.staged ensures id in s.rows && Marks(n.staged[id]) == Marks(s.rows[id]) + 1 {
      var i :| 0 <= i < |n.claims| && n.claims[i].id == id;
      assert ClaimOk(s.rows, n.claims[i], n.now);
      assert StagedOk(cfg, s.rows[id], n.staged[id], n.claims[i], n.now, s.clock);
      StagedAddsOne(cfg, s.rows[id], n.staged[id], n.claims[i], n.now, s.clock);
    }
  }

  lemma RowsGainMarks(rows: map<Uuid, Row>, staged: map<Uuid, Row>)
    requires staged.Keys <= rows.Keys && forall id | id in staged :: Marks(staged[id]) == Marks(rows[id]) + 1
    ensures TotalMarks(rows + staged) == TotalMarks(rows) + |staged.Keys|
  {
    assert (rows + staged).Keys == rows.Keys;
    SumGrowth(rows.Keys, staged.Keys, MarksIn(rows), MarksIn(rows + staged));
  }

  /** A new row has no marks. */
  lemma NewRowHasNone(rows: map<Uuid, Row>, id: Uuid, r: Row)
    requires id !in rows && Marks(r) == 0
    ensures TotalMarks(rows[id := r]) == TotalMarks(rows)
  {
    var after := rows[id := r];
    SumSplit(after.Keys, id, MarksIn(after));
    assert after.Keys - {id} == rows.Keys;
    SumSame(rows.Keys, MarksIn(after), MarksIn(rows));
  }

  lemma StepMarks(cfg: Config, s: State, e: Event)
    requires ValidConfig(cfg) && Inv(cfg, s) && Enabled(s, e)
    ensures TotalMarks(Apply(cfg, s, e).rows) == TotalMarks(s.rows) + BatchOf(s, e)
  {
    if e.Commit? || e.CommitAckLost? {
      var n := SessionOf(s, e.w);
      assert SessionOk(cfg, s, n);
      DistinctCount(n.claims);
      StagedMarks(cfg, s, n);
      RowsGainMarks(s.rows, n.staged);
    } else if e.Insert? {
      NewRowHasNone(s.rows, e.id, NewRow(e.citizen, e.notification, e.payload, e.at));
    } else {
      RowsWithoutCommit(cfg, s, e);
    }
  }

  /** The ledger balances over every run, inserts, aborts and lost acknowledgements included: the marks on the rows grow
      by exactly the rows its batches committed, acknowledged or not. */
  lemma {:induction false} LedgerBalances(cfg: Config, s: State, es: seq<Event>)
    requires ValidConfig(cfg) && Reachable(cfg, s) && ValidRun(cfg, s, es)
    ensures TotalMarks(Run(cfg, s, es).rows) == TotalMarks(s.rows) + RowsCommitted(cfg, s, es)
    decreases |es|
  {
    if es != [] {
      OutboxSteps.ReachableInv(cfg, s);
      StepMarks(cfg, s, es[0]);
      ReachableStep(cfg, s, es[0]);
      LedgerBalances(cfg, Apply(cfg, s, es[0]), es[1..]);
    }
  }

  lemma SlotsAreTheRest(cfg: Config, rows: map<Uuid, Row>)
    ensures Slots(cfg, rows) == |rows| * cfg.maxAttempts - TotalMarks(rows)
  {
    SumComplement(rows.Keys, cfg.maxAttempts, MarksIn(rows), SlotsIn(cfg, rows));
    assert |rows.Keys| == |rows|;
  }

  lemma {:induction false} SameKeys(cfg: Config, s: State, es: seq<Event>)
    requires ValidConfig(cfg) && Reachable(cfg, s) && ValidRun(cfg, s, es) && NoInsert(es)
    ensures Run(cfg, s, es).rows.Keys == s.rows.Keys
    decreases |es|
  {
    if es != [] {
      OutboxSteps.ReachableInv(cfg, s);
      StepRows(cfg, s, es[0]);
      ReachableStep(cfg, s, es[0]);
      SameKeys(cfg, Apply(cfg, s, es[0]), es[1..]);
    }
  }

  /** Without inserts, every committed row uses up exactly one slot. */
  lemma SlotsAreUsedUp(cfg: Config, s: State, es: seq<Event>)
    requires ValidConfig(cfg) && Reachable(cfg, s) && ValidRun(cfg, s, es) && NoInsert(es)
    ensures Slots(cfg, Run(cfg, s, es).rows) + RowsCommitted(cfg, s, es) == Slots(cfg, s.rows)
  {
    LedgerBalances(cfg, s, es);
    SameKeys(cfg, s, es);
    SlotsAreTheRest(cfg, s.rows);
    SlotsAreTheRest(cfg, Run(cfg, s, es).rows);
    assert |Run(cfg, s, es).rows.Keys| == |s.rows.Keys|;
  }

  lemma MarksBounded(cfg: Config, s: State)
    requires ValidConfig(cfg) && Reachable(cfg, s)
    ensures 0 <= TotalMarks(s.rows) <= |s.rows| * cfg.maxAttempts
  {
    OutboxSteps.ReachableInv(cfg, s);
    forall id | id in s.rows.Keys ensures 0 <= MarksIn(s.rows)(id) <= cfg.maxAttempts {
      assert RowOk(cfg, s.rows[id]);
    }
    SumBounds(s.rows.Keys, MarksIn(s.rows), cfg.maxAttempts);
    assert |s.rows.Keys| == |s.rows|;
  }

  lemma InitReachable(cfg: Config)
    ensures Reachable(cfg, Init)
  {
    assert ValidRun(cfg, Init, []) && Run(cfg, Init, []) == Init;
  }

  /** How many rows all batches of a run from the empty table have committed can be read off the table. */
  lemma CommitsReadOff(cfg: Config, es: seq<Event>)
    requires ValidConfig(cfg) && ValidRun(cfg, Init, es)
    ensures RowsCommitted(cfg, Init, es) == TotalMarks(Run(cfg, Init, es).rows)
            <= |Run(cfg, Init, es).rows| * cfg.maxAttempts
  {
    InitReachable(cfg);
    LedgerBalances(cfg, Init, es);
    ReachableRun(cfg, Init, es);
    MarksBounded(cfg, Run(cfg, Init, es));
  }

  // ---- publishes, acknowledged or not ----

  /** The rows an open batch has published, with whatever answer. */
  function Tries(n: Session): set<Uuid> {
    if n.Working? && n.done <= |n.claims| then
      Ids(n.claims[..n.done]) +
      (if n.answer.Some? && n.done < |n.claims| then {n.claims[n.done].id} else {})
    else {}
  }

  function OpenTry(s: State, id: Uuid): nat {
    if id in s.locks && id in Tries(SessionOf(s, s.locks[id])) then 1 else 0
  }

  function MarksOf(s: State, id: Uuid): nat {
    if id in s.rows then Marks(s.rows[id]) else 0
  }

  /** The row in hand when a worker publishes. */
  function InHand(s: State, e: Event): Uuid
    requires Enabled(s, e) && e.Publish?
  {
    SessionOf(s, e.w).claims[SessionOf(s, e.w).done].id
  }

  /** Whether a step publishes the row, or aborts a batch that had published it. */
  function TriedIn(s: State, e: Event, id: Uuid): nat
    requires Enabled(s, e)
  {
    if e.Publish? && InHand(s, e) == id then 1 else 0
  }

  function AbortedIn(s: State, e: Event, id: Uuid): nat {
    if e.Abort? && id in Tries(SessionOf(s, e.w)) then 1 else 0
  }

  ghost function Tried(cfg: Config, s: State, es: seq<Event>, id: Uuid): nat
    requires ValidRun(cfg, s, es)
    decreases |es|
  {
    if es == [] then 0 else TriedIn(s, es[0], id) + Tried(cfg, Apply(cfg, s, es[0]), es[1..], id)
  }

  ghost function Aborted(cfg: Config, s: State, es: seq<Event>, id: Uuid): nat
    requires ValidRun(cfg, s, es)
    decreases |es|
  {
    if es == [] then 0 else AbortedIn(s, es[0], id) + Aborted(cfg, Apply(cfg, s, es[0]), es[1..], id)
  }

  lemma TriesAreHeld(n: Session)
    ensures Tries(n) <= Held(n)
  {
  }

  /** A step of one worker that leaves the locks alone. */
  lemma TryOwn(s: State, t: State, w: WorkerId, m: Session, id: Uuid)
    requires t.locks == s.locks && t.sessions == s.sessions[w := m]
    ensures OpenTry(t, id) == if id in s.locks && s.locks[id] == w then (if id in Tries(m) then 1 else 0)
                              else OpenTry(s, id)
  {
  }

  lemma PublishTries(n: Session, ok: bool)
    requires n.Working? && n.done < |n.claims| && n.answer.None? && Distinct(n.claims)
    ensures Tries(n.(answer := Some(ok))) == Tries(n) + {n.claims[n.done].id}
    ensures n.claims[n.done].id !in Tries(n)
  {
    NotBefore(n.claims, n.done);
  }

  lemma TryPublish(cfg: Config, s: State, w: WorkerId, answer: Answer, id: Uuid)
    requires SessionOk(cfg, s, SessionOf(s, w)) && LocksOk(s) && Enabled(s, Publish(w, answer))
    ensures OpenTry(Apply(cfg, s, Publish(w, answer)), id) == OpenTry(s, id) + TriedIn(s, Publish(w, answer), id)
  {
    var n := SessionOf(s, w);
    PublishTries(n, answer.Acked?);
    HeldByItself(s, w, n.done);
    TryOwn(s, Apply(cfg, s, Publish(w, answer)), w, n.(answer := Some(answer.Acked?)), id);
  }

  lemma HeldByItself(s: State, w: WorkerId, i: nat)
    requires LocksOk(s) && SessionOf(s, w).Working? && i < |SessionOf(s, w).claims|
    ensures var id := SessionOf(s, w).claims[i].id; id in s.locks && s.locks[id] == w
  {
    assert SessionOf(s, w).claims[i].id in Held(SessionOf(s, w));
  }

  lemma MarkTries(n: Session, m: Session)
    requires n.Working? && n.done < |n.claims| && n.answer.Some?
    requires m.Working? && m.claims == n.claims && m.done == n.done + 1 && m.answer.None?
    ensures Tries(m) == Tries(n)
  {
    IdsTake(n.claims, n.done);
  }

  lemma TryMark(cfg: Config, s: State, w: WorkerId, time: int, id: Uuid)
    requires Enabled(s, Mark(w, time))
    ensures OpenTry(Apply(cfg, s, Mark(w, time)), id) == OpenTry(s, id)
  {
    var t := Apply(cfg, s, Mark(w, time));
    MarkTries(SessionOf(s, w), SessionOf(t, w));
    TryOwn(s, t, w, SessionOf(t, w), id);
  }

  lemma TrySelect(cfg: Config, s: State, w: WorkerId, batch: int, id: Uuid)
    requires LocksOk(s) && Enabled(s, Select(w, batch))
    ensures OpenTry(Apply(cfg, s, Select(w, batch)), id) == OpenTry(s, id)
  {
    var now := SessionOf(s, w).now;
    var claims := SelectedClaims(s, now, batch);
    SelectedAreFree(s, now, batch);
    if id in s.locks {
      assert id in Held(SessionOf(s, s.locks[id]));
    }
    assert Tries(Working(now, claims, 0, None, map[], [])) == {};
  }

  lemma SelectedAreFree(s: State, now: int, batch: int)
    ensures Ids(SelectedClaims(s, now, batch)) !! s.locks.Keys
  {
    SelectedAreClaimable(s, now, batch);
    var claims := SelectedClaims(s, now, batch);
    forall i | 0 <= i < |claims| ensures claims[i].id !in s.locks {
      assert SelectedIds(s, now, batch)[i] in Claimable(s, now);
    }
  }

  /** A batch's end gives its rows up; the others are tried as before. */
  lemma TryEnd(s: State, t: State, w: WorkerId, next: Session, id: Uuid)
    requires LocksOk(s) && t.sessions == s.sessions[w := next] && t.locks == Released(s.locks, w) && !next.Working?
    ensures OpenTry(t, id) + (if id in Tries(SessionOf(s, w)) then 1 else 0) == OpenTry(s, id)
  {
    TriesAreHeld(SessionOf(s, w));
    if id in Tries(SessionOf(s, w)) {
      assert id in Held(SessionOf(s, w)) && s.locks[id] == w;
    }
  }

  lemma TryCommit(cfg: Config, s: State, w: WorkerId, next: Session, id: Uuid)
    requires ValidConfig(cfg) && Inv(cfg, s) && Enabled(s, Commit(w)) && !next.Working?
    ensures var t := AfterCommit(s, w, SessionOf(s, w), next);
            MarksOf(t, id) + OpenTry(t, id) == MarksOf(s, id) + OpenTry(s, id)
  {
    var n := SessionOf(s, w);
    var t := AfterCommit(s, w, n, next);
    assert SessionOk(cfg, s, n);
    StagedMarks(cfg, s, n);
    assert n.claims[..n.done] == n.claims;
    TryEnd(s, t, w, next, id);
  }

  lemma TryIdle(cfg: Config, s: State, e: Event, id: Uuid)
    requires LocksOk(s) && Enabled(s, e) && (e.Begin? || e.Push? || e.Stop?)
    ensures OpenTry(Apply(cfg, s, e), id) == OpenTry(s, id)
  {
    var t := Apply(cfg, s, e);
    TryOwn(s, t, e.w, SessionOf(t, e.w), id);
    if id in s.locks {
      assert id in Held(SessionOf(s, s.locks[id]));
    }
  }

  predicate EndsBatch(e: Event) {
    e.Commit? || e.CommitAckLost? || e.Abort?
  }

  lemma TryBatchEnd(cfg: Config, s: State, e: Event, id: Uuid)
    requires ValidConfig(cfg) && Inv(cfg, s) && Enabled(s, e) && EndsBatch(e)
    ensures MarksOf(s, id) + OpenTry(s, id)
            == MarksOf(Apply(cfg, s, e), id) + OpenTry(Apply(cfg, s, e), id) + AbortedIn(s, e, id)
  {
    match e
    case Commit(w) => TryCommit(cfg, s, w, Pushing(SessionOf(s, w).jobs), id);
    case CommitAckLost(w) => TryCommit(cfg, s, w, Idle, id);
    case Abort(w) => TryEnd(s, Apply(cfg, s, e), w, Idle, id);
  }

  /** Steps that neither publish, mark nor claim. */
  lemma TryBeside(cfg: Config, s: State, e: Event, id: Uuid)
    requires LocksOk(s) && Enabled(s, e)
    requires e.Insert? || e.Tick? || e.Begin? || e.Push? || e.Stop?
    ensures OpenTry(Apply(cfg, s, e), id) == OpenTry(s, id)
  {
    if !e.Insert? && !e.Tick? { TryIdle(cfg, s, e, id); }
  }

  lemma MarksInBatch(cfg: Config, s: State, e: Event, id: Uuid)
    requires Enabled(s, e) && !EndsBatch(e)
    ensures MarksOf(Apply(cfg, s, e), id) == MarksOf(s, id)
  {
    assert !e.Insert? ==> Apply(cfg, s, e).rows == s.rows;
  }

  lemma TryInBatch(cfg: Config, s: State, e: Event, id: Uuid)
    requires LocksOk(s) && Enabled(s, e) && !EndsBatch(e)
    requires e.Publish? ==> SessionOk(cfg, s, SessionOf(s, e.w))
    ensures OpenTry(s, id) + TriedIn(s, e, id) == OpenTry(Apply(cfg, s, e), id)
  {
    match e
    case Publish(w, answer) => TryPublish(cfg, s, w, answer, id);
    case Mark(w, time) => TryMark(cfg, s, w, time, id);
    case Select(w, batch) => TrySelect(cfg, s, w, batch, id);
    case _ => TryBeside(cfg, s, e, id);
  }

  lemma TryStep(cfg: Config, s: State, e: Event, id: Uuid)
    requires ValidConfig(cfg) && Inv(cfg, s) && Enabled(s, e)
    ensures MarksOf(s, id) + OpenTry(s, id) + TriedIn(s, e, id)
            == MarksOf(Apply(cfg, s, e), id) + OpenTry(Apply(cfg, s, e), id) + AbortedIn(s, e, id)
  {
    if EndsBatch(e) {
      TryBatchEnd(cfg, s, e, id);
    } else {
      if e.Publish? { assert SessionOk(cfg, s, SessionOf(s, e.w)); }
      TryInBatch(cfg, s, e, id);
      MarksInBatch(cfg, s, e, id);
    }
  }

  /** Every publish of a row is accounted for, whatever Redis answered: it led to one of the row's marks, or its batch
      aborted, or its batch is still open. */
  lemma {:induction false} TriesBalance(cfg: Config, s: State, es: seq<Event>, id: Uuid)
    requires ValidConfig(cfg) && Reachable(cfg, s) && ValidRun(cfg, s, es)
    ensures MarksOf(s, id) + OpenTry(s, id) + Tried(cfg, s, es, id)
            == MarksOf(Run(cfg, s, es), id) + OpenTry(Run(cfg, s, es), id) + Aborted(cfg, s, es, id)
    decreases |es|
  {
    if es != [] {
      OutboxSteps.ReachableInv(cfg, s);
      TryStep(cfg, s, es[0], id);
      ReachableStep(cfg, s, es[0]);
      TriesBalance(cfg, Apply(cfg, s, es[0]), es[1..], id);
    }
  }

  // ---- copies in Redis's log ----

  lemma {:induction false} IdentityStays(cfg: Config, s: State, es: seq<Event>, id: Uuid)
    requires ValidConfig(cfg) && Reachable(cfg, s) && ValidRun(cfg, s, es) && id in s.rows
    ensures id in Run(cfg, s, es).rows && MessageOf(cfg, Run(cfg, s, es).rows[id]) == MessageOf(cfg, s.rows[id])
    decreases |es|
  {
    if es != [] {
      OutboxSteps.ReachableInv(cfg, s);
      StepRows(cfg, s, es[0]);
      ReachableStep(cfg, s, es[0]);
      IdentityStays(cfg, Apply(cfg, s, es[0]), es[1..], id);
    }
  }

  /** No other row of the table has this row's message. */
  ghost predicate OwnMessage(cfg: Config, rows: map<Uuid, Row>, id: Uuid) {
    id in rows && forall other | other in rows && MessageOf(cfg, rows[other]) == MessageOf(cfg, rows[id]) :: other == id
  }

  lemma CopiesStep(cfg: Config, s: State, e: Event, m: Message)
    requires ValidConfig(cfg) && Inv(cfg, s) && Enabled(s, e)
    ensures e.Publish? ==> InHand(s, e) in s.rows
    ensures multiset(Apply(cfg, s, e).redis)[m]
            <= multiset(s.redis)[m] + if e.Publish? && MessageOf(cfg, s.rows[InHand(s, e)]) == m then 1 else 0
  {
    if e.Publish? {
      var n := SessionOf(s, e.w);
      assert SessionOk(cfg, s, n) && ClaimOk(s.rows, n.claims[n.done], n.now);
    }
  }

  lemma {:induction false} CopiesFrom(cfg: Config, s: State, es: seq<Event>, id: Uuid)
    requires ValidConfig(cfg) && Reachable(cfg, s) && ValidRun(cfg, s, es)
    requires OwnMessage(cfg, Run(cfg, s, es).rows, id)
    ensures var m := MessageOf(cfg, Run(cfg, s, es).rows[id]);
            multiset(Run(cfg, s, es).redis)[m] <= multiset(s.redis)[m] + Tried(cfg, s, es, id)
    decreases |es|
  {
    if es != [] {
      var m := MessageOf(cfg, Run(cfg, s, es).rows[id]);
      OutboxSteps.ReachableInv(cfg, s);
      CopiesStep(cfg, s, es[0], m);
      if es[0].Publish? {
        IdentityStays(cfg, s, es, InHand(s, es[0]));
      }
      ReachableStep(cfg, s, es[0]);
      CopiesFrom(cfg, Apply(cfg, s, es[0]), es[1..], id);
    }
  }

  /** A row's message is in Redis's log at most once for each of its recorded failures, once for `sent`, once for each
      aborted batch that had published it, and once for an open one. */
  lemma CopiesBounded(cfg: Config, es: seq<Event>, id: Uuid)
    requires ValidConfig(cfg) && ValidRun(cfg, Init, es) && OwnMessage(cfg, Run(cfg, Init, es).rows, id)
    ensures var s := Run(cfg, Init, es);
            multiset(s.redis)[MessageOf(cfg, s.rows[id])]
            <= Marks(s.rows[id]) + Aborted(cfg, Init, es, id) + OpenTry(s, id)
  {
    InitReachable(cfg);
    CopiesFrom(cfg, Init, es, id);
    TriesBalance(cfg, Init, es, id);
  }
}
