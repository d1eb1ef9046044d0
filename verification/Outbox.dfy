/** The outbox table and its competing workers as a machine of small steps
    (internal/repo/outbox.go, internal/notify/worker.go).

    One step is one atomic action of one transaction, of Redis, or of the clock. Row locks, commit and
    rollback are PostgreSQL's; everything a Go worker keeps in local variables is in its Session. */
module Outbox {
  import opened Wrappers
  import opened Uuids
  import opened Ordering
  import opened Messages

  type WorkerId = nat

  /** What the workers share: MaxAttempts after Run has replaced a non-positive value, the retry delay and
      the channel naming. The steps do not look inside the last two; Worker.Settings fixes them. */
  datatype Config = Config(maxAttempts: nat, delay: nat -> int, channel: Uuid -> string)

  ghost predicate ValidConfig(cfg: Config) {
    cfg.maxAttempts >= 1
  }

  datatype Status = Pending | Sent | Dead

  /** One event_outbox row. failedAt is a history: the worker's clock at each recorded failure. */
  datatype Row = Row(
    citizen: Uuid,
    notification: Uuid,
    payload: Payload,
    status: Status,
    attempts: nat,
    nextAttemptAt: int,
    createdAt: int,
    sentAt: Option<int>,
    failedAt: seq<int>)

  /** repo.OutboxRow: the copy of a claimed row the worker decides with. */
  datatype Claim = Claim(id: Uuid, citizen: Uuid, payload: Payload, attempts: nat, nextAttemptAt: int)

  datatype Session =
    | Idle
    | Open(now: int)
    | Working(now: int, claims: seq<Claim>, done: nat, answer: Option<bool>,
              staged: map<Uuid, Row>, jobs: seq<Claim>)
    | Pushing(jobs: seq<Claim>)

  /** acked, wasted and pushed are histories: publishes acknowledged to a worker, acknowledged publishes
      of batches that then aborted, and push jobs run. */
  datatype State = State(
    clock: int,
    rows: map<Uuid, Row>,
    locks: map<Uuid, WorkerId>,
    sessions: map<WorkerId, Session>,
    redis: seq<Message>,
    acked: multiset<Uuid>,
    wasted: multiset<Uuid>,
    pushed: multiset<Uuid>)

  const Init: State := State(0, map[], map[], map[], [], multiset{}, multiset{}, multiset{})

  /** Redis may answer success, fail, or deliver the message and lose the answer. */
  datatype Answer = Acked | Refused | Unconfirmed

  datatype Event =
    | Insert(id: Uuid, citizen: Uuid, notification: Uuid, payload: Payload, at: int)
    | Tick(time: int)
    | Begin(w: WorkerId)
    | Select(w: WorkerId, batch: int)
    | Publish(w: WorkerId, answer: Answer)
    | Mark(w: WorkerId, time: int)
    | Commit(w: WorkerId)
    | CommitAckLost(w: WorkerId)
    | Abort(w: WorkerId)
    | Push(w: WorkerId)
    | Stop(w: WorkerId)

  function SessionOf(s: State, w: WorkerId): Session {
    if w in s.sessions then s.sessions[w] else Idle
  }

  function Ids(claims: seq<Claim>): set<Uuid> {
    set i | 0 <= i < |claims| :: claims[i].id
  }

  // ---- SELECT ... WHERE status = 'pending' AND next_attempt_at <= now() ORDER BY ... SKIP LOCKED ----

  function Created(rows: map<Uuid, Row>): map<Uuid, int> {
    map id | id in rows :: rows[id].createdAt
  }

  function ClaimableRows(rows: map<Uuid, Row>, locks: map<Uuid, WorkerId>, now: int): set<Uuid> {
    set id | id in rows && rows[id].status == Pending && rows[id].nextAttemptAt <= now && id !in locks
  }

  function Claimable(s: State, now: int): set<Uuid> {
    ClaimableRows(s.rows, s.locks, now)
  }

  ghost function SelectedIds(s: State, now: int, batch: int): seq<Uuid> {
    var limit := if batch < 1 then 1 else batch;
    var all := Ascending(Claimable(s, now), Created(s.rows));
    if |all| <= limit then all else all[..limit]
  }

  function CopyOf(id: Uuid, r: Row): Claim {
    Claim(id, r.citizen, r.payload, r.attempts, r.nextAttemptAt)
  }

  ghost function SelectedClaims(s: State, now: int, batch: int): (claims: seq<Claim>)
    ensures |claims| == |SelectedIds(s, now, batch)|
  {
    var ids := SelectedIds(s, now, batch);
    SelectedAreClaimable(s, now, batch);
    seq(|ids|, i requires 0 <= i < |ids| && ids[i] in s.rows => CopyOf(ids[i], s.rows[ids[i]]))
  }

  lemma SelectedAreClaimable(s: State, now: int, batch: int)
    ensures forall i | 0 <= i < |SelectedIds(s, now, batch)| :: SelectedIds(s, now, batch)[i] in Claimable(s, now)
  {
    AscendingOrders(Claimable(s, now), Created(s.rows));
    var all := Ascending(Claimable(s, now), Created(s.rows));
    forall i | 0 <= i < |SelectedIds(s, now, batch)| ensures SelectedIds(s, now, batch)[i] in Claimable(s, now) {
      assert SelectedIds(s, now, batch)[i] == all[i] && all[i] in all;
    }
  }

  // ---- the two UPDATE statements ----

  /** MarkOutboxSent: the row is matched by id alone. */
  function SentRow(r: Row, now: int): Row {
    r.(status := Sent, sentAt := Some(now))
  }

  /** MarkOutboxPublishFailed: attempts is incremented by SQL, the rest is decided by the worker. */
  function FailedRow(r: Row, nextAttemptAt: int, dead: bool, time: int): Row {
    r.(attempts := r.attempts + 1,
       nextAttemptAt := nextAttemptAt,
       status := if dead then Dead else Pending,
       failedAt := r.failedAt + [time])
  }

  /** The worker's decision from its own copy of the row. */
  function FailureDead(cfg: Config, c: Claim): bool {
    c.attempts + 1 >= cfg.maxAttempts
  }

  function FailureNext(cfg: Config, c: Claim, time: int): int {
    if FailureDead(cfg, c) then c.nextAttemptAt
    else time + cfg.delay(c.attempts + 1)
  }

  /** The version of a row its own transaction sees. */
  function Visible(s: State, staged: map<Uuid, Row>, id: Uuid): Row
    requires id in s.rows
  {
    if id in staged then staged[id] else s.rows[id]
  }

  function MarkedRow(cfg: Config, r: Row, c: Claim, ok: bool, now: int, time: int): Row {
    if ok then SentRow(r, now) else FailedRow(r, FailureNext(cfg, c, time), FailureDead(cfg, c), time)
  }

  // ---- steps ----

  /** The rows a batch has published with a success answer, marked or not. */
  function AckedIn(session: Session): set<Uuid> {
    if session.Working? then
      Ids(session.jobs) +
      (if session.answer == Some(true) && session.done < |session.claims| then {session.claims[session.done].id}
       else {})
    else {}
  }

  predicate Enabled(s: State, e: Event) {
    match e
    case Insert(id, _, _, _, at) => id !in s.rows && at <= s.clock
    case Tick(time) => s.clock <= time
    case Begin(w) => SessionOf(s, w).Idle?
    case Select(w, _) => SessionOf(s, w).Open?
    case Publish(w, _) =>
      var n := SessionOf(s, w);
      n.Working? && n.done < |n.claims| && n.answer.None?
    case Mark(w, time) =>
      var n := SessionOf(s, w);
      n.Working? && n.done < |n.claims| && n.answer.Some? && n.claims[n.done].id in s.rows && n.now <= time <= s.clock
    case Commit(w) =>
      var n := SessionOf(s, w);
      n.Working? && n.done == |n.claims|
    case CommitAckLost(w) =>
      var n := SessionOf(s, w);
      n.Working? && n.done == |n.claims|
    case Abort(w) => SessionOf(s, w).Open? || SessionOf(s, w).Working?
    case Push(w) => SessionOf(s, w).Pushing? && SessionOf(s, w).jobs != []
    case Stop(w) => SessionOf(s, w).Pushing?
  }

  function Goto(s: State, w: WorkerId, n: Session): State {
    s.(sessions := s.sessions[w := n])
  }

  function Released(locks: map<Uuid, WorkerId>, w: WorkerId): map<Uuid, WorkerId> {
    map id | id in locks && locks[id] != w :: locks[id]
  }

  function Locked(locks: map<Uuid, WorkerId>, ids: set<Uuid>, w: WorkerId): map<Uuid, WorkerId> {
    locks + map id | id in ids :: w
  }

  function NewRow(citizen: Uuid, notification: Uuid, payload: Payload, at: int): Row {
    Row(citizen, notification, payload, Pending, 0, at, at, None, [])
  }

  function AfterPublish(cfg: Config, s: State, w: WorkerId, n: Session, answer: Answer): State
    requires n.Working? && n.done < |n.claims|
  {
    var c := n.claims[n.done];
    var m := Message(cfg.channel(c.citizen), c.payload);
    Goto(s, w, n.(answer := Some(answer.Acked?)))
      .(redis := if answer.Refused? then s.redis else s.redis + [m],
        acked := if answer.Acked? then s.acked + multiset{c.id} else s.acked)
  }

  /** `time` is what time.Now() gave the worker, at some moment since its transaction began. */
  function AfterMark(cfg: Config, s: State, w: WorkerId, n: Session, time: int): State
    requires n.Working? && n.done < |n.claims| && n.answer.Some? && n.claims[n.done].id in s.rows
  {
    var c := n.claims[n.done];
    var ok := n.answer.value;
    var r := MarkedRow(cfg, Visible(s, n.staged, c.id), c, ok, n.now, time);
    Goto(s, w, n.(done := n.done + 1,
                  answer := None,
                  staged := n.staged[c.id := r],
                  jobs := if ok then n.jobs + [c] else n.jobs))
  }

  function AfterCommit(s: State, w: WorkerId, n: Session, next: Session): State
    requires n.Working?
  {
    Goto(s, w, next).(rows := s.rows + n.staged, locks := Released(s.locks, w))
  }

  function AfterAbort(s: State, w: WorkerId, n: Session): State {
    Goto(s, w, Idle).(locks := Released(s.locks, w), wasted := s.wasted + multiset(AckedIn(n)))
  }

  ghost function Apply(cfg: Config, s: State, e: Event): State
    requires Enabled(s, e)
  {
    match e
    case Insert(id, citizen, notification, payload, at) =>
      s.(rows := s.rows[id := NewRow(citizen, notification, payload, at)])
    case Tick(time) => s.(clock := time)
    case Begin(w) => Goto(s, w, Open(s.clock))
    case Select(w, batch) =>
      var now := SessionOf(s, w).now;
      var claims := SelectedClaims(s, now, batch);
      Goto(s, w, Working(now, claims, 0, None, map[], [])).(locks := Locked(s.locks, Ids(claims), w))
    case Publish(w, answer) => AfterPublish(cfg, s, w, SessionOf(s, w), answer)
    case Mark(w, time) => AfterMark(cfg, s, w, SessionOf(s, w), time)
    case Commit(w) => AfterCommit(s, w, SessionOf(s, w), Pushing(SessionOf(s, w).jobs))
    case CommitAckLost(w) => AfterCommit(s, w, SessionOf(s, w), Idle)
    case Abort(w) => AfterAbort(s, w, SessionOf(s, w))
    case Push(w) =>
      var jobs := SessionOf(s, w).jobs;
      Goto(s, w, Pushing(jobs[1..])).(pushed := s.pushed + multiset{jobs[0].id})
    case Stop(w) => Goto(s, w, Idle)
  }

  // ---- runs ----

  ghost predicate ValidRun(cfg: Config, s: State, es: seq<Event>)
    decreases |es|
  {
    es == [] || (Enabled(s, es[0]) && ValidRun(cfg, Apply(cfg, s, es[0]), es[1..]))
  }

  ghost function Run(cfg: Config, s: State, es: seq<Event>): State
    requires ValidRun(cfg, s, es)
    decreases |es|
  {
    if es == [] then s else Run(cfg, Apply(cfg, s, es[0]), es[1..])
  }

  lemma {:induction false} RunAppend(cfg: Config, s: State, a: seq<Event>, b: seq<Event>)
    requires ValidRun(cfg, s, a) && ValidRun(cfg, Run(cfg, s, a), b)
    ensures ValidRun(cfg, s, a + b) && Run(cfg, s, a + b) == Run(cfg, Run(cfg, s, a), b)
    decreases |a|
  {
    if a == [] {
      assert a + b == b;
    } else {
      RunAppend(cfg, Apply(cfg, s, a[0]), a[1..], b);
      assert (a + b)[1..] == a[1..] + b;
    }
  }

  lemma RunOne(cfg: Config, s: State, e: Event)
    requires Enabled(s, e)
    ensures ValidRun(cfg, s, [e]) && Run(cfg, s, [e]) == Apply(cfg, s, e)
  {
    assert [e][1..] == [];
    assert ValidRun(cfg, Apply(cfg, s, e), []);
  }

  /** The states that runs from the empty table lead to. */
  ghost predicate Reachable(cfg: Config, s: State) {
    exists es :: ValidRun(cfg, Init, es) && Run(cfg, Init, es) == s
  }

  lemma ReachableRun(cfg: Config, s: State, es: seq<Event>)
    requires Reachable(cfg, s) && ValidRun(cfg, s, es)
    ensures Reachable(cfg, Run(cfg, s, es))
  {
    var before :| ValidRun(cfg, Init, before) && Run(cfg, Init, before) == s;
    RunAppend(cfg, Init, before, es);
  }

  lemma ReachableStep(cfg: Config, s: State, e: Event)
    requires Reachable(cfg, s) && Enabled(s, e)
    ensures Reachable(cfg, Apply(cfg, s, e))
  {
    RunOne(cfg, s, e);
    ReachableRun(cfg, s, [e]);
  }
}
