/** What every step of the outbox machine keeps. */
module OutboxInvariant {
  import opened Uuids
  import opened Messages
  import opened Outbox

  // ---- one row ----

  ghost predicate Spaced(cfg: Config, failedAt: seq<int>) {
    forall i | 1 <= i < |failedAt| :: failedAt[i - 1] + cfg.delay(i) <= failedAt[i]
  }

  ghost predicate RowOk(cfg: Config, r: Row) {
    && |r.failedAt| == r.attempts
    && (r.status == Dead ==> r.attempts == cfg.maxAttempts)
    && (r.status != Dead ==> r.attempts < cfg.maxAttempts)
    && (r.status == Sent <==> r.sentAt.Some?)
    && Spaced(cfg, r.failedAt)
    && (r.status == Pending && r.attempts > 0 ==>
          r.nextAttemptAt == r.failedAt[r.attempts - 1] + cfg.delay(r.attempts))
  }

  ghost predicate RowsOk(cfg: Config, rows: map<Uuid, Row>) {
    forall id | id in rows :: RowOk(cfg, rows[id])
  }

  // ---- one session ----

  ghost predicate Distinct(claims: seq<Claim>) {
    forall i, j | 0 <= i < j < |claims| :: claims[i].id != claims[j].id
  }

  /** The worker's copy still equals the stored row, which is pending, due and not yet rewritten. */
  ghost predicate ClaimOk(rows: map<Uuid, Row>, c: Claim, now: int) {
    && c.id in rows
    && rows[c.id].status == Pending
    && rows[c.id].nextAttemptAt <= now
    && c == CopyOf(c.id, rows[c.id])
  }

  ghost predicate StagedOk(cfg: Config, before: Row, after: Row, c: Claim, now: int, clock: int) {
    || after == SentRow(before, now)
    || (|after.failedAt| > 0
        && var time := after.failedAt[|after.failedAt| - 1];
           now <= time <= clock && after == MarkedRow(cfg, before, c, false, now, time))
  }

  /** The claims whose staged version is `sent`, in batch order. */
  function SentAmong(claims: seq<Claim>, staged: map<Uuid, Row>): seq<Claim> {
    if claims == [] then []
    else
      var c := claims[|claims| - 1];
      SentAmong(claims[..|claims| - 1], staged) +
      (if c.id in staged && staged[c.id].status == Sent then [c] else [])
  }

  ghost predicate ClaimsOk(rows: map<Uuid, Row>, claims: seq<Claim>, now: int) {
    forall i | 0 <= i < |claims| :: ClaimOk(rows, claims[i], now)
  }

  ghost predicate StagedAllOk(cfg: Config, rows: map<Uuid, Row>, staged: map<Uuid, Row>, claims: seq<Claim>,
                              done: nat, now: int, clock: int)
    requires done <= |claims| && ClaimsOk(rows, claims, now)
  {
    forall i | 0 <= i < done ::
      claims[i].id in staged
      && StagedOk(cfg, rows[claims[i].id], staged[claims[i].id], claims[i], now, clock)
  }

  ghost predicate WorkingOk(cfg: Config, s: State, n: Session)
    requires n.Working?
  {
    && n.now <= s.clock
    && n.done <= |n.claims|
    && (n.answer.Some? ==> n.done < |n.claims|)
    && Distinct(n.claims)
    && ClaimsOk(s.rows, n.claims, n.now)
    && n.staged.Keys == Ids(n.claims[..n.done])
    && StagedAllOk(cfg, s.rows, n.staged, n.claims, n.done, n.now, s.clock)
    && n.jobs == SentAmong(n.claims[..n.done], n.staged)
  }

  ghost predicate JobOk(rows: map<Uuid, Row>, c: Claim) {
    && c.id in rows && rows[c.id].status == Sent
    && rows[c.id].citizen == c.citizen && rows[c.id].payload == c.payload
  }

  ghost predicate SessionOk(cfg: Config, s: State, n: Session) {
    match n
    case Idle => true
    case Open(now) => now <= s.clock
    case Working(_, _, _, _, _, _) => WorkingOk(cfg, s, n)
    case Pushing(jobs) => Distinct(jobs) && forall i | 0 <= i < |jobs| :: JobOk(s.rows, jobs[i])
  }

  ghost predicate SessionsOk(cfg: Config, s: State) {
    forall w {:trigger s.sessions[w]} | w in s.sessions :: SessionOk(cfg, s, s.sessions[w])
  }

  // ---- locks ----

  function Held(n: Session): set<Uuid> {
    if n.Working? then Ids(n.claims) else {}
  }

  ghost predicate LocksOk(s: State) {
    && (forall w, id {:trigger id in Held(SessionOf(s, w))} | id in Held(SessionOf(s, w)) ::
          id in s.locks && s.locks[id] == w)
    && (forall id {:trigger s.locks[id]} | id in s.locks :: id in Held(SessionOf(s, s.locks[id])))
  }

  // ---- publishes ----

  function SentCount(s: State, id: Uuid): nat {
    if id in s.rows && s.rows[id].status == Sent then 1 else 0
  }

  /** One if a still open batch has published the row successfully. */
  function OpenCount(s: State, id: Uuid): nat {
    if id in s.locks && id in AckedIn(SessionOf(s, s.locks[id])) then 1 else 0
  }

  ghost predicate AccountsOk(s: State) {
    forall id: Uuid {:trigger s.acked[id]} :: s.acked[id] == SentCount(s, id) + s.wasted[id] + OpenCount(s, id)
  }

  /** A message of the log was published for one of the rows, on that row's citizen's channel. */
  ghost predicate FromRow(cfg: Config, rows: map<Uuid, Row>, m: Message) {
    exists id :: id in rows && m == MessageOf(cfg, rows[id])
  }

  function MessageOf(cfg: Config, r: Row): Message {
    Message(cfg.channel(r.citizen), r.payload)
  }

  ghost predicate RedisOk(cfg: Config, s: State) {
    && (forall m | m in s.redis :: FromRow(cfg, s.rows, m))
    && (forall id: Uuid {:trigger s.acked[id]} | s.acked[id] > 0 ::
          id in s.rows && MessageOf(cfg, s.rows[id]) in s.redis)
  }

  // ---- pushes ----

  function Queued(n: Session): set<Uuid> {
    if n.Pushing? then Ids(n.jobs) else {}
  }

  ghost predicate PushesOk(s: State) {
    && (forall id: Uuid {:trigger s.pushed[id]} :: s.pushed[id] <= SentCount(s, id))
    && (forall w, id {:trigger id in Queued(SessionOf(s, w))} | id in Queued(SessionOf(s, w)) :: s.pushed[id] == 0)
    && (forall v, w, id {:trigger id in Queued(SessionOf(s, v)), id in Queued(SessionOf(s, w))} |
          id in Queued(SessionOf(s, v)) && id in Queued(SessionOf(s, w)) :: v == w)
  }

  ghost predicate Inv(cfg: Config, s: State) {
    && RowsOk(cfg, s.rows) && SessionsOk(cfg, s) && LocksOk(s)
    && AccountsOk(s) && RedisOk(cfg, s) && PushesOk(s)
  }

  lemma InitInv(cfg: Config)
    ensures Inv(cfg, Init)
  {
  }

  // ---- small facts ----

  lemma IdsMember(claims: seq<Claim>, i: nat)
    requires i < |claims|
    ensures claims[i].id in Ids(claims)
  {
  }

  lemma IdsTake(claims: seq<Claim>, n: nat)
    requires n < |claims|
    ensures Ids(claims[..n + 1]) == Ids(claims[..n]) + {claims[n].id}
    ensures Ids(claims[..|claims|]) == Ids(claims)
    ensures claims[..n + 1][..n] == claims[..n]
  {
    var a, b := Ids(claims[..n + 1]), Ids(claims[..n]) + {claims[n].id};
    forall x | x in b ensures x in a {
      if x != claims[n].id {
        var i :| 0 <= i < n && claims[..n][i].id == x;
        assert claims[..n + 1][i].id == x;
      } else {
        assert claims[..n + 1][n].id == x;
      }
    }
    forall x | x in a ensures x in b {
      var i :| 0 <= i < n + 1 && claims[..n + 1][i].id == x;
      if i < n { assert claims[..n][i].id == x; }
    }
    assert claims[..|claims|] == claims;
  }

  lemma NotBefore(claims: seq<Claim>, k: nat)
    requires Distinct(claims) && k < |claims|
    ensures claims[k].id !in Ids(claims[..k])
  {
    forall i | 0 <= i < k ensures claims[..k][i].id != claims[k].id {
      assert claims[..k][i] == claims[i];
    }
  }

  lemma {:induction false} SentAmongMembers(claims: seq<Claim>, staged: map<Uuid, Row>)
    requires Distinct(claims)
    ensures forall c | c in SentAmong(claims, staged) ::
              c in claims && c.id in staged && staged[c.id].status == Sent
    ensures Distinct(SentAmong(claims, staged))
    ensures forall c | c in claims && c.id in staged && staged[c.id].status == Sent :: c in SentAmong(claims, staged)
  {
    if claims != [] {
      var front := claims[..|claims| - 1];
      SentAmongMembers(front, staged);
      var last := claims[|claims| - 1];
      var js := SentAmong(front, staged);
      forall i | 0 <= i < |js| ensures js[i].id != last.id {
        assert js[i] in js && js[i] in front;
      }
    }
  }

  lemma {:induction false} SentAmongExtend(claims: seq<Claim>, staged: map<Uuid, Row>, id: Uuid, r: Row)
    requires forall i | 0 <= i < |claims| :: claims[i].id != id
    ensures SentAmong(claims, staged[id := r]) == SentAmong(claims, staged)
  {
    if claims != [] {
      SentAmongExtend(claims[..|claims| - 1], staged, id, r);
    }
  }

  // ---- what a step of one worker leaves alone ----

  /** Rows outside `touched` keep their values; nothing disappears; time does not go back. */
  ghost predicate Evolves(s: State, t: State, touched: set<Uuid>) {
    && s.clock <= t.clock
    && (forall id | id in s.rows :: id in t.rows && (id !in touched ==> t.rows[id] == s.rows[id]))
  }

  lemma KeepSession(cfg: Config, s: State, t: State, touched: set<Uuid>, n: Session)
    requires SessionOk(cfg, s, n) && Evolves(s, t, touched)
    requires Held(n) !! touched
    requires forall id | id in touched && id in s.rows :: s.rows[id].status == Pending
    ensures SessionOk(cfg, t, n)
  {
    match n
    case Idle =>
    case Open(now) =>
    case Working(now, claims, done, answer, staged, jobs) =>
      forall i | 0 <= i < |claims|
        ensures ClaimOk(t.rows, claims[i], now) && t.rows[claims[i].id] == s.rows[claims[i].id]
      {
        IdsMember(claims, i);
        assert ClaimOk(s.rows, claims[i], now);
      }
    case Pushing(jobs) =>
      forall i | 0 <= i < |jobs| ensures JobOk(t.rows, jobs[i]) {
        assert JobOk(s.rows, jobs[i]);
      }
  }

  /** A step of worker w that only rewrites rows w has locked keeps the other sessions in order. */
  lemma KeepOthers(cfg: Config, s: State, t: State, w: WorkerId, touched: set<Uuid>, n: Session)
    requires SessionsOk(cfg, s) && LocksOk(s)
    requires Evolves(s, t, touched) && touched <= Held(SessionOf(s, w))
    requires t.sessions == s.sessions[w := n]
    requires SessionOk(cfg, t, n)
    ensures SessionsOk(cfg, t)
  {
    TouchedArePending(cfg, s, w);
    forall v | v in t.sessions ensures SessionOk(cfg, t, t.sessions[v]) {
      if v != w {
        forall id | id in Held(s.sessions[v]) ensures id !in touched {
          assert id in Held(SessionOf(s, v));
        }
        KeepSession(cfg, s, t, touched, s.sessions[v]);
      }
    }
  }

  lemma TouchedArePending(cfg: Config, s: State, w: WorkerId)
    requires SessionsOk(cfg, s)
    ensures forall id | id in Held(SessionOf(s, w)) :: id in s.rows && s.rows[id].status == Pending
  {
    var n := SessionOf(s, w);
    if n.Working? {
      forall id | id in Ids(n.claims) ensures id in s.rows && s.rows[id].status == Pending {
        var i :| 0 <= i < |n.claims| && n.claims[i].id == id;
        assert ClaimOk(s.rows, n.claims[i], n.now);
      }
    }
  }

  lemma AckedAreHeld(cfg: Config, s: State, n: Session)
    requires SessionOk(cfg, s, n)
    ensures AckedIn(n) <= Held(n)
    ensures n.Working? ==> Ids(n.jobs) <= Ids(n.claims[..n.done]) && Distinct(n.jobs)
  {
    if n.Working? {
      SentAmongMembers(n.claims[..n.done], n.staged);
      forall id | id in Ids(n.jobs) ensures id in Ids(n.claims[..n.done]) && id in Ids(n.claims) {
        var i :| 0 <= i < |n.jobs| && n.jobs[i].id == id;
        assert n.jobs[i] in n.claims[..n.done];
        var k :| 0 <= k < n.done && n.claims[..n.done][k] == n.jobs[i];
        assert n.claims[k].id == id;
      }
    }
  }
}
