/** internal/repo/outbox.go against one PostgreSQL table, with Redis and the clock beside it.

    Every method may be preceded by any number of steps of other workers, of inserts and of the clock
    (Interfere); its own effect is one step of the outbox machine, or none when it returns an error. */
module Backends {
  import opened Wrappers
  import opened Uuids
  import opened Ordering
  import opened Messages
  import opened Outbox
  import opened OutboxInvariant
  import OutboxClaims
  import OutboxSteps
  import OutboxTheorems

  /** The database's part of an open transaction: its start time and its uncommitted row versions. */
  datatype Tx = Tx(now: int, writes: map<Uuid, Row>)

  function Actor(e: Event): Option<WorkerId> {
    match e
    case Insert(_, _, _, _, _) => None
    case Tick(_) => None
    case _ => Some(e.w)
  }

  ghost predicate ByOthers(es: seq<Event>, w: WorkerId) {
    forall i | 0 <= i < |es| :: Actor(es[i]) != Some(w)
  }

  /** The steps of a run that are worker w's. */
  function Own(es: seq<Event>, w: WorkerId): seq<Event> {
    if es == [] then []
    else
      var last := es[|es| - 1];
      Own(es[..|es| - 1], w) + (if Actor(last) == Some(w) then [last] else [])
  }

  lemma {:induction false} OwnAppend(a: seq<Event>, b: seq<Event>, w: WorkerId)
    ensures Own(a + b, w) == Own(a, w) + Own(b, w)
    decreases |b|
  {
    if b == [] {
      assert a + b == a;
    } else {
      assert (a + b)[..|a + b| - 1] == a + b[..|b| - 1];
      OwnAppend(a, b[..|b| - 1], w);
    }
  }

  lemma {:induction false} OwnOfOthers(es: seq<Event>, w: WorkerId)
    requires ByOthers(es, w)
    ensures Own(es, w) == []
    decreases |es|
  {
    if es != [] {
      OwnOfOthers(es[..|es| - 1], w);
    }
  }

  lemma OwnStep(before: seq<Event>, e: Event, w: WorkerId)
    requires ByOthers(before, w) && Actor(e) == Some(w)
    ensures Own(before + [e], w) == [e]
  {
    assert (before + [e])[..|before|] == before;
    OwnOfOthers(before, w);
  }

  /** Other workers leave alone a session and the rows it has locked. */
  lemma OtherStepKeeps(cfg: Config, s: State, e: Event, w: WorkerId)
    requires ValidConfig(cfg) && Reachable(cfg, s) && Enabled(s, e) && Actor(e) != Some(w)
    ensures SessionOf(Apply(cfg, s, e), w) == SessionOf(s, w)
    ensures s.clock <= Apply(cfg, s, e).clock
    ensures forall id | id in Held(SessionOf(s, w)) ::
              id in s.rows && id in Apply(cfg, s, e).rows && Apply(cfg, s, e).rows[id] == s.rows[id]
  {
    OtherStepSession(cfg, s, e, w);
    OutboxSteps.ReachableInv(cfg, s);
    TouchedArePending(cfg, s, w);
    OutboxTheorems.StepRows(cfg, s, e);
    if e.Commit? || e.CommitAckLost? {
      OtherCommitKeeps(cfg, s, e.w, w);
    }
  }

  lemma OtherStepSession(cfg: Config, s: State, e: Event, w: WorkerId)
    requires Enabled(s, e) && Actor(e) != Some(w)
    ensures SessionOf(Apply(cfg, s, e), w) == SessionOf(s, w) && s.clock <= Apply(cfg, s, e).clock
  {
  }

  lemma OtherCommitKeeps(cfg: Config, s: State, v: WorkerId, w: WorkerId)
    requires ValidConfig(cfg) && Reachable(cfg, s) && Enabled(s, Commit(v)) && v != w
    ensures forall id | id in Held(SessionOf(s, w)) :: id !in SessionOf(s, v).staged
  {
    OutboxTheorems.CommitSession(cfg, s, v);
    AckedAreHeld(cfg, s, SessionOf(s, v));
    OutboxTheorems.ClaimsDisjoint(cfg, s, v, w);
    assert SessionOf(s, v).claims[..SessionOf(s, v).done] == SessionOf(s, v).claims;
  }

  lemma {:induction false} OthersKeep(cfg: Config, s: State, es: seq<Event>, w: WorkerId)
    requires ValidConfig(cfg) && Reachable(cfg, s) && ValidRun(cfg, s, es) && ByOthers(es, w)
    ensures SessionOf(Run(cfg, s, es), w) == SessionOf(s, w)
    ensures s.clock <= Run(cfg, s, es).clock
    ensures forall id | id in Held(SessionOf(s, w)) ::
              id in s.rows && id in Run(cfg, s, es).rows && Run(cfg, s, es).rows[id] == s.rows[id]
    decreases |es|
  {
    if es == [] {
      OutboxSteps.ReachableInv(cfg, s);
      TouchedArePending(cfg, s, w);
    } else {
      OtherStepKeeps(cfg, s, es[0], w);
      ReachableStep(cfg, s, es[0]);
      OthersKeep(cfg, Apply(cfg, s, es[0]), es[1..], w);
    }
  }

  /** The two UPDATE statements with their parameters. */
  datatype Update = SetSent | SetFailed(nextAttemptAt: int, dead: bool, time: int)

  function Updated(r: Row, now: int, u: Update): Row {
    match u
    case SetSent => SentRow(r, now)
    case SetFailed(nextAttemptAt, dead, time) => FailedRow(r, nextAttemptAt, dead, time)
  }

  /** An UPDATE by id inside worker w's transaction. */
  ghost function AfterUpdate(s: State, w: WorkerId, id: Uuid, u: Update): State
    requires SessionOf(s, w).Working?
  {
    var n := SessionOf(s, w);
    if id in s.rows then Goto(s, w, n.(staged := n.staged[id := Updated(Visible(s, n.staged, id), n.now, u)])) else s
  }

  /** The UPDATE the worker issues for an answer. */
  ghost function UpdateFor(cfg: Config, c: Claim, ok: bool, time: int): Update {
    if ok then SetSent else SetFailed(FailureNext(cfg, c, time), FailureDead(cfg, c), time)
  }

  /** The worker's own progress after a mark. */
  function Advanced(n: Session): Session
    requires n.Working? && n.done < |n.claims| && n.answer.Some?
  {
    n.(done := n.done + 1,
       answer := None,
       jobs := if n.answer.value then n.jobs + [n.claims[n.done]] else n.jobs)
  }

  /** An UPDATE and the loop going on to the next row make one Mark step. */
  lemma UpdateIsMark(cfg: Config, s: State, w: WorkerId, time: int)
    requires Enabled(s, Mark(w, time))
    ensures var n := SessionOf(s, w);
            var c := n.claims[n.done];
            var u := AfterUpdate(s, w, c.id, UpdateFor(cfg, c, n.answer.value, time));
            && SessionOf(u, w).Working? && SessionOf(u, w).done < |SessionOf(u, w).claims|
            && SessionOf(u, w).answer.Some?
            && Goto(u, w, Advanced(SessionOf(u, w))) == Apply(cfg, s, Mark(w, time))
  {
  }

  ghost predicate CopiesOf(out: seq<Claim>, ids: seq<Uuid>, rows: map<Uuid, Row>) {
    |out| <= |ids| && forall i | 0 <= i < |out| :: ids[i] in rows && out[i] == CopyOf(ids[i], rows[ids[i]])
  }

  lemma OneCopyMore(out: seq<Claim>, ids: seq<Uuid>, rows: map<Uuid, Row>, x: Uuid)
    requires CopiesOf(out, ids, rows) && |out| < |ids| && ids[|out|] == x && x in rows
    ensures CopiesOf(out + [CopyOf(x, rows[x])], ids, rows)
  {
  }

  lemma ScannedAreSelected(s: State, now: int, batch: int, out: seq<Claim>)
    requires CopiesOf(out, Ascending(Claimable(s, now), Created(s.rows)), s.rows)
    requires var all := Ascending(Claimable(s, now), Created(s.rows));
             var limit := if batch < 1 then 1 else batch;
             |out| == if |all| <= limit then |all| else limit
    ensures out == SelectedClaims(s, now, batch)
  {
    SelectedAreClaimable(s, now, batch);
  }

  lemma ScanEnds(s: State, now: int, batch: int, out: seq<Claim>, left: set<Uuid>)
    requires left <= s.rows.Keys
    requires var all := Ascending(Claimable(s, now), Created(s.rows));
             var limit := if batch < 1 then 1 else batch;
             && |out| <= |all| && |out| <= limit && (left == {} || |out| >= limit)
             && all[|out|..] == Ascending(left, Created(s.rows)) && CopiesOf(out, all, s.rows)
    ensures out == SelectedClaims(s, now, batch)
  {
    AscendingOrders(left, Created(s.rows));
    assert left == {} ==> |Ascending(Claimable(s, now), Created(s.rows))[|out|..]| == 0;
    ScannedAreSelected(s, now, batch, out);
  }

  ghost predicate TxsShow(sessions: map<WorkerId, Session>, txs: map<WorkerId, Tx>) {
    && (forall w {:trigger sessions[w]} | w in sessions ::
          match sessions[w]
          case Open(now) => w in txs && txs[w] == Tx(now, map[])
          case Working(now, _, _, _, staged, _) => w in txs && txs[w] == Tx(now, staged)
          case _ => true)
    && (forall w | w in txs :: w in sessions && (sessions[w].Open? || sessions[w].Working?))
  }

  lemma TxEnds(sessions: map<WorkerId, Session>, txs: map<WorkerId, Tx>, w: WorkerId, next: Session)
    requires TxsShow(sessions, txs) && !next.Open? && !next.Working?
    ensures TxsShow(sessions[w := next], txs - {w})
  {
  }

  class Backend {
    ghost const cfg: Config
    var clock: int
    var rows: map<Uuid, Row>
    var locks: map<Uuid, WorkerId>
    var txs: map<WorkerId, Tx>
    var redis: seq<Message>
    ghost var sessions: map<WorkerId, Session>
    ghost var acked: multiset<Uuid>
    ghost var wasted: multiset<Uuid>
    ghost var pushed: multiset<Uuid>
    /** A history: the statements that have failed. */
    ghost var faults: nat

    ghost function View(): State
      reads this
    {
      State(clock, rows, locks, sessions, redis, acked, wasted, pushed)
    }

    /** The transaction the database keeps for each worker that has one open. */
    ghost predicate TxsOk()
      reads this
    {
      TxsShow(sessions, txs)
    }

    ghost predicate Valid()
      reads this
    {
      ValidConfig(cfg) && Reachable(cfg, View()) && TxsOk()
    }

    /** Whatever happens between two calls of worker w: any run by the others. The body does the least. */
    method Interfere(ghost w: WorkerId) returns (ghost es: seq<Event>)
      requires Valid()
      modifies this
      ensures Valid()
      ensures ByOthers(es, w) && ValidRun(cfg, old(View()), es) && View() == Run(cfg, old(View()), es)
      ensures SessionOf(View(), w) == SessionOf(old(View()), w) && faults == old(faults)
    {
      es := [];
    }

    method Begin(w: WorkerId) returns (err: bool, ghost es: seq<Event>)
      requires Valid() && SessionOf(View(), w).Idle?
      modifies this
      ensures Valid()
      ensures ValidRun(cfg, old(View()), es) && View() == Run(cfg, old(View()), es)
      ensures if err then SessionOf(View(), w).Idle? else SessionOf(View(), w).Open?
      ensures Own(es, w) == if err then [] else [Event.Begin(w)]
      ensures faults == old(faults) + if err then 1 else 0
    {
      es := Interfere(w);
      err := *;
      if err {
        es := Fault(w, es);
        return;
      }
      ghost var mid := View();
      txs := txs[w := Tx(clock, map[])];
      sessions := sessions[w := Open(clock)];
      es := Step(w, old(View()), mid, es, Event.Begin(w));
    }

    /** SELECT ... FOR UPDATE SKIP LOCKED, and the loop that scans the rows into `out`. */
    method SelectPendingOutboxForUpdate(w: WorkerId, batch: int)
      returns (err: bool, out: seq<Claim>, ghost es: seq<Event>)
      requires Valid() && SessionOf(View(), w).Open?
      modifies this
      ensures Valid()
      ensures ValidRun(cfg, old(View()), es) && View() == Run(cfg, old(View()), es)
      ensures if err then SessionOf(View(), w) == SessionOf(old(View()), w)
              else SessionOf(View(), w) == Working(SessionOf(old(View()), w).now, out, 0, None, map[], [])
      ensures Own(es, w) == if err then [] else [Select(w, batch)]
      ensures !err ==> OutboxClaims.TookDue(rows, locks, w, SessionOf(old(View()), w).now, batch, out)
      ensures faults == old(faults) + if err then 1 else 0
    {
      es := Interfere(w);
      out := [];
      err := *;
      if err {
        es := Fault(w, es);
        return;
      }
      ghost var mid := View();
      out := LockClaims(w, batch);
      es := Step(w, old(View()), mid, es, Select(w, batch));
    }

    /** The rows found are locked. */
    method LockClaims(w: WorkerId, batch: int) returns (out: seq<Claim>)
      requires TxsOk() && SessionOf(View(), w).Open?
      modifies this`locks, this`sessions
      ensures TxsOk() && SessionOf(View(), w) == Working(SessionOf(old(View()), w).now, out, 0, None, map[], [])
      ensures View() == Apply(cfg, old(View()), Select(w, batch))
      ensures OutboxClaims.TookDue(rows, locks, w, SessionOf(old(View()), w).now, batch, out)
    {
      OutboxClaims.ClaimTakesDue(cfg, View(), w, batch);
      var now := txs[w].now;
      out := ScanClaims(now, batch);
      locks := Locked(locks, Ids(out), w);
      sessions := sessions[w := Working(now, out, 0, None, map[], [])];
    }

    /** Takes the least claimable row until there is none or the batch is full. */
    method ScanClaims(now: int, batch: int) returns (out: seq<Claim>)
      ensures out == SelectedClaims(View(), now, batch)
      ensures OutboxClaims.TakesDue(rows, locks, now, batch, out)
    {
      OutboxClaims.SelectionIsExact(View(), now, batch);
      var limit := if batch < 1 then 1 else batch;
      var left := ClaimableRows(rows, locks, now);
      var at := Created(rows);
      ghost var all := Ascending(left, at);
      AscendingOrders(left, at);
      out := [];
      while left != {} && |out| < limit
        invariant left <= rows.Keys && |out| <= |all| && |out| <= limit
        invariant all[|out|..] == Ascending(left, at)
        invariant CopiesOf(out, all, rows)
        decreases |all| - |out|
      {
        out, left := ScanNext(out, all, left, at);
      }
      ScanEnds(View(), now, batch, out, left);
    }

    /** One turn of the scan: the oldest row left. */
    method ScanNext(out: seq<Claim>, ghost all: seq<Uuid>, left: set<Uuid>, at: map<Uuid, int>)
      returns (out': seq<Claim>, left': set<Uuid>)
      requires left != {} && left <= rows.Keys && left <= at.Keys && |out| <= |all|
      requires all[|out|..] == Ascending(left, at) && CopiesOf(out, all, rows)
      ensures left' <= left && |out'| == |out| + 1 <= |all|
      ensures all[|out'|..] == Ascending(left', at) && CopiesOf(out', all, rows)
    {
      ghost var rest;
      var x;
      x, rest := TakeOldest(left, at);
      Advance(all, |out|, x, rest);
      OneCopyMore(out, all, rows, x);
      out', left' := out + [CopyOf(x, rows[x])], left - {x};
    }

    /** UPDATE ... SET status = 'sent' WHERE id = $1: matched by id alone; no row, no effect. */
    method MarkOutboxSent(w: WorkerId, id: Uuid) returns (err: bool, ghost es: seq<Event>)
      requires Valid() && SessionOf(View(), w).Working?
      modifies this
      ensures TxsOk() && ByOthers(es, w) && ValidRun(cfg, old(View()), es)
      ensures var mid := Run(cfg, old(View()), es);
              Reachable(cfg, mid)
              && SessionOf(mid, w) == SessionOf(old(View()), w)
              && View() == if err then mid else AfterUpdate(mid, w, id, SetSent)
      ensures !err && id in rows ==>
                && id in SessionOf(View(), w).staged
                && var n := SessionOf(old(View()), w);
                   var r := if id in n.staged then n.staged[id] else rows[id];
                   SessionOf(View(), w).staged[id] == r.(status := Sent, sentAt := Some(n.now))
      ensures faults == old(faults) + if err then 1 else 0
    {
      es := Interfere(w);
      err := *;
      if err { faults := faults + 1; }
      if !err && id in rows {
        var r := if id in txs[w].writes then txs[w].writes[id] else rows[id];
        Stage(w, id, SentRow(r, txs[w].now));
      }
    }

    /** UPDATE ... SET attempts = attempts + 1, ... WHERE id = $1. `time` is the reading of time.Now() that
        nextAttemptAt was computed from; it only enters the row's history. */
    method MarkOutboxPublishFailed(w: WorkerId, id: Uuid, nextAttemptAt: int, dead: bool, time: int)
      returns (err: bool, ghost es: seq<Event>)
      requires Valid() && SessionOf(View(), w).Working?
      modifies this
      ensures TxsOk() && ByOthers(es, w) && ValidRun(cfg, old(View()), es)
      ensures var mid := Run(cfg, old(View()), es);
              Reachable(cfg, mid)
              && SessionOf(mid, w) == SessionOf(old(View()), w)
              && View() == if err then mid
                           else AfterUpdate(mid, w, id, SetFailed(nextAttemptAt, dead, time))
      ensures !err && id in rows ==>
                && id in SessionOf(View(), w).staged
                && var n := SessionOf(old(View()), w);
                   var r := if id in n.staged then n.staged[id] else rows[id];
                   SessionOf(View(), w).staged[id]
                   == r.(attempts := r.attempts + 1, nextAttemptAt := nextAttemptAt,
                         status := if dead then Dead else Pending, failedAt := r.failedAt + [time])
      ensures faults == old(faults) + if err then 1 else 0
    {
      es := Interfere(w);
      err := *;
      if err { faults := faults + 1; }
      if !err && id in rows {
        var r := if id in txs[w].writes then txs[w].writes[id] else rows[id];
        Stage(w, id, FailedRow(r, nextAttemptAt, dead, time));
      }
    }

    /** Records an uncommitted row version. */
    method Stage(w: WorkerId, id: Uuid, r: Row)
      requires TxsOk() && SessionOf(View(), w).Working?
      modifies this`txs, this`sessions
      ensures TxsOk()
      ensures var n := SessionOf(old(View()), w);
              View() == Goto(old(View()), w, n.(staged := n.staged[id := r]))
    {
      txs := txs[w := txs[w].(writes := txs[w].writes[id := r])];
      ghost var n := sessions[w];
      sessions := sessions[w := n.(staged := n.staged[id := r])];
    }

    /** Redis PUBLISH: delivered or not, and the caller told so or not. */
    method Publish(w: WorkerId, channel: string, payload: Payload)
      returns (err: bool, ghost answer: Answer, ghost es: seq<Event>)
      requires Valid()
      requires var n := SessionOf(View(), w);
               && n.Working? && n.done < |n.claims| && n.answer.None?
               && channel == cfg.channel(n.claims[n.done].citizen) && payload == n.claims[n.done].payload
      modifies this
      ensures Valid()
      ensures ValidRun(cfg, old(View()), es) && View() == Run(cfg, old(View()), es)
      ensures SessionOf(View(), w) == SessionOf(old(View()), w).(answer := Some(!err))
      ensures Own(es, w) == [Event.Publish(w, answer)] && err == !answer.Acked? && faults == old(faults)
      ensures !answer.Refused? ==> redis != [] && redis[|redis| - 1] == Message(channel, payload)
    {
      es := Interfere(w);
      ghost var mid := View();
      var outcome: Answer := *;
      err, answer := !outcome.Acked?, outcome;
      Deliver(w, Message(channel, payload), outcome);
      es := Step(w, old(View()), mid, es, Event.Publish(w, answer));
    }

    /** What Redis did and what the worker was told. */
    method Deliver(w: WorkerId, m: Message, answer: Answer)
      requires TxsOk() && SessionOf(View(), w).Working? && SessionOf(View(), w).done < |SessionOf(View(), w).claims|
      requires var c := SessionOf(View(), w).claims[SessionOf(View(), w).done];
               m == Message(cfg.channel(c.citizen), c.payload)
      modifies this`redis, this`sessions, this`acked
      ensures TxsOk() && View() == AfterPublish(cfg, old(View()), w, SessionOf(old(View()), w), answer)
    {
      ghost var n := sessions[w];
      if !answer.Refused? {
        redis := redis + [m];
      }
      sessions := sessions[w := n.(answer := Some(answer.Acked?))];
      if answer.Acked? {
        acked := acked + multiset{n.claims[n.done].id};
      }
    }

    /** COMMIT: done and acknowledged, done with the acknowledgement lost, or not done. */
    method Commit(w: WorkerId) returns (err: bool, ghost es: seq<Event>)
      requires Valid()
      requires SessionOf(View(), w).Working? && SessionOf(View(), w).done == |SessionOf(View(), w).claims|
      modifies this
      ensures Valid()
      ensures ValidRun(cfg, old(View()), es) && View() == Run(cfg, old(View()), es)
      ensures !err ==> SessionOf(View(), w) == Pushing(SessionOf(old(View()), w).jobs)
      ensures err ==> SessionOf(View(), w) == Idle || SessionOf(View(), w) == SessionOf(old(View()), w)
      ensures if err then Own(es, w) == [] || Own(es, w) == [CommitAckLost(w)] else Own(es, w) == [Event.Commit(w)]
      ensures faults == old(faults) + if err then 1 else 0
    {
      ghost var start := View();
      es := Interfere(w);
      var committed: bool := *;
      if committed {
        err, es := Finish(w, start, es);
      } else {
        err := true;
        es := Fault(w, es);
      }
    }

    /** The commit takes effect; the worker may not hear of it. */
    method Finish(w: WorkerId, ghost start: State, ghost before: seq<Event>) returns (err: bool, ghost es: seq<Event>)
      requires Valid() && ByOthers(before, w) && ValidRun(cfg, start, before) && View() == Run(cfg, start, before)
      requires SessionOf(View(), w).Working? && SessionOf(View(), w).done == |SessionOf(View(), w).claims|
      modifies this
      ensures Valid() && ValidRun(cfg, start, es) && View() == Run(cfg, start, es)
      ensures SessionOf(View(), w) == if err then Idle else Pushing(SessionOf(old(View()), w).jobs)
      ensures Own(es, w) == [if err then CommitAckLost(w) else Event.Commit(w)]
      ensures faults == old(faults) + if err then 1 else 0
    {
      ghost var mid := View();
      err := *;
      MakeDurable(w, if err then Idle else Pushing(sessions[w].jobs));
      es := Step(w, start, mid, before, if err then CommitAckLost(w) else Event.Commit(w));
      faults := if err then faults + 1 else faults;
    }

    method MakeDurable(w: WorkerId, ghost next: Session)
      requires TxsOk() && SessionOf(View(), w).Working? && !next.Open? && !next.Working?
      modifies this`rows, this`locks, this`txs, this`sessions
      ensures TxsOk() && View() == AfterCommit(old(View()), w, SessionOf(old(View()), w), next)
    {
      TxEnds(sessions, txs, w, next);
      rows := rows + txs[w].writes;
      locks := Released(locks, w);
      txs := txs - {w};
      sessions := sessions[w := next];
    }

    /** ROLLBACK, which does nothing once the transaction is over. */
    method Rollback(w: WorkerId) returns (ghost es: seq<Event>)
      requires Valid()
      requires !SessionOf(View(), w).Pushing?
      modifies this
      ensures Valid()
      ensures ValidRun(cfg, old(View()), es) && View() == Run(cfg, old(View()), es)
      ensures SessionOf(View(), w).Idle?
      ensures Own(es, w) == (if SessionOf(old(View()), w).Idle? then [] else [Abort(w)]) && faults == old(faults)
    {
      es := Interfere(w);
      ghost var mid := View();
      OwnOfOthers(es, w);
      if w in txs {
        Undo(w);
        es := Step(w, old(View()), mid, es, Abort(w));
      }
    }

    /** The transaction's locks and uncommitted rows are gone. */
    method Undo(w: WorkerId)
      requires TxsOk() && w in txs
      modifies this`locks, this`txs, this`sessions, this`wasted
      ensures TxsOk() && View() == AfterAbort(old(View()), w, SessionOf(old(View()), w))
    {
      ghost var n := sessions[w];
      TxEnds(sessions, txs, w, Idle);
      locks := Released(locks, w);
      txs := txs - {w};
      sessions := sessions[w := Idle];
      wasted := wasted + multiset(AckedIn(n));
    }

    /** One push for a job of a committed batch. */
    method Push(w: WorkerId, job: Claim) returns (ghost es: seq<Event>)
      requires Valid()
      requires SessionOf(View(), w).Pushing? && SessionOf(View(), w).jobs != [] && SessionOf(View(), w).jobs[0] == job
      modifies this
      ensures Valid()
      ensures ValidRun(cfg, old(View()), es) && View() == Run(cfg, old(View()), es)
      ensures SessionOf(View(), w) == Pushing(SessionOf(old(View()), w).jobs[1..])
      ensures Own(es, w) == [Event.Push(w)] && faults == old(faults)
    {
      es := Interfere(w);
      ghost var mid := View();
      Take(w, job);
      es := Step(w, old(View()), mid, es, Event.Push(w));
    }

    /** The job leaves the worker's list. */
    ghost method Take(w: WorkerId, job: Claim)
      requires TxsOk() && SessionOf(View(), w).Pushing?
      requires SessionOf(View(), w).jobs != [] && SessionOf(View(), w).jobs[0] == job
      modifies this`sessions, this`pushed
      ensures TxsOk() && View() == Apply(cfg, old(View()), Event.Push(w))
    {
      sessions := sessions[w := Pushing(sessions[w].jobs[1..])];
      pushed := pushed + multiset{job.id};
    }

    /** The worker returns to its poll loop. */
    ghost method Stop(w: WorkerId) returns (es: seq<Event>)
      requires Valid() && SessionOf(View(), w).Pushing?
      modifies this`sessions
      ensures Valid()
      ensures ValidRun(cfg, old(View()), es) && View() == Run(cfg, old(View()), es)
      ensures SessionOf(View(), w).Idle? && es == [Event.Stop(w)]
    {
      ghost var mid := View();
      sessions := sessions[w := Idle];
      es := Step(w, mid, mid, [], Event.Stop(w));
    }

    /** Appends the step worker w has just taken to the run so far. */
    ghost method Step(w: WorkerId, start: State, mid: State, before: seq<Event>, e: Event) returns (es: seq<Event>)
      requires ValidConfig(cfg) && Reachable(cfg, mid)
      requires ValidRun(cfg, start, before) && Run(cfg, start, before) == mid
      requires Enabled(mid, e) && View() == Apply(cfg, mid, e)
      ensures es == before + [e]
      ensures ValidRun(cfg, start, es) && Run(cfg, start, es) == View()
      ensures Reachable(cfg, View())
      ensures ByOthers(before, w) && Actor(e) == Some(w) ==> Own(es, w) == [e]
    {
      es := before + [e];
      RunOne(cfg, mid, e);
      RunAppend(cfg, start, before, [e]);
      ReachableStep(cfg, mid, e);
      if ByOthers(before, w) && Actor(e) == Some(w) { OwnStep(before, e, w); }
    }

    /** A statement of worker w fails: only others have stepped. */
    ghost method Fault(w: WorkerId, before: seq<Event>) returns (es: seq<Event>)
      requires ByOthers(before, w)
      modifies this`faults
      ensures faults == old(faults) + 1 && es == before && Own(es, w) == []
    {
      faults, es := faults + 1, before;
      OwnOfOthers(before, w);
    }
  }
}
