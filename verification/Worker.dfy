/** internal/notify/worker.go: one worker process, run against any number of others. */
module Workers {
  import opened Wrappers
  import opened Uuids
  import opened Outbox
  import opened Backends
  import OutboxTheorems
  import Backoff
  import Channel

  const MILLISECOND: int := 1_000_000

  /** The shared settings as the machine sees them. */
  ghost function Settings(maxAttempts: nat, backoffBase: int): Config {
    Config(maxAttempts,
           (k: nat) => Backoff.NextBackoff(backoffBase, k),
           (citizen: Uuid) => Channel.CitizenChannel(citizen))
  }

  function OrDefault(value: int, least: int, default: int): int {
    if value < least then default else value
  }

  // ---- what one poll does, step by step ----

  /** Publish and mark, row after row. */
  function RowSteps(w: WorkerId, answers: seq<Answer>, times: seq<int>): seq<Event>
    requires |answers| == |times|
  {
    if answers == [] then []
    else
      var k := |answers| - 1;
      RowSteps(w, answers[..k], times[..k]) + RowStep(w, answers[k], times[k], false)
  }

  /** What happens to one row; a failing statement keeps it from being marked. */
  function RowStep(w: WorkerId, answer: Answer, time: int, err: bool): seq<Event> {
    if err then [Event.Publish(w, answer)] else [Event.Publish(w, answer), Event.Mark(w, time)]
  }

  lemma RowStepIs(w: WorkerId, answer: Answer, time: int, err: bool)
    ensures [Event.Publish(w, answer)] + (if err then [] else [Event.Mark(w, time)]) == RowStep(w, answer, time, err)
  {
  }

  /** The rows whose publish Redis acknowledged, in order. */
  function AckedRows(rows: seq<Claim>, answers: seq<Answer>): seq<Claim>
    requires |answers| == |rows|
  {
    if rows == [] then []
    else
      var k := |rows| - 1;
      AckedRows(rows[..k], answers[..k]) + (if answers[k].Acked? then [rows[k]] else [])
  }

  function Pushes(w: WorkerId, n: nat): seq<Event> {
    if n == 0 then [] else Pushes(w, n - 1) + [Event.Push(w)]
  }

  /** Every row published and marked; jobs are the rows that were acknowledged. */
  ghost predicate AllRows(own: seq<Event>, w: WorkerId, rows: seq<Claim>, jobs: seq<Claim>,
                          answers: seq<Answer>, times: seq<int>) {
    |answers| == |times| == |rows| && jobs == AckedRows(rows, answers) && own == RowSteps(w, answers, times)
  }

  lemma OneRowMore(own: seq<Event>, w: WorkerId, rows: seq<Claim>, k: nat, jobs: seq<Claim>,
                   answers: seq<Answer>, times: seq<int>)
    requires k < |rows| && AllRows(own, w, rows[..k], jobs, answers, times)
    ensures forall answer, time {:trigger RowStep(w, answer, time, false)} ::
              AllRows(own + RowStep(w, answer, time, false), w, rows[..k + 1],
                      if answer.Acked? then jobs + [rows[k]] else jobs, answers + [answer], times + [time])
  {
    assert rows[..k + 1][..k] == rows[..k];
    forall answer, time
      ensures AllRows(own + RowStep(w, answer, time, false), w, rows[..k + 1],
                      if answer.Acked? then jobs + [rows[k]] else jobs, answers + [answer], times + [time])
    {
      assert (answers + [answer])[..k] == answers && (times + [time])[..k] == times;
    }
  }

  lemma RowsThenFault(own: seq<Event>, w: WorkerId, rows: seq<Claim>, jobs: seq<Claim>,
                      answers: seq<Answer>, times: seq<int>)
    requires AllRows(own, w, rows, jobs, answers, times)
    ensures forall answer, time {:trigger RowStep(w, answer, time, true)} ::
              Completed(own + RowStep(w, answer, time, true), w) == 0
  {
    RowStepsHaveNoStop(w, answers, times);
  }

  /** A whole poll: claim, publish and mark every row, commit, and push what was acknowledged. */
  ghost predicate WholeBatch(own: seq<Event>, w: WorkerId, batch: int, rows: seq<Claim>, jobs: seq<Claim>,
                             answers: seq<Answer>, times: seq<int>) {
    && |answers| == |times| == |rows| && jobs == AckedRows(rows, answers)
    && own == [Event.Begin(w), Event.Select(w, batch)] + RowSteps(w, answers, times) + [Event.Commit(w)]
              + Pushes(w, |jobs|) + [Event.Stop(w)]
  }

  lemma FourParts(claim: seq<Event>, loop: seq<Event>, publish: seq<Event>, push: seq<Event>, w: WorkerId, batch: int,
                  rows: seq<Claim>, jobs: seq<Claim>, answers: seq<Answer>, times: seq<int>)
    requires claim == [Event.Begin(w), Event.Select(w, batch)] && AllRows(loop, w, rows, jobs, answers, times)
    requires publish == loop + [Event.Commit(w)] && push == Pushes(w, |jobs|) + [Event.Stop(w)]
    ensures WholeBatch(claim + publish + push, w, batch, rows, jobs, answers, times)
  {
    var four := claim + loop + [Event.Commit(w)] + Pushes(w, |jobs|) + [Event.Stop(w)];
    assert claim + (loop + [Event.Commit(w)]) + (Pushes(w, |jobs|) + [Event.Stop(w)]) == four;
  }

  /** How many polls a worker has carried through: each ends with its own Stop. */
  function Completed(own: seq<Event>, w: WorkerId): nat {
    multiset(own)[Event.Stop(w)]
  }

  lemma {:induction false} RowStepsHaveNoStop(w: WorkerId, answers: seq<Answer>, times: seq<int>)
    requires |answers| == |times|
    ensures Completed(RowSteps(w, answers, times), w) == 0
    decreases |answers|
  {
    if answers != [] {
      var k := |answers| - 1;
      RowStepsHaveNoStop(w, answers[..k], times[..k]);
    }
  }

  lemma NothingCompleted(w: WorkerId)
    ensures Completed([], w) == Completed([Event.Abort(w)], w) == Completed([Event.CommitAckLost(w)], w) == 0
    ensures Completed([Event.Begin(w)], w) == 0
    ensures forall a :: Completed([Event.Publish(w, a)], w) == 0
  {
  }

  lemma WholeBatchCompletes(own: seq<Event>, w: WorkerId, batch: int, rows: seq<Claim>, jobs: seq<Claim>,
                            answers: seq<Answer>, times: seq<int>)
    requires WholeBatch(own, w, batch, rows, jobs, answers, times)
    ensures Completed(own, w) == 1
  {
    RowStepsHaveNoStop(w, answers, times);
    PushesHaveNoStop(w, |jobs|);
  }

  lemma {:induction false} PushesHaveNoStop(w: WorkerId, n: nat)
    ensures Completed(Pushes(w, n), w) == 0
  {
    if n > 0 { PushesHaveNoStop(w, n - 1); }
  }

  class Worker {
    const id: WorkerId
    const db: Backend
    var batchSize: int
    var pollInterval: int
    var maxAttempts: int
    var backoffBase: int

    constructor (id: WorkerId, db: Backend, batchSize: int, pollInterval: int, maxAttempts: int, backoffBase: int)
      ensures this.id == id && this.db == db
      ensures this.batchSize == batchSize && this.pollInterval == pollInterval
      ensures this.maxAttempts == maxAttempts && this.backoffBase == backoffBase
    {
      this.id, this.db := id, db;
      this.batchSize, this.pollInterval, this.maxAttempts, this.backoffBase :=
        batchSize, pollInterval, maxAttempts, backoffBase;
    }

    /** The head of Run: non-positive settings are replaced. */
    method Normalise()
      modifies this
      ensures batchSize == if old(batchSize) >= 1 then old(batchSize) else 1
      ensures pollInterval == if old(pollInterval) > 0 then old(pollInterval) else 500_000_000
      ensures maxAttempts == if old(maxAttempts) >= 1 then old(maxAttempts) else 5
      ensures backoffBase == if old(backoffBase) > 0 then old(backoffBase) else 200_000_000
    {
      if batchSize < 1 { batchSize := 1; }
      if pollInterval <= 0 { pollInterval := 500 * MILLISECOND; }
      if maxAttempts < 1 { maxAttempts := 5; }
      if backoffBase <= 0 { backoffBase := 200 * MILLISECOND; }
    }

    /** The worker and the database agree on the settings that decide about rows. */
    ghost predicate Agrees()
      reads this
    {
      maxAttempts >= 1 && db.cfg == Settings(maxAttempts, backoffBase)
    }

    method NextBackoff(newAttempts: nat) returns (delay: int)
      requires Agrees()
      ensures delay == db.cfg.delay(newAttempts)
    {
      delay := Backoff.NextBackoff(backoffBase, newAttempts);
    }

    method ChannelOf(citizen: Uuid) returns (channel: string)
      requires Agrees()
      ensures channel == db.cfg.channel(citizen)
    {
      channel := Channel.CitizenChannel(citizen);
    }

    ghost function Mine(): Session
      reads this, db
    {
      SessionOf(db.View(), id)
    }

    /** One poll: claim, publish and mark each row, commit, push. `jobs` are the pushes made.
        Under any interference the effect is a run of the outbox machine, and it leaves no transaction open. */
    method ProcessBatch()
      returns (err: bool, jobs: seq<Claim>, ghost rows: seq<Claim>, ghost answers: seq<Answer>, ghost times: seq<int>,
               ghost es: seq<Event>)
      requires db.Valid() && Agrees() && Mine().Idle?
      modifies db
      ensures db.Valid() && Mine().Idle?
      ensures ValidRun(db.cfg, old(db.View()), es) && db.View() == Run(db.cfg, old(db.View()), es)
      ensures !err ==> WholeBatch(Own(es, id), id, batchSize, rows, jobs, answers, times)
      ensures err ==> jobs == [] && Completed(Own(es, id), id) == 0
      ensures db.faults == old(db.faults) + if err then 1 else 0
    {
      jobs, rows, answers, times := [], [], [], [];
      ghost var start := db.View();
      ghost var loop, more;
      var claimed, pushJobs;
      err, claimed, es := ClaimBatch();
      if err { return; }
      rows := claimed;
      ghost var claim := Own(es, id);
      err, pushJobs, answers, times, loop, more := PublishAndCommit(claimed);
      ghost var publish := Own(more, id);
      es := Join(start, es, more);
      if err { return; }
      jobs := pushJobs;
      more := PushAll(pushJobs);
      FourParts(claim, loop, publish, Own(more, id), id, batchSize, rows, jobs, answers, times);
      es := Join(start, es, more);
    }

    /** The transaction's beginning: BEGIN and the claim, rolled back if the claim fails. */
    method ClaimBatch() returns (err: bool, rows: seq<Claim>, ghost es: seq<Event>)
      requires db.Valid() && Mine().Idle?
      modifies db
      ensures db.Valid() && ValidRun(db.cfg, old(db.View()), es) && db.View() == Run(db.cfg, old(db.View()), es)
      ensures if err then Mine().Idle? else Mine().Working? && Mine() == Working(Mine().now, rows, 0, None, map[], [])
      ensures if err then Completed(Own(es, id), id) == 0
              else Own(es, id) == [Event.Begin(id), Event.Select(id, batchSize)]
      ensures db.faults == old(db.faults) + if err then 1 else 0
    {
      ghost var start := db.View();
      ghost var more: seq<Event>;
      rows := [];
      err, es := db.Begin(id);
      NothingCompleted(id);
      if !err {
        err, rows, more := ClaimRows();
        assert !err ==> Own(es, id) + Own(more, id) == [Event.Begin(id), Event.Select(id, batchSize)];
        es := Join(start, es, more);
      }
    }

    method ClaimRows() returns (err: bool, rows: seq<Claim>, ghost es: seq<Event>)
      requires db.Valid() && Mine().Open?
      modifies db
      ensures db.Valid() && ValidRun(db.cfg, old(db.View()), es) && db.View() == Run(db.cfg, old(db.View()), es)
      ensures if err then Mine().Idle? else Mine().Working? && Mine() == Working(Mine().now, rows, 0, None, map[], [])
      ensures if err then Completed(Own(es, id), id) == 0 else Own(es, id) == [Event.Select(id, batchSize)]
      ensures db.faults == old(db.faults) + if err then 1 else 0
    {
      ghost var start := db.View();
      err, rows, es := db.SelectPendingOutboxForUpdate(id, batchSize);
      if err {
        NothingCompleted(id);
        ghost var more := db.Rollback(id);
        es := Join(start, es, more);
      }
    }

    /** The transaction's rest: every row, then COMMIT, rolled back if anything fails. */
    method PublishAndCommit(rows: seq<Claim>)
      returns (err: bool, pushJobs: seq<Claim>, ghost answers: seq<Answer>, ghost times: seq<int>,
               ghost loop: seq<Event>, ghost es: seq<Event>)
      requires db.Valid() && Agrees()
      requires Mine().Working? && Mine() == Working(Mine().now, rows, 0, None, map[], [])
      modifies db
      ensures db.Valid() && ValidRun(db.cfg, old(db.View()), es) && db.View() == Run(db.cfg, old(db.View()), es)
      ensures if err then Mine().Idle? else Mine() == Pushing(pushJobs)
      ensures if err then Completed(Own(es, id), id) == 0
              else AllRows(loop, id, rows, pushJobs, answers, times) && Own(es, id) == loop + [Event.Commit(id)]
      ensures db.faults == old(db.faults) + if err then 1 else 0
    {
      ghost var start := db.View();
      ghost var more: seq<Event>;
      err, pushJobs, answers, times, es := PublishAll(rows);
      loop := Own(es, id);
      NothingCompleted(id);
      if !err {
        err, more := db.Commit(id);
        es := Join(start, es, more);
      }
      if err {
        more := db.Rollback(id);
        es := Join(start, es, more);
      }
    }

    /** The loop over the claimed rows. */
    method PublishAll(rows: seq<Claim>)
      returns (err: bool, pushJobs: seq<Claim>, ghost answers: seq<Answer>, ghost times: seq<int>, ghost es: seq<Event>)
      requires db.Valid() && Agrees()
      requires Mine().Working? && Mine() == Working(Mine().now, rows, 0, None, map[], [])
      modifies db
      ensures db.Valid() && Mine().Working?
      ensures ValidRun(db.cfg, old(db.View()), es) && db.View() == Run(db.cfg, old(db.View()), es)
      ensures !err ==> Mine().claims == rows && Mine().done == |rows| && Mine().jobs == pushJobs
      ensures !err ==> AllRows(Own(es, id), id, rows, pushJobs, answers, times)
      ensures Completed(Own(es, id), id) == 0
      ensures db.faults == old(db.faults) + if err then 1 else 0
    {
      ghost var start := db.View();
      es, pushJobs, err, answers, times := [], [], false, [], [];
      var k := 0;
      while k < |rows| && !err
        invariant 0 <= k <= |rows| && db.Valid() && db.faults == old(db.faults) + if err then 1 else 0
        invariant ValidRun(db.cfg, start, es) && db.View() == Run(db.cfg, start, es) && Mine().Working?
        invariant if err then Completed(Own(es, id), id) == 0
                  else Progress(rows, k, pushJobs) && AllRows(Own(es, id), id, rows[..k], pushJobs, answers, times)
      {
        ghost var own, answer, time := Own(es, id), Acked, 0;
        RowsThenFault(own, id, rows[..k], pushJobs, answers, times);
        OneRowMore(own, id, rows, k, pushJobs, answers, times);
        err, pushJobs, answer, time, es := PublishNext(rows, k, pushJobs, start, es);
        answers, times := answers + [answer], times + [time];
        k := k + 1;
      }
      assert !err ==> rows[..k] == rows;
      if !err { RowStepsHaveNoStop(id, answers, times); }
    }

    /** k rows are done. */
    ghost predicate Progress(rows: seq<Claim>, k: nat, pushJobs: seq<Claim>)
      reads this, db
    {
      var n := Mine();
      n.Working? && n.claims == rows && n.done == k && n.answer == None && n.jobs == pushJobs
    }

    /** One turn of that loop. */
    method PublishNext(rows: seq<Claim>, k: nat, before: seq<Claim>, ghost start: State, ghost run: seq<Event>)
      returns (err: bool, pushJobs: seq<Claim>, ghost answer: Answer, ghost time: int, ghost es: seq<Event>)
      requires db.Valid() && Agrees() && k < |rows| && Progress(rows, k, before)
      requires ValidRun(db.cfg, start, run) && db.View() == Run(db.cfg, start, run)
      modifies db
      ensures db.Valid() && Mine().Working? && (!err ==> Progress(rows, k + 1, pushJobs))
      ensures ValidRun(db.cfg, start, es) && db.View() == Run(db.cfg, start, es)
      ensures Own(es, id) == Own(run, id) + RowStep(id, answer, time, err)
      ensures !err ==> pushJobs == if answer.Acked? then before + [rows[k]] else before
      ensures db.faults == old(db.faults) + if err then 1 else 0
    {
      var sent;
      ghost var more;
      err, sent, answer, time, more := PublishAndMark(rows[k]);
      es := Join(start, run, more);
      pushJobs := if sent then before + [rows[k]] else before;
    }

    /** The body of that loop: publish, then record the answer. */
    method PublishAndMark(row: Claim)
      returns (err: bool, sent: bool, ghost answer: Answer, ghost time: int, ghost es: seq<Event>)
      requires db.Valid() && Agrees()
      requires Mine().Working? && Mine().done < |Mine().claims| && Mine().claims[Mine().done] == row
      requires Mine().answer == None
      modifies db
      ensures db.Valid() && Mine().Working?
      ensures ValidRun(db.cfg, old(db.View()), es) && db.View() == Run(db.cfg, old(db.View()), es)
      ensures !err ==> AdvancedPast(old(Mine()), Mine(), row, sent)
      ensures sent == answer.Acked?
      ensures Own(es, id) == RowStep(id, answer, time, err)
      ensures db.faults == old(db.faults) + if err then 1 else 0
    {
      ghost var start := db.View();
      var channel := ChannelOf(row.citizen);
      var pubErr;
      pubErr, answer, es := db.Publish(id, channel, row.payload);
      sent := !pubErr;
      err, time, es := RecordAnswer(row, answer, sent, start, es);
    }

    /** Marks the row with the answer just received. */
    method RecordAnswer(row: Claim, ghost answer: Answer, sent: bool, ghost start: State, ghost before: seq<Event>)
      returns (err: bool, ghost time: int, ghost es: seq<Event>)
      requires db.Valid() && Agrees()
      requires Mine().Working? && Mine().done < |Mine().claims| && Mine().claims[Mine().done] == row
      requires Mine().answer == Some(sent)
      requires ValidRun(db.cfg, start, before) && db.View() == Run(db.cfg, start, before)
      requires Own(before, id) == [Event.Publish(id, answer)]
      modifies db
      ensures db.Valid() && Mine().Working?
      ensures ValidRun(db.cfg, start, es) && db.View() == Run(db.cfg, start, es)
      ensures !err ==> AdvancedPast(old(Mine()), Mine(), row, sent)
      ensures Own(es, id) == RowStep(id, answer, time, err)
      ensures db.faults == old(db.faults) + if err then 1 else 0
    {
      ghost var more;
      err, time, more := Record(row, sent);
      RowStepIs(id, answer, time, err);
      es := Join(start, before, more);
    }

    /** The loop's two branches. */
    method Record(row: Claim, sent: bool) returns (err: bool, ghost time: int, ghost es: seq<Event>)
      requires db.Valid() && Agrees()
      requires Mine().Working? && Mine().done < |Mine().claims| && Mine().claims[Mine().done] == row
      requires Mine().answer == Some(sent)
      modifies db
      ensures db.Valid() && Mine().Working?
      ensures ValidRun(db.cfg, old(db.View()), es) && db.View() == Run(db.cfg, old(db.View()), es)
      ensures !err ==> AdvancedPast(old(Mine()), Mine(), row, sent)
      ensures Own(es, id) == if err then [] else [Event.Mark(id, time)]
      ensures db.faults == old(db.faults) + if err then 1 else 0
    {
      if sent {
        err, time, es := RecordSent(row);
      } else {
        err, time, es := RecordFailure(row);
      }
    }

    ghost predicate AdvancedPast(before: Session, after: Session, row: Claim, sent: bool) {
      && before.Working? && after.Working?
      && after.claims == before.claims && after.done == before.done + 1 && after.answer == None
      && after.jobs == if sent then before.jobs + [row] else before.jobs
    }

    method RecordSent(row: Claim) returns (err: bool, ghost time: int, ghost es: seq<Event>)
      requires db.Valid() && Agrees()
      requires Mine().Working? && Mine().done < |Mine().claims| && Mine().claims[Mine().done] == row
      requires Mine().answer == Some(true)
      modifies db
      ensures db.Valid() && Mine().Working?
      ensures ValidRun(db.cfg, old(db.View()), es) && db.View() == Run(db.cfg, old(db.View()), es)
      ensures !err ==> AdvancedPast(old(Mine()), Mine(), row, true)
      ensures Own(es, id) == if err then [] else [Event.Mark(id, time)]
      ensures db.faults == old(db.faults) + if err then 1 else 0
    {
      ghost var start := db.View();
      time := start.clock;
      err, es := db.MarkOutboxSent(id, row.id);
      if err {
        OwnOfOthers(es, id);
      } else {
        es := AsMark(start, es, row, time);
      }
    }

    method RecordFailure(row: Claim) returns (err: bool, ghost time: int, ghost es: seq<Event>)
      requires db.Valid() && Agrees()
      requires Mine().Working? && Mine().done < |Mine().claims| && Mine().claims[Mine().done] == row
      requires Mine().answer == Some(false)
      modifies db
      ensures db.Valid() && Mine().Working?
      ensures ValidRun(db.cfg, old(db.View()), es) && db.View() == Run(db.cfg, old(db.View()), es)
      ensures !err ==> AdvancedPast(old(Mine()), Mine(), row, false)
      ensures Own(es, id) == if err then [] else [Event.Mark(id, time)]
      ensures db.faults == old(db.faults) + if err then 1 else 0
    {
      ghost var start := db.View();
      var clock := db.clock;
      time := clock;
      var next, dead := Decide(row, clock);
      err, es := db.MarkOutboxPublishFailed(id, row.id, next, dead, clock);
      if err {
        OwnOfOthers(es, id);
      } else {
        es := AsMark(start, es, row, time);
      }
    }

    /** The worker's decision on a failed publish, from its own copy of the row. */
    method Decide(row: Claim, clock: int) returns (next: int, dead: bool)
      requires Agrees()
      ensures dead == FailureDead(db.cfg, row) && next == FailureNext(db.cfg, row, clock)
      ensures dead <==> row.attempts + 1 >= maxAttempts
      ensures next == if dead then row.nextAttemptAt
                      else clock + Backoff.NextBackoff(backoffBase, row.attempts + 1)
    {
      var newAttempts := row.attempts + 1;
      dead := newAttempts >= maxAttempts;
      var delay := NextBackoff(newAttempts);
      next := clock + delay;
      if dead {
        next := row.nextAttemptAt;
      }
    }

    /** The UPDATE just made, together with the loop going on to the next row, is one Mark step. */
    ghost method AsMark(start: State, before: seq<Event>, row: Claim, time: int) returns (es: seq<Event>)
      requires ValidConfig(db.cfg) && Reachable(db.cfg, start) && db.TxsOk() && time == start.clock
      requires ByOthers(before, id) && ValidRun(db.cfg, start, before)
      requires var mid := Run(db.cfg, start, before);
               var n := SessionOf(mid, id);
               && Reachable(db.cfg, mid) && n == SessionOf(start, id)
               && n.Working? && n.done < |n.claims| && n.claims[n.done] == row && n.answer.Some?
               && db.View() == AfterUpdate(mid, id, row.id, UpdateFor(db.cfg, row, n.answer.value, time))
      modifies db`sessions
      ensures db.Valid() && ValidRun(db.cfg, start, es) && Run(db.cfg, start, es) == db.View()
      ensures AdvancedPast(SessionOf(start, id), Mine(), row, SessionOf(start, id).answer == Some(true))
      ensures Own(es, id) == [Event.Mark(id, time)]
    {
      var mid := Run(db.cfg, start, before);
      OthersKeep(db.cfg, start, before, id);
      OutboxTheorems.MarkIsCurrent(db.cfg, mid, id);
      OutboxTheorems.MarkIsCurrent(db.cfg, start, id);
      UpdateIsMark(db.cfg, mid, id, time);
      MoveOn();
      es := db.Step(id, start, mid, before, Mark(id, time));
    }

    /** The loop goes on to the next row. */
    ghost method MoveOn()
      requires db.TxsOk() && Mine().Working? && Mine().done < |Mine().claims| && Mine().answer.Some?
      modifies db`sessions
      ensures db.TxsOk() && db.View() == Goto(old(db.View()), id, Advanced(old(Mine())))
    {
      db.sessions := db.sessions[id := Advanced(db.sessions[id])];
    }

    /** The pushes of an acknowledged commit, in order, and back to idle. */
    method PushAll(pushJobs: seq<Claim>) returns (ghost es: seq<Event>)
      requires db.Valid() && Mine() == Pushing(pushJobs)
      modifies db
      ensures db.Valid() && Mine().Idle?
      ensures ValidRun(db.cfg, old(db.View()), es) && db.View() == Run(db.cfg, old(db.View()), es)
      ensures Own(es, id) == Pushes(id, |pushJobs|) + [Event.Stop(id)] && db.faults == old(db.faults)
    {
      ghost var start := db.View();
      ghost var more;
      es := [];
      var k := 0;
      while k < |pushJobs|
        invariant 0 <= k <= |pushJobs|
        invariant db.Valid() && Mine() == Pushing(pushJobs[k..]) && db.faults == old(db.faults)
        invariant ValidRun(db.cfg, start, es) && db.View() == Run(db.cfg, start, es)
        invariant Own(es, id) == Pushes(id, k)
      {
        es := PushNext(pushJobs, k, start, es);
        k := k + 1;
      }
      more := db.Stop(id);
      OwnStep([], Event.Stop(id), id);
      es := Join(start, es, more);
    }

    method PushNext(pushJobs: seq<Claim>, k: nat, ghost start: State, ghost before: seq<Event>)
      returns (ghost es: seq<Event>)
      requires db.Valid() && k < |pushJobs| && Mine() == Pushing(pushJobs[k..])
      requires ValidRun(db.cfg, start, before) && db.View() == Run(db.cfg, start, before)
      modifies db
      ensures db.Valid() && Mine() == Pushing(pushJobs[k + 1..])
      ensures ValidRun(db.cfg, start, es) && db.View() == Run(db.cfg, start, es)
      ensures Own(es, id) == Own(before, id) + [Event.Push(id)] && db.faults == old(db.faults)
    {
      ghost var more := db.Push(id, pushJobs[k]);
      es := Join(start, before, more);
    }

    /** Run: normalise, then one batch per tick until the context ends, here after `ticks` of them: every tick
        carries a batch through or meets a failing statement. */
    method Poll(ticks: nat) returns (ghost es: seq<Event>)
      requires db.Valid() && Mine().Idle?
      requires db.cfg == Settings(OrDefault(maxAttempts, 1, 5), OrDefault(backoffBase, 1, 200 * MILLISECOND))
      modifies this, db
      ensures db.Valid() && Mine().Idle?
      ensures ValidRun(db.cfg, old(db.View()), es) && db.View() == Run(db.cfg, old(db.View()), es)
      ensures Completed(Own(es, id), id) + (db.faults - old(db.faults)) == ticks
    {
      ghost var start := db.View();
      es := [];
      Normalise();
      var k := 0;
      while k < ticks
        invariant 0 <= k <= ticks && Completed(Own(es, id), id) + (db.faults - old(db.faults)) == k
        invariant db.Valid() && Agrees() && Mine().Idle?
        invariant ValidRun(db.cfg, start, es) && db.View() == Run(db.cfg, start, es)
      {
        var err, jobs;
        ghost var rows, answers, times, more;
        err, jobs, rows, answers, times, more := ProcessBatch();
        if !err { WholeBatchCompletes(Own(more, id), id, batchSize, rows, jobs, answers, times); }
        es := Join(start, es, more);
        k := k + 1;
      }
    }

    /** Two runs, one after the other. */
    ghost method Join(start: State, before: seq<Event>, more: seq<Event>) returns (es: seq<Event>)
      requires ValidRun(db.cfg, start, before)
      requires ValidRun(db.cfg, Run(db.cfg, start, before), more)
      ensures es == before + more && ValidRun(db.cfg, start, es)
      ensures Run(db.cfg, start, es) == Run(db.cfg, Run(db.cfg, start, before), more)
      ensures Own(es, id) == Own(before, id) + Own(more, id)
      ensures Completed(Own(es, id), id) == Completed(Own(before, id), id) + Completed(Own(more, id), id)
    {
      es := before + more;
      OwnAppend(before, more, id);
      RunAppend(db.cfg, start, before, more);
    }
  }
}
