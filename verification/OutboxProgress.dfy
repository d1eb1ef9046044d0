/** The outbox can always be drained: from any reachable state, whatever Redis answers. */
module OutboxProgress {
  import opened Wrappers
  import opened Uuids
  import opened Ordering
  import opened Outbox
  import opened OutboxInvariant
  import opened OutboxTheorems
  import opened OutboxClaims
  import OutboxLedger
  import opened Sums

  lemma FreshWorker(s: State) returns (w: WorkerId)
    ensures w !in s.sessions
  {
    var ws := s.sessions.Keys;
    w := Above(ws);
  }

  lemma {:induction false} Above(ws: set<nat>) returns (w: nat)
    ensures forall x | x in ws :: x < w
    decreases |ws|
  {
    w := 0;
    if ws != {} {
      var y :| y in ws;
      var v := Above(ws - {y});
      w := if v > y then v else y + 1;
      forall x | x in ws ensures x < w {
        assert x == y || x in ws - {y};
      }
    }
  }

  lemma Extend(cfg: Config, s: State, es: seq<Event>, e: Event) returns (more: seq<Event>)
    requires ValidConfig(cfg) && Reachable(cfg, s) && ValidRun(cfg, s, es) && Enabled(Run(cfg, s, es), e)
    requires NoInsert(es) && !e.Insert?
    ensures more == es + [e] && ValidRun(cfg, s, more) && NoInsert(more)
    ensures Run(cfg, s, more) == Apply(cfg, Run(cfg, s, es), e)
    ensures Reachable(cfg, Run(cfg, s, more))
    ensures Answers(more) == Answers(es) + if e.Publish? then [e.answer] else []
  {
    more := es + [e];
    AnswersExtend(es, e);
    RunOne(cfg, Run(cfg, s, es), e);
    RunAppend(cfg, s, es, [e]);
    ReachableRun(cfg, s, more);
  }

  /** The answers Redis gave in a run, in order. */
  function Answers(es: seq<Event>): seq<Answer> {
    if es == [] then []
    else Answers(es[..|es| - 1]) + (if es[|es| - 1].Publish? then [es[|es| - 1].answer] else [])
  }

  lemma AnswersExtend(es: seq<Event>, e: Event)
    ensures Answers(es + [e]) == Answers(es) + if e.Publish? then [e.answer] else []
  {
    assert (es + [e])[..|es|] == es;
  }

  lemma {:induction false} AnswersAppend(a: seq<Event>, b: seq<Event>)
    ensures Answers(a + b) == Answers(a) + Answers(b)
  {
    if b == [] {
      assert a + b == a;
    } else {
      var front := b[..|b| - 1];
      AnswersAppend(a, front);
      AnswersExtend(a + front, b[|b| - 1]);
      AnswersExtend(front, b[|b| - 1]);
      assert a + b == (a + front) + [b[|b| - 1]] && b == front + [b[|b| - 1]];
    }
  }

  lemma LockedIsWorking(cfg: Config, s: State, id: Uuid)
    requires ValidConfig(cfg) && Reachable(cfg, s) && id in s.locks
    ensures SessionOf(s, s.locks[id]).Working?
  {
    OutboxSteps.ReachableInv(cfg, s);
    assert id in Held(SessionOf(s, s.locks[id]));
  }

  /** The answers are those of the oracle, one after the other. */
  ghost predicate Follows(answers: seq<Answer>, oracle: nat -> Answer, from: nat) {
    answers == [] || (answers[0] == oracle(from) && Follows(answers[1..], oracle, from + 1))
  }

  /** Frees a pending row, lets its retry time come, and opens a transaction that sees it. */
  lemma Approach(cfg: Config, s: State, id: Uuid) returns (es: seq<Event>, w: WorkerId)
    requires ValidConfig(cfg) && Reachable(cfg, s) && id in s.rows && s.rows[id].status == Pending
    ensures ValidRun(cfg, s, es) && NoInsert(es) && Answers(es) == []
    ensures var t := Run(cfg, s, es);
            Reachable(cfg, t) && t.rows == s.rows && SessionOf(t, w).Open? && id in Claimable(t, SessionOf(t, w).now)
  {
    es := [];
    var t := s;
    if id in s.locks {
      w := s.locks[id];
      LockedIsWorking(cfg, s, id);
      es := Extend(cfg, s, [], Abort(w));
      t := Run(cfg, s, es);
    } else {
      w := FreshWorker(s);
    }
    assert id !in t.locks && SessionOf(t, w).Idle? && t.rows == s.rows;
    var time := if t.clock < s.rows[id].nextAttemptAt then s.rows[id].nextAttemptAt else t.clock;
    es := Extend(cfg, s, es, Tick(time));
    es := Extend(cfg, s, es, Begin(w));
  }

  /** One committed batch more, with the answer Redis happens to give. */
  lemma OneBatch(cfg: Config, s: State, id: Uuid, a: Answer) returns (es: seq<Event>)
    requires ValidConfig(cfg) && Reachable(cfg, s) && id in s.rows && s.rows[id].status == Pending
    ensures ValidRun(cfg, s, es) && NoInsert(es) && Answers(es) == [a]
    ensures Reachable(cfg, Run(cfg, s, es))
    ensures Potential(cfg, Run(cfg, s, es).rows) < Potential(cfg, s.rows)
    ensures RowsCommitted(cfg, s, es) == 1
  {
    var w;
    es, w := ClaimOne(cfg, s, id);
    es := PublishAndMark(cfg, s, es, w, a);
    CommitDrops(cfg, Run(cfg, s, es), w);
    es := Extend(cfg, s, es, Commit(w));
    OutboxLedger.LedgerBalances(cfg, s, es);
  }

  lemma ClaimOne(cfg: Config, s: State, id: Uuid) returns (es: seq<Event>, w: WorkerId)
    requires ValidConfig(cfg) && Reachable(cfg, s) && id in s.rows && s.rows[id].status == Pending
    ensures ValidRun(cfg, s, es) && NoInsert(es) && Answers(es) == []
    ensures Reachable(cfg, Run(cfg, s, es)) && Run(cfg, s, es).rows == s.rows
    ensures var n := SessionOf(Run(cfg, s, es), w);
            n.Working? && |n.claims| == 1 && n.done == 0 && n.answer == None
  {
    es, w := Approach(cfg, s, id);
    SelectOne(cfg, Run(cfg, s, es), w, id);
    es := Extend(cfg, s, es, Select(w, 1));
  }

  lemma PublishAndMark(cfg: Config, s: State, es: seq<Event>, w: WorkerId, a: Answer) returns (more: seq<Event>)
    requires ValidConfig(cfg) && Reachable(cfg, s) && ValidRun(cfg, s, es) && NoInsert(es)
    requires var n := SessionOf(Run(cfg, s, es), w);
             n.Working? && |n.claims| == 1 && n.done == 0 && n.answer == None
    ensures ValidRun(cfg, s, more) && NoInsert(more) && Answers(more) == Answers(es) + [a]
    ensures Reachable(cfg, Run(cfg, s, more)) && Run(cfg, s, more).rows == Run(cfg, s, es).rows
    ensures var n := SessionOf(Run(cfg, s, more), w);
            n.Working? && |n.claims| == 1 && n.done == 1
  {
    more := Extend(cfg, s, es, Publish(w, a));
    MarkIsCurrent(cfg, Run(cfg, s, more), w);
    more := Extend(cfg, s, more, Mark(w, Run(cfg, s, more).clock));
  }

  lemma CommitDrops(cfg: Config, s: State, w: WorkerId)
    requires ValidConfig(cfg) && Reachable(cfg, s)
    requires SessionOf(s, w).Working? && |SessionOf(s, w).claims| == 1 && SessionOf(s, w).done == 1
    ensures Enabled(s, Commit(w)) && Potential(cfg, Apply(cfg, s, Commit(w)).rows) < Potential(cfg, s.rows)
    ensures OutboxLedger.TotalMarks(Apply(cfg, s, Commit(w)).rows) == OutboxLedger.TotalMarks(s.rows) + 1
  {
    OutboxSteps.ReachableInv(cfg, s);
    StepLowersPotential(cfg, s, Commit(w));
    OutboxLedger.StepMarks(cfg, s, Commit(w));
  }

  lemma SelectOne(cfg: Config, s: State, w: WorkerId, id: Uuid)
    requires SessionOf(s, w).Open? && id in Claimable(s, SessionOf(s, w).now)
    ensures var t := Apply(cfg, s, Select(w, 1));
            t.rows == s.rows && SessionOf(t, w).Working? && |SessionOf(t, w).claims| == 1
            && SessionOf(t, w).done == 0 && SessionOf(t, w).answer == None
  {
    SelectTakesMany(s, SessionOf(s, w).now, 1);
  }

  /** From every reachable state, for every sequence of answers Redis may give, there is a run without inserts
      after which every row is `sent` or `dead`. */
  lemma {:induction false} Drain(cfg: Config, s: State, oracle: nat -> Answer, from: nat) returns (es: seq<Event>)
    requires ValidConfig(cfg) && Reachable(cfg, s)
    ensures ValidRun(cfg, s, es) && NoInsert(es)
    ensures Follows(Answers(es), oracle, from)
    ensures forall id | id in Run(cfg, s, es).rows :: Run(cfg, s, es).rows[id].status != Pending
    decreases Potential(cfg, s.rows)
  {
    PotentialBounds(cfg, s);
    if id :| id in s.rows && s.rows[id].status == Pending {
      var batch := OneBatch(cfg, s, id, oracle(from));
      var rest := Drain(cfg, Run(cfg, s, batch), oracle, from + 1);
      RunAppend(cfg, s, batch, rest);
      AnswersAppend(batch, rest);
      es := batch + rest;
      assert Answers(es)[1..] == Answers(rest);
    } else {
      es := [];
    }
  }

  // ---- when it is drained ----

  /** No further run without inserts commits a row. */
  ghost predicate Exhausted(cfg: Config, s: State) {
    forall es {:trigger ValidRun(cfg, s, es)} | ValidRun(cfg, s, es) && NoInsert(es) :: RowsCommitted(cfg, s, es) == 0
  }

  /** The outbox is drained exactly when there is nothing left to commit: as long as a row is pending, some batch can
      still commit one, and once none is, no batch can. As every commit uses up a slot (OutboxLedger), a run that keeps
      committing while it can drains the outbox, whatever it claims, publishes and aborts on the way. */
  lemma DrainedIffExhausted(cfg: Config, s: State)
    requires ValidConfig(cfg) && Reachable(cfg, s)
    ensures (forall id | id in s.rows :: s.rows[id].status != Pending) <==> Exhausted(cfg, s)
  {
    if id :| id in s.rows && s.rows[id].status == Pending {
      var es := OneBatch(cfg, s, id, Acked);
      assert ValidRun(cfg, s, es) && RowsCommitted(cfg, s, es) == 1;
    } else {
      forall es | ValidRun(cfg, s, es) && NoInsert(es) ensures RowsCommitted(cfg, s, es) == 0 {
        NothingLeft(cfg, s, es);
      }
    }
  }

  lemma NothingLeft(cfg: Config, s: State, es: seq<Event>)
    requires ValidConfig(cfg) && Reachable(cfg, s) && ValidRun(cfg, s, es) && NoInsert(es)
    requires forall id | id in s.rows :: s.rows[id].status != Pending
    ensures RowsCommitted(cfg, s, es) == 0
  {
    RunLowersPotential(cfg, s, es);
    ReachableRun(cfg, s, es);
    PotentialBounds(cfg, Run(cfg, s, es));
    SumBounds(s.rows.Keys, Remaining(cfg, s.rows), 0);
  }
}
