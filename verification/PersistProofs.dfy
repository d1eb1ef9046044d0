/** Every run of concurrent webhook transactions. */
module PersistProofs {
  import opened Uuids
  import opened Persist

  lemma InitInv(mk: Maker)
    ensures Inv(mk, Init)
  {
    assert DeliverAll(mk, []) == NoTables;
    assert RowIds(NoTables) == {};
  }

  /** Replacing one open transaction by its next stage. */
  lemma KeepTxs(s: State, t: State, r: RequestId, tx: Tx)
    requires TxsOk(s) && t.tables == s.tables && s.used <= t.used && t.txs == s.txs[r := tx]
    requires TxOk(t.tables, tx) && DrawnOk(t, tx)
    requires forall q | q in s.txs && q != r :: Apart(s.txs[q], tx) && Apart(tx, s.txs[q])
    ensures TxsOk(t)
  {
    forall q | q in t.txs ensures TxOk(t.tables, t.txs[q]) && DrawnOk(t, t.txs[q]) {
      if q != r { assert t.txs[q] == s.txs[q]; }
    }
  }

  lemma StepOpen(mk: Maker, s: State, e: Event)
    requires Inv(mk, s) && Enabled(s, e) && (e.Start? || e.EnsureCitizen? || e.InsertNote? || e.InsertOutbox?)
    ensures Inv(mk, Apply(mk, s, e))
  {
    var t := Apply(mk, s, e);
    var tx := t.txs[e.r];
    forall q | q in s.txs && q != e.r ensures Apart(s.txs[q], tx) && Apart(tx, s.txs[q]) {
      assert DrawnOk(s, s.txs[q]);
      if e.r in s.txs {
        assert Apart(s.txs[q], s.txs[e.r]) && Apart(s.txs[e.r], s.txs[q]);
      }
    }
    if e.r in s.txs {
      assert TxOk(s.tables, s.txs[e.r]) && DrawnOk(s, s.txs[e.r]);
    }
    KeepTxs(s, t, e.r, tx);
  }

  lemma StepAbort(mk: Maker, s: State, r: RequestId)
    requires Inv(mk, s) && Enabled(s, Abort(r))
    ensures Inv(mk, Apply(mk, s, Abort(r)))
  {
    var t := Apply(mk, s, Abort(r));
    forall q | q in t.txs ensures TxOk(t.tables, t.txs[q]) && DrawnOk(t, t.txs[q]) {
      assert t.txs[q] == s.txs[q];
    }
  }

  /** What a transaction writes is what the same delivery does alone on the tables it commits to. */
  lemma WrittenIsDeliver(mk: Maker, t: Tables, tx: Tx)
    requires (tx.WithOutbox? || tx.AsDuplicate?) && TxOk(t, tx)
    ensures Written(mk, t, tx) == Deliver(mk, t, RecordOf(tx))
  {
    if !tx.created {
      assert t.citizens[tx.d.fingerprint := tx.citizen] == t.citizens;
    }
  }

  /** Inserting a notification with its outbox row adds one pair and keeps the others. */
  lemma PairAfterInsert(mk: Maker, t: Tables, x: Record, k: Key, a: Uuid)
    requires Bijection(t.notes, t.outbox) && x.d.key !in t.notes && x.nid !in RowIds(t) && x.oid !in RowIds(t)
    ensures Pair(Deliver(mk, t, x).notes, Deliver(mk, t, x).outbox, k, a)
            <==> Pair(t.notes, t.outbox, k, a) || (k == x.d.key && a == x.oid)
  {
    var u := Deliver(mk, t, x);
    assert k in t.notes ==> t.notes[k].id in RowIds(t);
    if Pair(u.notes, u.outbox, k, a) {
      if a != x.oid {
        assert HasNote(t.notes, t.outbox, a);
        var j :| Pair(t.notes, t.outbox, j, a);
        assert t.notes[j].id in RowIds(t);
      }
    }
  }

  lemma InsertKeepsBijection(mk: Maker, t: Tables, x: Record)
    requires Bijection(t.notes, t.outbox) && x.d.key !in t.notes && x.nid !in RowIds(t) && x.oid !in RowIds(t)
    ensures Bijection(Deliver(mk, t, x).notes, Deliver(mk, t, x).outbox)
  {
    var u := Deliver(mk, t, x);
    forall k, a
      ensures Pair(u.notes, u.outbox, k, a) <==> Pair(t.notes, t.outbox, k, a) || (k == x.d.key && a == x.oid)
    {
      PairAfterInsert(mk, t, x, k, a);
    }
    PairsMakeBijection(t, u, x.d.key, x.oid);
  }

  /** The pairs after adding one whose key and outbox id are both new. */
  ghost predicate OnePairMore(t: Tables, u: Tables, key: Key, oid: Uuid) {
    && key !in t.notes && oid !in t.outbox
    && forall k, a {:trigger Pair(u.notes, u.outbox, k, a)} ::
         Pair(u.notes, u.outbox, k, a) <==> Pair(t.notes, t.outbox, k, a) || (k == key && a == oid)
  }

  lemma PairsMakeBijection(t: Tables, u: Tables, key: Key, oid: Uuid)
    requires Bijection(t.notes, t.outbox) && OnePairMore(t, u, key, oid)
    requires u.notes.Keys == t.notes.Keys + {key} && u.outbox.Keys == t.outbox.Keys + {oid}
    ensures Bijection(u.notes, u.outbox)
  {
    EachStillHasOne(t, u, key, oid);
    NoneYetHasTwo(t, u, key, oid);
  }

  lemma EachStillHasOne(t: Tables, u: Tables, key: Key, oid: Uuid)
    requires EachHasOne(t.notes, t.outbox) && OnePairMore(t, u, key, oid)
    requires u.notes.Keys == t.notes.Keys + {key} && u.outbox.Keys == t.outbox.Keys + {oid}
    ensures EachHasOne(u.notes, u.outbox)
  {
    forall k | k in u.notes ensures HasEntry(u.notes, u.outbox, k) {
      KeyHasEntry(t, u, key, oid, k);
    }
    forall a | a in u.outbox ensures HasNote(u.notes, u.outbox, a) {
      OidHasNote(t, u, key, oid, a);
    }
  }

  lemma NoneYetHasTwo(t: Tables, u: Tables, key: Key, oid: Uuid)
    requires NoneHasTwo(t.notes, t.outbox) && OnePairMore(t, u, key, oid)
    ensures NoneHasTwo(u.notes, u.outbox)
  {
    forall k, a, b | Pair(u.notes, u.outbox, k, a) && Pair(u.notes, u.outbox, k, b) ensures a == b {
      if k != key {
        assert Pair(t.notes, t.outbox, k, a) && Pair(t.notes, t.outbox, k, b);
      }
    }
    forall j, k, a | Pair(u.notes, u.outbox, j, a) && Pair(u.notes, u.outbox, k, a) ensures j == k {
      if a != oid {
        assert Pair(t.notes, t.outbox, j, a) && Pair(t.notes, t.outbox, k, a);
      }
    }
  }

  lemma KeyHasEntry(t: Tables, u: Tables, key: Key, oid: Uuid, k: Key)
    requires OnePairMore(t, u, key, oid) && (k != key ==> HasEntry(t.notes, t.outbox, k))
    ensures HasEntry(u.notes, u.outbox, k)
  {
    if k == key {
      assert Pair(u.notes, u.outbox, k, oid);
    } else {
      var a :| Pair(t.notes, t.outbox, k, a);
      assert Pair(u.notes, u.outbox, k, a);
    }
  }

  lemma OidHasNote(t: Tables, u: Tables, key: Key, oid: Uuid, a: Uuid)
    requires OnePairMore(t, u, key, oid) && (a != oid ==> HasNote(t.notes, t.outbox, a))
    ensures HasNote(u.notes, u.outbox, a)
  {
    if a == oid {
      assert Pair(u.notes, u.outbox, key, a);
    } else {
      var k :| Pair(t.notes, t.outbox, k, a);
      assert Pair(u.notes, u.outbox, k, a);
    }
  }

  /** A commit leaves what the other transactions have found or inserted as it is. */
  lemma CommitKeepsTxs(mk: Maker, s: State, t: State, r: RequestId)
    requires TxsOk(s) && r in s.txs && (s.txs[r].WithOutbox? || s.txs[r].AsDuplicate?)
    requires t.tables == Written(mk, s.tables, s.txs[r]) && t.txs == s.txs - {r} && t.used == s.used
    ensures TxsOk(t)
  {
    var tx := s.txs[r];
    RowIdsAfter(mk, s.tables, tx);
    forall q | q in t.txs ensures TxOk(t.tables, t.txs[q]) && DrawnOk(t, t.txs[q]) {
      assert t.txs[q] == s.txs[q];
      assert Apart(s.txs[q], tx) && Apart(tx, s.txs[q]);
      assert TxOk(s.tables, s.txs[q]) && DrawnOk(s, s.txs[q]);
    }
  }

  lemma RowIdsAfter(mk: Maker, t: Tables, tx: Tx)
    requires (tx.WithOutbox? || tx.AsDuplicate?) && TxOk(t, tx)
    ensures RowIds(Written(mk, t, tx)) <= RowIds(t) + Drawn(tx)
  {
    var u := Written(mk, t, tx);
    forall k | k in u.notes ensures u.notes[k].id in RowIds(t) + Drawn(tx) {
      if k in t.notes && u.notes[k] == t.notes[k] {
        assert t.notes[k].id in RowIds(t);
      }
    }
  }

  lemma StepCommit(mk: Maker, s: State, r: RequestId, told: bool)
    requires Inv(mk, s) && Enabled(s, Commit(r))
    ensures Inv(mk, AfterCommit(mk, s, r, told))
  {
    var tx := s.txs[r];
    var t := AfterCommit(mk, s, r, told);
    assert TxOk(s.tables, tx) && DrawnOk(s, tx);
    WrittenIsDeliver(mk, s.tables, tx);
    assert t.history[..|t.history| - 1] == s.history;
    CommitKeepsTxs(mk, s, t, r);
    RowIdsAfter(mk, s.tables, tx);
    if tx.WithOutbox? {
      InsertKeepsBijection(mk, s.tables, RecordOf(tx));
    }
    CommitAnswers(mk, s, r, told);
  }

  lemma CommitAnswers(mk: Maker, s: State, r: RequestId, told: bool)
    requires AnswersOk(s) && Enabled(s, Commit(r)) && TxOk(s.tables, s.txs[r])
    ensures AnswersOk(AfterCommit(mk, s, r, told))
  {
    var t := AfterCommit(mk, s, r, told);
    forall k: Key ensures t.answered[k] + t.unanswered[k] == if k in t.tables.notes then 1 else 0 {
      assert s.answered[k] + s.unanswered[k] == if k in s.tables.notes then 1 else 0;
    }
  }

  lemma StepInv(mk: Maker, s: State, e: Event)
    requires Inv(mk, s) && Enabled(s, e)
    ensures Inv(mk, Apply(mk, s, e))
  {
    match e
    case Commit(r) => StepCommit(mk, s, r, true);
    case CommitAckLost(r) => StepCommit(mk, s, r, false);
    case Abort(r) => StepAbort(mk, s, r);
    case _ => StepOpen(mk, s, e);
  }

  lemma {:induction false} RunInv(mk: Maker, s: State, es: seq<Event>)
    requires Inv(mk, s) && ValidRun(mk, s, es)
    ensures Inv(mk, Run(mk, s, es))
    decreases |es|
  {
    if es != [] {
      StepInv(mk, s, es[0]);
      RunInv(mk, Apply(mk, s, es[0]), es[1..]);
    }
  }

  lemma ReachableInv(mk: Maker, s: State)
    requires Reachable(mk, s)
    ensures Inv(mk, s)
  {
    var es :| ValidRun(mk, Init, es) && Run(mk, Init, es) == s;
    InitInv(mk);
    RunInv(mk, Init, es);
  }

  // ---- one citizen id, one person ----

  /** An id that a transaction has inserted for a citizen, not yet committed. */
  ghost predicate Holds(tx: Tx, cid: Uuid) {
    !tx.Begun? && tx.created && tx.drawn == cid
  }

  /** No citizen id is in two hands: every one is taken, no two fingerprints have the same, and those of open
      transactions are nobody else's. */
  ghost predicate PeopleOk(s: State) {
    && (forall a {:trigger s.tables.citizens[a]} | a in s.tables.citizens :: s.tables.citizens[a] in s.used)
    && (forall a, b {:trigger s.tables.citizens[a], s.tables.citizens[b]} |
          a in s.tables.citizens && b in s.tables.citizens && s.tables.citizens[a] == s.tables.citizens[b] :: a == b)
    && (forall r {:trigger s.txs[r]} | r in s.txs && !s.txs[r].Begun? && s.txs[r].created ::
          s.txs[r].citizen == s.txs[r].drawn && s.txs[r].drawn in s.used
          && forall a {:trigger s.tables.citizens[a]} | a in s.tables.citizens ::
               s.tables.citizens[a] != s.txs[r].drawn)
    && (forall q, r {:trigger s.txs[q], s.txs[r]} | q in s.txs && r in s.txs && q != r
          && !s.txs[r].Begun? && s.txs[r].created :: !Holds(s.txs[q], s.txs[r].drawn))
  }

  lemma PeopleStep(mk: Maker, s: State, e: Event)
    requires PeopleOk(s) && Enabled(s, e)
    ensures PeopleOk(Apply(mk, s, e))
  {
    if e.Commit? || e.CommitAckLost? {
      PeopleCommit(mk, s, e.r, e.Commit?);
    }
  }

  lemma PeopleCommit(mk: Maker, s: State, r: RequestId, told: bool)
    requires PeopleOk(s) && r in s.txs && (s.txs[r].WithOutbox? || s.txs[r].AsDuplicate?)
    ensures PeopleOk(AfterCommit(mk, s, r, told))
  {
    var t := AfterCommit(mk, s, r, told);
    var tx := s.txs[r];
    assert t.tables.citizens ==
           if tx.created then s.tables.citizens[tx.d.fingerprint := tx.citizen] else s.tables.citizens;
    forall q | q in t.txs && !t.txs[q].Begun? && t.txs[q].created
      ensures forall a | a in t.tables.citizens :: t.tables.citizens[a] != t.txs[q].drawn
    {
      assert t.txs[q] == s.txs[q] && q != r;
      assert !Holds(s.txs[r], s.txs[q].drawn);
    }
  }

  lemma {:induction false} PeopleRun(mk: Maker, s: State, es: seq<Event>)
    requires PeopleOk(s) && ValidRun(mk, s, es)
    ensures PeopleOk(Run(mk, s, es))
    decreases |es|
  {
    if es != [] {
      PeopleStep(mk, s, es[0]);
      PeopleRun(mk, Apply(mk, s, es[0]), es[1..]);
    }
  }
}
