/** internal/webhook/service.go over internal/repo/webhook.go: one webhook request, run against any number of
    others. */
module Services {
  import opened Wrappers
  import opened Uuids
  import opened Messages
  import opened EventPayloads
  import opened Persist
  import PersistTheorems
  import PersistProofs

  /** The uncommitted rows of one transaction. */
  datatype Writes = Writes(
    citizen: Option<(Fingerprint, Uuid)>,
    note: Option<(Key, Note)>,
    entry: Option<(Uuid, Entry)>)

  function WritesOf(mk: Maker, tx: Tx): Writes {
    Writes(
      if !tx.Begun? && tx.created then Some((tx.d.fingerprint, tx.citizen)) else None,
      if tx.WithNote? || tx.WithOutbox? then
        Some((tx.d.key, NoteOf(mk, Record(tx.d, tx.at, tx.citizen, tx.nid, 0, 0), tx.citizen)))
      else None,
      if tx.WithOutbox? then Some((tx.oid, EntryOf(mk, RecordOf(tx), tx.citizen))) else None)
  }

  /** COMMIT makes the uncommitted rows part of the tables. */
  function AddWrites(t: Tables, w: Writes): Tables {
    Tables(
      if w.citizen.Some? then t.citizens[w.citizen.value.0 := w.citizen.value.1] else t.citizens,
      if w.note.Some? then t.notes[w.note.value.0 := w.note.value.1] else t.notes,
      if w.entry.Some? then t.outbox[w.entry.value.0 := w.entry.value.1] else t.outbox)
  }

  lemma AddWritesIsWritten(mk: Maker, t: Tables, tx: Tx)
    requires tx.WithOutbox? || tx.AsDuplicate?
    ensures AddWrites(t, WritesOf(mk, tx)) == Written(mk, t, tx)
  {
  }

  ghost predicate ByOthers(es: seq<Event>, r: RequestId) {
    forall i | 0 <= i < |es| :: es[i].r != r
  }

  /** The steps of a run that are request r's. */
  function Own(es: seq<Event>, r: RequestId): seq<Event> {
    if es == [] then []
    else
      var last := es[|es| - 1];
      Own(es[..|es| - 1], r) + (if last.r == r then [last] else [])
  }

  lemma {:induction false} OwnAppend(a: seq<Event>, b: seq<Event>, r: RequestId)
    ensures Own(a + b, r) == Own(a, r) + Own(b, r)
    decreases |b|
  {
    if b == [] {
      assert a + b == a;
    } else {
      assert (a + b)[..|a + b| - 1] == a + b[..|b| - 1];
      OwnAppend(a, b[..|b| - 1], r);
    }
  }

  lemma {:induction false} OwnOfOthers(es: seq<Event>, r: RequestId)
    requires ByOthers(es, r)
    ensures Own(es, r) == []
    decreases |es|
  {
    if es != [] {
      OwnOfOthers(es[..|es| - 1], r);
    }
  }

  lemma OwnStep(before: seq<Event>, e: Event, r: RequestId)
    requires ByOthers(before, r) && e.r == r
    ensures Own(before + [e], r) == [e]
  {
    assert (before + [e])[..|before|] == before;
    OwnOfOthers(before, r);
  }

  /** The statements of a transaction in order; the outbox row is written exactly when the notification was. */
  predicate Statements(own: seq<Event>, inserted: bool) {
    && |own| == (if inserted then 3 else 2)
    && own[0].EnsureCitizen? && own[1].InsertNote? && (inserted ==> own[2].InsertOutbox?)
  }

  /** A whole transaction, committed and acknowledged. */
  predicate WholeTransaction(own: seq<Event>, r: RequestId, d: Delivery, now: int, inserted: bool) {
    && |own| >= 2 && own[0] == Start(r, d, now) && own[|own| - 1] == Event.Commit(r)
    && Statements(own[1..|own| - 1], inserted)
  }

  lemma ThreeParts(statements: seq<Event>, r: RequestId, d: Delivery, now: int, inserted: bool)
    requires Statements(statements, inserted)
    ensures WholeTransaction([Start(r, d, now)] + (statements + [Event.Commit(r)]), r, d, now, inserted)
  {
    var own := [Start(r, d, now)] + (statements + [Event.Commit(r)]);
    assert own[1..|own| - 1] == statements;
  }

  predicate IsStatement(e: Event) {
    e.EnsureCitizen? || e.InsertNote? || e.InsertOutbox?
  }

  predicate AllStatements(own: seq<Event>) {
    forall i | 0 <= i < |own| :: IsStatement(own[i])
  }

  /** A transaction's steps after its beginning when it fails: statements, then a rollback or an unheard commit. */
  predicate BrokenOff(own: seq<Event>, r: RequestId) {
    && own != [] && (own[|own| - 1] == Abort(r) || own[|own| - 1] == CommitAckLost(r))
    && AllStatements(own[..|own| - 1])
  }

  /** A transaction that failed: never begun, or broken off. */
  predicate FailedTransaction(own: seq<Event>, r: RequestId, d: Delivery, now: int) {
    own == [] || (own[0] == Start(r, d, now) && BrokenOff(own[1..], r))
  }

  lemma StatementsAre(own: seq<Event>, inserted: bool)
    requires Statements(own, inserted)
    ensures AllStatements(own)
  {
  }

  lemma OutboxLast(two: seq<Event>, last: seq<Event>)
    requires |two| == 2 && two[0].EnsureCitizen? && two[1].InsertNote?
    ensures last == [] ==> AllStatements(two + last)
    ensures |last| == 1 && last[0].InsertOutbox? ==> Statements(two + last, true)
  {
  }

  lemma BreaksOff(statements: seq<Event>, last: Event, r: RequestId)
    requires AllStatements(statements) && (last == Abort(r) || last == CommitAckLost(r))
    ensures BrokenOff(statements + [last], r)
  {
    assert (statements + [last])[..|statements|] == statements;
  }

  lemma StartsAndFails(own: seq<Event>, r: RequestId, d: Delivery, now: int)
    requires BrokenOff(own, r)
    ensures FailedTransaction([Start(r, d, now)] + own, r, d, now)
  {
    assert ([Start(r, d, now)] + own)[1..] == own;
  }

  /** A failed transaction has neither committed to its sender's knowledge nor left itself open. */
  lemma FailedIsUnanswered(own: seq<Event>, r: RequestId, d: Delivery, now: int)
    requires FailedTransaction(own, r, d, now)
    ensures Event.Commit(r) !in own
    ensures own != [] ==> Abort(r) in own || CommitAckLost(r) in own
  {
    if own != [] {
      var rest := own[1..];
      forall i | 0 <= i < |own| ensures own[i] != Event.Commit(r) {
        if 0 < i < |own| - 1 { assert own[i] == rest[..|rest| - 1][i - 1]; }
        if 0 < i { assert own[i] == rest[i - 1]; }
      }
      assert own[|own| - 1] == rest[|rest| - 1];
    }
  }

  /** What a transaction has found stays so while others run: keys and citizens are only added. */
  lemma OthersLeaveTx(mk: Maker, s: State, r: RequestId)
    requires Reachable(mk, s) && r in s.txs
    ensures TxOk(s.tables, s.txs[r])
  {
    PersistProofs.ReachableInv(mk, s);
  }

  /** A transaction before and after its INSERT INTO event_outbox. */
  ghost predicate Outboxed(before: Tx, after: Tx) {
    && before.WithNote? && after.WithOutbox?
    && after.d == before.d && after.at == before.at && after.nid == before.nid
  }

  /** The rows a committed new delivery leaves. */
  ghost predicate Stored(mk: Maker, t: Tables, d: Delivery, at: int, nid: Uuid, oid: Uuid, builtAt: int) {
    && d.fingerprint in t.citizens && d.key in t.notes && oid in t.outbox
    && t.notes[d.key] == Note(nid, t.citizens[d.fingerprint], mk.content(d.event), at)
    && t.outbox[oid] == Entry(t.citizens[d.fingerprint], nid, mk.payload(nid, d.event, builtAt), at)
  }

  /** Those rows, as steps `own` of a request that inserted have identified them. */
  ghost predicate StoredBy(mk: Maker, t: Tables, d: Delivery, at: int, own: seq<Event>) {
    && |own| == 5 && own[2].InsertNote? && own[3].InsertOutbox?
    && Stored(mk, t, d, at, own[2].nid, own[3].oid, own[3].builtAt)
  }

  /** COMMIT leaves them. */
  lemma WrittenIsStored(mk: Maker, t: Tables, tx: Tx)
    requires tx.WithOutbox? && TxOk(t, tx)
    ensures Stored(mk, Written(mk, t, tx), tx.d, tx.at, tx.nid, tx.oid, tx.builtAt)
  {
  }

  class Store {
    const mk: Maker
    var citizens: map<Fingerprint, Uuid>
    var notes: map<Key, Note>
    var outbox: map<Uuid, Entry>
    var writes: map<RequestId, Writes>
    var drawn: set<Uuid>
    ghost var txs: map<RequestId, Tx>
    ghost var history: seq<Record>
    ghost var answered: multiset<Key>
    ghost var unanswered: multiset<Key>
    /** A history: the statements that have failed. */
    ghost var faults: nat

    ghost function View(): State
      reads this
    {
      State(Tables(citizens, notes, outbox), txs, drawn, history, answered, unanswered)
    }

    /** The uncommitted rows are those of the requests' progress. */
    ghost predicate WritesOk()
      reads this
    {
      writes.Keys == txs.Keys && forall r {:trigger txs[r]} | r in txs :: writes[r] == WritesOf(mk, txs[r])
    }

    ghost predicate Valid()
      reads this
    {
      Reachable(mk, View()) && WritesOk()
    }

    /** Any run of the other requests. The body does the least. */
    method Interfere(ghost r: RequestId) returns (ghost es: seq<Event>)
      requires Valid()
      modifies this
      ensures Valid()
      ensures ByOthers(es, r) && ValidRun(mk, old(View()), es) && View() == Run(mk, old(View()), es)
      ensures r in txs <==> r in old(txs)
      ensures r in txs ==> txs[r] == old(txs)[r]
      ensures faults == old(faults)
    {
      es := [];
    }

    /** A statement of request r fails: only others have stepped. */
    ghost method Fault(r: RequestId, before: seq<Event>) returns (es: seq<Event>)
      requires ByOthers(before, r)
      modifies this`faults
      ensures faults == old(faults) + 1 && es == before && Own(es, r) == []
    {
      faults, es := faults + 1, before;
      OwnOfOthers(before, r);
    }

    /** Appends the step just taken to the run so far. */
    ghost method Step(start: State, mid: State, before: seq<Event>, e: Event) returns (es: seq<Event>)
      requires Reachable(mk, mid) && ValidRun(mk, start, before) && Run(mk, start, before) == mid
      requires Enabled(mid, e) && View() == Apply(mk, mid, e)
      ensures es == before + [e] && ValidRun(mk, start, es) && Run(mk, start, es) == View()
      ensures Reachable(mk, View())
      ensures ByOthers(before, e.r) ==> Own(es, e.r) == [e]
    {
      es := before + [e];
      ReachableStep(mk, mid, e);
      RunAppend(mk, start, before, [e]);
      if ByOthers(before, e.r) { OwnStep(before, e, e.r); }
    }

    /** gen_random_uuid(): a repeated identifier would violate a primary key. */
    method DrawId() returns (err: bool, id: Uuid)
      ensures !err ==> id !in drawn
    {
      id := *;
      err := id in drawn;
    }

    method Begin(r: RequestId, ghost d: Delivery, now: int) returns (err: bool, ghost es: seq<Event>)
      requires Valid() && r !in txs
      modifies this
      ensures Valid() && ValidRun(mk, old(View()), es) && View() == Run(mk, old(View()), es)
      ensures if err then r !in txs else r in txs && txs[r] == Begun(d, now)
      ensures Own(es, r) == if err then [] else [Start(r, d, now)]
      ensures faults == old(faults) + if err then 1 else 0
    {
      es := Interfere(r);
      err := *;
      if err {
        es := Fault(r, es);
      } else {
        ghost var mid := View();
        writes := writes[r := Writes(None, None, None)];
        txs := txs[r := Begun(d, now)];
        es := Step(old(View()), mid, es, Start(r, d, now));
      }
    }

    /** INSERT INTO citizens ... ON CONFLICT DO NOTHING, then SELECT id. While another open transaction holds the
        fingerprint the statement waits; it fails if it is given up. */
    method EnsureCitizenID(r: RequestId, fingerprint: Fingerprint)
      returns (err: bool, id: Uuid, ghost draw: Uuid, ghost es: seq<Event>)
      requires Valid() && r in txs && txs[r].Begun? && txs[r].d.fingerprint == fingerprint
      modifies this
      ensures Valid() && ValidRun(mk, old(View()), es) && View() == Run(mk, old(View()), es)
      ensures r in txs && txs[r].d == old(txs)[r].d && txs[r].at == old(txs)[r].at
      ensures if err then txs[r] == old(txs)[r] else txs[r].WithCitizen? && txs[r].citizen == id
      ensures !err ==> id == if fingerprint in citizens then citizens[fingerprint] else draw
      ensures Own(es, r) == if err then [] else [EnsureCitizen(r, draw)]
      ensures faults == old(faults) + if err then 1 else 0
    {
      es := Interfere(r);
      ghost var mid := View();
      err, id, draw := *, 0, 0;
      if !err {
        err, id, draw := FindOrStageCitizen(r, fingerprint);
      }
      if err {
        es := Fault(r, es);
      } else {
        es := Step(old(View()), mid, es, EnsureCitizen(r, draw));
      }
    }

    /** The statement itself: the row that is there, or a new one, unless another transaction holds the key. An id is
        drawn in either case, as the column's default, and used only for a new row. */
    method FindOrStageCitizen(r: RequestId, fingerprint: Fingerprint) returns (err: bool, id: Uuid, ghost draw: Uuid)
      requires WritesOk() && r in txs && txs[r].Begun? && txs[r].d.fingerprint == fingerprint
      modifies this`drawn, this`writes, this`txs
      ensures err ==> View() == old(View()) && WritesOk()
      ensures !err ==> WritesOk() && Enabled(old(View()), EnsureCitizen(r, draw))
                       && View() == AfterEnsure(old(View()), r, draw)
      ensures !err ==> txs[r].WithCitizen? && txs[r].citizen == id
      ensures !err ==> id == if fingerprint in citizens then citizens[fingerprint] else draw
    {
      draw := 0;
      if fingerprint in citizens {
        var unused: Uuid := *;
        err, id, draw := false, citizens[fingerprint], unused;
        txs := txs[r := WithCitizen(txs[r].d, txs[r].at, id, false, unused)];
      } else if exists q :: q in writes && q != r && writes[q].citizen.Some?
                            && writes[q].citizen.value.0 == fingerprint {
        err, id := true, 0;
      } else {
        err, id := DrawId();
        draw := id;
        if !err {
          NobodyHoldsCitizen(r, fingerprint);
          StageCitizen(r, fingerprint, id);
        }
      }
    }

    lemma NobodyHoldsCitizen(r: RequestId, fingerprint: Fingerprint)
      requires WritesOk()
      requires !exists q :: q in writes && q != r && writes[q].citizen.Some? && writes[q].citizen.value.0 == fingerprint
      ensures forall q | q in txs && q != r :: !HoldsCitizen(txs[q], fingerprint)
    {
      forall q | q in txs && q != r ensures !HoldsCitizen(txs[q], fingerprint) {
        assert writes[q] == WritesOf(mk, txs[q]);
      }
    }

    method StageCitizen(r: RequestId, fingerprint: Fingerprint, id: Uuid)
      requires WritesOk() && r in txs && txs[r].Begun? && fingerprint == txs[r].d.fingerprint
      requires fingerprint !in citizens
      modifies this`drawn, this`writes, this`txs
      ensures WritesOk() && View() == AfterEnsure(old(View()), r, id)
    {
      drawn := drawn + {id};
      writes := writes[r := writes[r].(citizen := Some((fingerprint, id)))];
      txs := txs[r := WithCitizen(txs[r].d, txs[r].at, id, true, id)];
    }

    /** INSERT INTO notifications ... ON CONFLICT (idempotency_key) DO NOTHING RETURNING id. */
    method InsertNotification(r: RequestId, key: Key, citizen: Uuid, content: Content, now: int)
      returns (err: bool, inserted: bool, nid: Uuid, ghost es: seq<Event>)
      requires Valid() && r in txs && txs[r].WithCitizen? && txs[r].citizen == citizen
      requires key == txs[r].d.key && content == mk.content(txs[r].d.event) && now == txs[r].at
      modifies this
      ensures Valid() && ValidRun(mk, old(View()), es) && View() == Run(mk, old(View()), es)
      ensures r in txs && txs[r].d == old(txs)[r].d && txs[r].at == old(txs)[r].at
      ensures if err then txs[r] == old(txs)[r]
              else if inserted then txs[r].WithNote? && txs[r].citizen == citizen && txs[r].nid == nid
              else txs[r].AsDuplicate? && txs[r].citizen == citizen
      ensures Own(es, r) == if err then [] else [InsertNote(r, nid)]
      ensures faults == old(faults) + if err then 1 else 0
    {
      es := Interfere(r);
      ghost var mid := View();
      err, inserted, nid := *, false, 0;
      if !err {
        err, inserted, nid := FindOrStageNote(r, key, citizen, content, now);
      }
      if err {
        es := Fault(r, es);
      } else {
        es := Step(old(View()), mid, es, InsertNote(r, nid));
      }
    }

    method FindOrStageNote(r: RequestId, key: Key, citizen: Uuid, content: Content, now: int)
      returns (err: bool, inserted: bool, nid: Uuid)
      requires WritesOk() && r in txs && txs[r].WithCitizen? && txs[r].citizen == citizen
      requires key == txs[r].d.key && content == mk.content(txs[r].d.event) && now == txs[r].at
      modifies this`drawn, this`writes, this`txs
      ensures err ==> View() == old(View()) && WritesOk()
      ensures !err ==> WritesOk() && Enabled(old(View()), InsertNote(r, nid))
                       && View() == AfterInsertNote(old(View()), r, nid)
      ensures !err ==> inserted == (key !in notes)
    {
      inserted, nid := false, 0;
      if key in notes {
        err := false;
        ghost var tx := txs[r];
        txs := txs[r := AsDuplicate(tx.d, tx.at, tx.citizen, tx.created, tx.drawn)];
      } else if exists q :: q in writes && q != r && writes[q].note.Some? && writes[q].note.value.0 == key {
        err := true;
      } else {
        err, nid := DrawId();
        if !err {
          NobodyHoldsKey(r, key);
          inserted := true;
          StageNote(r, key, Note(nid, citizen, content, now));
        }
      }
    }

    lemma NobodyHoldsKey(r: RequestId, key: Key)
      requires WritesOk()
      requires !exists q :: q in writes && q != r && writes[q].note.Some? && writes[q].note.value.0 == key
      ensures forall q | q in txs && q != r :: !HoldsKey(txs[q], key)
    {
      forall q | q in txs && q != r ensures !HoldsKey(txs[q], key) {
        assert writes[q] == WritesOf(mk, txs[q]);
      }
    }

    method StageNote(r: RequestId, key: Key, note: Note)
      requires WritesOk() && r in txs && txs[r].WithCitizen? && key == txs[r].d.key && key !in notes
      requires note == Note(note.id, txs[r].citizen, mk.content(txs[r].d.event), txs[r].at)
      modifies this`drawn, this`writes, this`txs
      ensures WritesOk() && View() == AfterInsertNote(old(View()), r, note.id)
    {
      ghost var tx := txs[r];
      drawn := drawn + {note.id};
      writes := writes[r := writes[r].(note := Some((key, note)))];
      txs := txs[r := WithNote(tx.d, tx.at, tx.citizen, tx.created, tx.drawn, note.id)];
    }

    /** INSERT INTO event_outbox. */
    method InsertOutbox(r: RequestId, citizen: Uuid, nid: Uuid, payload: Payload, now: int, ghost builtAt: int)
      returns (err: bool, ghost es: seq<Event>)
      requires Valid() && r in txs && txs[r].WithNote? && txs[r].citizen == citizen && txs[r].nid == nid
      requires payload == mk.payload(nid, txs[r].d.event, builtAt) && now == txs[r].at
      modifies this
      ensures Valid() && ValidRun(mk, old(View()), es) && View() == Run(mk, old(View()), es)
      ensures r in txs && txs[r].d == old(txs)[r].d
      ensures if err then txs[r] == old(txs)[r] else Outboxed(old(txs)[r], txs[r]) && txs[r].builtAt == builtAt
      ensures Own(es, r) == if err then [] else [Event.InsertOutbox(r, txs[r].oid, builtAt)]
      ensures faults == old(faults) + if err then 1 else 0
    {
      es := Interfere(r);
      var oid;
      err, oid := DrawId();
      var failed: bool := *;
      err := err || failed;
      if err {
        es := Fault(r, es);
      } else {
        ghost var mid := View();
        StageEntry(r, oid, Entry(citizen, nid, payload, now), builtAt);
        es := Step(old(View()), mid, es, Event.InsertOutbox(r, oid, builtAt));
      }
    }

    method StageEntry(r: RequestId, oid: Uuid, entry: Entry, ghost builtAt: int)
      requires WritesOk() && r in txs && txs[r].WithNote? && oid !in drawn
      requires var tx := txs[r]; entry == Entry(tx.citizen, tx.nid, mk.payload(tx.nid, tx.d.event, builtAt), tx.at)
      modifies this`drawn, this`writes, this`txs
      ensures WritesOk() && Enabled(old(View()), Event.InsertOutbox(r, oid, builtAt))
      ensures View() == Apply(mk, old(View()), Event.InsertOutbox(r, oid, builtAt))
      ensures r in txs && Outboxed(old(txs)[r], txs[r]) && txs[r].oid == oid && txs[r].builtAt == builtAt
    {
      ghost var tx := txs[r];
      drawn := drawn + {oid};
      writes := writes[r := writes[r].(entry := Some((oid, entry)))];
      txs := txs[r := WithOutbox(tx.d, tx.at, tx.citizen, tx.created, tx.drawn, tx.nid, oid, builtAt)];
    }

    /** COMMIT: done and acknowledged, done with the acknowledgement lost, or not done. */
    method Commit(r: RequestId) returns (err: bool, ghost es: seq<Event>)
      requires Valid() && r in txs && (txs[r].WithOutbox? || txs[r].AsDuplicate?)
      modifies this
      ensures Valid() && ValidRun(mk, old(View()), es) && View() == Run(mk, old(View()), es)
      ensures !err ==> r !in txs && old(txs)[r].d.key in notes
      ensures !err && old(txs)[r].WithOutbox? ==>
                var tx := old(txs)[r];
                answered[tx.d.key] == 1 && Stored(mk, View().tables, tx.d, tx.at, tx.nid, tx.oid, tx.builtAt)
      ensures !err ==> Own(es, r) == [Event.Commit(r)]
      ensures err ==> Own(es, r) == if r in txs then [] else [CommitAckLost(r)]
      ensures faults == old(faults) + if err then 1 else 0
    {
      es := Interfere(r);
      var committed: bool := *;
      err := true;
      if !committed {
        es := Fault(r, es);
      } else {
        err, es := Finish(r, old(View()), es);
      }
    }

    /** The commit takes effect; the request may not hear of it. */
    method Finish(r: RequestId, ghost start: State, ghost before: seq<Event>) returns (err: bool, ghost es: seq<Event>)
      requires Valid() && r in txs && (txs[r].WithOutbox? || txs[r].AsDuplicate?)
      requires ByOthers(before, r) && ValidRun(mk, start, before) && View() == Run(mk, start, before)
      modifies this
      ensures Valid() && r !in txs && ValidRun(mk, start, es) && View() == Run(mk, start, es)
      ensures !err ==> old(txs)[r].d.key in notes
      ensures !err && old(txs)[r].WithOutbox? ==>
                var tx := old(txs)[r];
                answered[tx.d.key] == 1 && Stored(mk, View().tables, tx.d, tx.at, tx.nid, tx.oid, tx.builtAt)
      ensures Own(es, r) == [if err then CommitAckLost(r) else Event.Commit(r)]
      ensures faults == old(faults) + if err then 1 else 0
    {
      ghost var mid := View();
      ghost var tx := txs[r];
      err := *;
      if err { faults := faults + 1; }
      OthersLeaveTx(mk, mid, r);
      if tx.WithOutbox? { WrittenIsStored(mk, mid.tables, tx); }
      MakeDurable(r, !err);
      es := Step(start, mid, before, if err then CommitAckLost(r) else Event.Commit(r));
      PersistTheorems.AnsweredAtMostOnce(mk, View(), tx.d.key);
    }

    method MakeDurable(r: RequestId, ghost told: bool)
      requires WritesOk() && r in txs && (txs[r].WithOutbox? || txs[r].AsDuplicate?)
      modifies this`citizens, this`notes, this`outbox, this`writes, this`txs
      modifies this`history, this`answered, this`unanswered
      ensures WritesOk() && View() == AfterCommit(mk, old(View()), r, told)
    {
      ghost var tx := txs[r];
      AddWritesIsWritten(mk, View().tables, tx);
      var t := AddWrites(Tables(citizens, notes, outbox), writes[r]);
      citizens, notes, outbox := t.citizens, t.notes, t.outbox;
      Forget(r);
      Report(tx, told);
    }

    /** The histories of a commit. */
    ghost method Report(tx: Tx, told: bool)
      requires tx.WithOutbox? || tx.AsDuplicate?
      modifies this`history, this`answered, this`unanswered
      ensures history == old(history) + [RecordOf(tx)]
      ensures var inserted := if tx.WithOutbox? then multiset{tx.d.key} else multiset{};
              && answered == (if told then old(answered) + inserted else old(answered))
              && unanswered == if told then old(unanswered) else old(unanswered) + inserted
    {
      history := history + [RecordOf(tx)];
      var inserted := if tx.WithOutbox? then multiset{tx.d.key} else multiset{};
      if told {
        answered := answered + inserted;
      } else {
        unanswered := unanswered + inserted;
      }
    }

    /** The transaction is over. */
    method Forget(r: RequestId)
      requires WritesOk()
      modifies this`writes, this`txs
      ensures WritesOk() && txs == old(txs) - {r} && r !in txs
    {
      writes := writes - {r};
      txs := txs - {r};
    }

    /** ROLLBACK, which does nothing once the transaction is over. */
    method Rollback(r: RequestId) returns (ghost es: seq<Event>)
      requires Valid()
      modifies this
      ensures Valid() && ValidRun(mk, old(View()), es) && View() == Run(mk, old(View()), es)
      ensures r !in txs && faults == old(faults)
      ensures Own(es, r) == if r in old(txs) then [Abort(r)] else []
    {
      es := Interfere(r);
      OwnOfOthers(es, r);
      if r in writes {
        ghost var mid := View();
        Forget(r);
        es := Step(old(View()), mid, es, Abort(r));
      }
    }
  }

  /** An empty text is stored as NULL. */
  function NullIfEmpty(s: string): Option<string> {
    if s == "" then None else Some(s)
  }

  function ContentOf(read: TimeReader, p: EventPayload): Content {
    Content(p.chamadoId, p.titulo, p.descricao, NullIfEmpty(p.statusAnterior), NullIfEmpty(p.statusNovo),
            NullIfEmpty(p.tipo), read(p.timestamp))
  }

  /** A delivery of payload p: its event is p with the CPF trimmed to its eleven digits, its fingerprint the MAC of
      those digits, its key the digest of the four identifying fields. */
  ghost predicate Identifies(d: Delivery, p: EventPayload, mac: string -> Fingerprint, digest: string -> Key) {
    && d.event == p.(cpf := d.event.cpf) && Trims(p.cpf, d.event.cpf)
    && |d.event.cpf| == 11 && (forall i | 0 <= i < 11 :: '0' <= d.event.cpf[i] <= '9')
    && d.fingerprint == mac(d.event.cpf)
    && d.key == digest("v1|" + p.chamadoId + "|" + p.statusNovo + "|" + p.timestamp + "|" + p.tipo)
  }

  ghost predicate Injective(digest: string -> Key) {
    forall a, b | digest(a) == digest(b) :: a == b
  }

  /** Two valid payloads without a bar in chamado_id and status_novo get one key if and only if they agree in the four
      identifying fields, as long as the digest itself does not collide. */
  lemma KeysAgreeIff(read: TimeReader, mac: string -> Fingerprint, digest: string -> Key,
                     d: Delivery, p: EventPayload, e: Delivery, q: EventPayload)
    requires ReadsRfc3339(read) && Injective(digest)
    requires Validate(read, p).Some? && Identifies(d, p, mac, digest) && NoBar(p.chamadoId) && NoBar(p.statusNovo)
    requires Validate(read, q).Some? && Identifies(e, q, mac, digest) && NoBar(q.chamadoId) && NoBar(q.statusNovo)
    ensures d.key == e.key <==> p.chamadoId == q.chamadoId && p.statusNovo == q.statusNovo
                                && p.timestamp == q.timestamp && p.tipo == q.tipo
  {
    CanonicalInjective(read, p, q);
    assert d.key == digest(Canonical(p)) && e.key == digest(Canonical(q));
  }

  /** A notification row says what the payload says, an empty optional text as NULL. */
  ghost predicate NoteSays(n: Note, p: EventPayload, read: TimeReader) {
    && n.content.chamado == p.chamadoId && n.content.title == p.titulo && n.content.body == p.descricao
    && n.content.statusAnterior == (if p.statusAnterior == "" then None else Some(p.statusAnterior))
    && n.content.statusNovo == (if p.statusNovo == "" then None else Some(p.statusNovo))
    && n.content.eventType == (if p.tipo == "" then None else Some(p.tipo))
    && n.content.sourceTimestamp == read(p.timestamp)
  }

  /** So does the document of an outbox row, for the notification it names. */
  ghost predicate PayloadSays(m: Payload, nid: Uuid, builtAt: int, p: EventPayload, read: TimeReader) {
    && m.notification == nid && m.createdAt == builtAt
    && m.chamado == p.chamadoId && m.title == p.titulo && m.body == p.descricao
    && Trimmed(m.statusAnterior, p.statusAnterior) && Trimmed(m.statusNovo, p.statusNovo)
    && Trimmed(m.eventType, p.tipo) && m.sourceTimestamp == read(p.timestamp)
  }

  /** How the service makes its rows. */
  function MakerFor(read: TimeReader): Maker {
    Maker((p: EventPayload) => ContentOf(read, p),
          (nid: Uuid, p: EventPayload, now: int) => OutboxPayload(read, nid, p, now))
  }

  datatype Response = Accepted | Duplicate | TooLarge | Unauthorized | InvalidRequest | InternalError

  /** What reading the request's body, up to its limit, gave. */
  datatype Body = Text(text: string) | OverLimit | Unreadable

  /** A webhook_dlq row; an empty signature is stored as NULL. */
  datatype DeadLetter = DeadLetter(body: string, signature: Option<string>)

  class Service {
    const store: Store
    const read: TimeReader
    const verify: (string, string) -> bool
    const decode: string -> Option<EventPayload>
    const mac: string -> Fingerprint
    const digest: string -> Key
    var deadLetters: seq<DeadLetter>

    constructor (store: Store, read: TimeReader, verify: (string, string) -> bool,
                 decode: string -> Option<EventPayload>, mac: string -> Fingerprint, digest: string -> Key)
      ensures this.store == store && this.read == read && this.verify == verify && this.decode == decode
      ensures this.mac == mac && this.digest == digest && deadLetters == []
    {
      this.store, this.read, this.verify, this.decode := store, read, verify, decode;
      this.mac, this.digest, this.deadLetters := mac, digest, [];
    }

    ghost predicate Configured() {
      store.mk == MakerFor(read)
    }

    method MakeContent(p: EventPayload) returns (content: Content)
      requires Configured()
      ensures content == store.mk.content(p)
    {
      content := ContentOf(read, p);
    }

    method MakePayload(nid: Uuid, p: EventPayload, now: int) returns (payload: Payload)
      requires Configured()
      ensures payload == store.mk.payload(nid, p, now)
    {
      payload := OutboxPayload(read, nid, p, now);
    }

    /** The fingerprint and the idempotency key of a payload. */
    method MakeDelivery(p: EventPayload) returns (d: Delivery)
      ensures d.event == p && d.fingerprint == mac(p.cpf)
      ensures d.key == digest("v1|" + p.chamadoId + "|" + p.statusNovo + "|" + p.timestamp + "|" + p.tipo)
    {
      d := Delivery(mac(p.cpf), digest(Canonical(p)), p);
    }

    /** Read, authenticate, decode, validate, persist, answer; a failed persist keeps the raw request as a dead letter,
        best effort. `d` is the delivery the request's transaction starts with, if it gets that far. */
    method HandlePost(r: RequestId, body: Body, signature: string, now: int)
      returns (response: Response, ghost d: Delivery, ghost es: seq<Event>)
      requires Configured() && store.Valid() && r !in store.txs
      modifies this`deadLetters, store
      ensures store.Valid() && r !in store.txs
      ensures ValidRun(store.mk, old(store.View()), es) && store.View() == Run(store.mk, old(store.View()), es)
      ensures response.TooLarge? <==> body.OverLimit?
      ensures response.Unauthorized? <==> body.Text? && !verify(body.text, signature)
      ensures response.InvalidRequest? <==>
                || body.Unreadable?
                || (body.Text? && verify(body.text, signature)
                    && (decode(body.text).None? || Validate(read, decode(body.text).value).None?))
      ensures response.TooLarge? || response.Unauthorized? || response.InvalidRequest? ==>
                store.View() == old(store.View()) && es == []
      ensures response.Accepted? || response.Duplicate? || response.InternalError? ==>
                body.Text? && decode(body.text).Some? && Identifies(d, decode(body.text).value, mac, digest)
      ensures response.Accepted? || response.Duplicate? ==>
                WholeTransaction(Own(es, r), r, d, now, response.Accepted?) && d.key in store.notes
      ensures response.Accepted? ==>
                && store.answered[d.key] == 1
                && StoredBy(store.mk, store.View().tables, d, now, Own(es, r))
                && Told(store.View().tables, d.key, decode(body.text).value, Own(es, r))
      ensures response.InternalError? ==> FailedTransaction(Own(es, r), r, d, now)
      ensures store.faults == old(store.faults) + if response.InternalError? then 1 else 0
      ensures deadLetters == old(deadLetters)
              || (response.InternalError? && deadLetters == old(deadLetters) +
                    [DeadLetter(body.text, if signature == "" then None else Some(signature))])
    {
      es, d := [], *;
      if body.OverLimit? { return TooLarge, d, es; }
      if body.Unreadable? { return InvalidRequest, d, es; }
      if !verify(body.text, signature) { return Unauthorized, d, es; }
      var p := decode(body.text);
      if p.None? { return InvalidRequest, d, es; }
      var valid := Validate(read, p.value);
      if valid.None? { return InvalidRequest, d, es; }
      ValidateIff(read, p.value);
      response, d, es := Answer(r, valid.value, body.text, signature, now);
      if response.Accepted? { TellsRaw(store.View().tables, d.key, p.value, valid.value, Own(es, r)); }
    }

    /** What the rows of a new delivery say is what the payload says. */
    ghost predicate Told(t: Tables, key: Key, p: EventPayload, own: seq<Event>) {
      && |own| == 5 && own[2].InsertNote? && own[3].InsertOutbox? && key in t.notes && own[3].oid in t.outbox
      && t.notes[key].id == t.outbox[own[3].oid].notification == own[2].nid
      && NoteSays(t.notes[key], p, read)
      && PayloadSays(t.outbox[own[3].oid].payload, own[2].nid, own[3].builtAt, p, read)
    }

    lemma StoredIsTold(t: Tables, d: Delivery, at: int, own: seq<Event>)
      requires Configured() && StoredBy(store.mk, t, d, at, own)
      ensures Told(t, d.key, d.event, own)
    {
      OptionalIsTrimmed(d.event.statusAnterior);
      OptionalIsTrimmed(d.event.statusNovo);
      OptionalIsTrimmed(d.event.tipo);
    }

    /** No row holds the CPF, trimmed or not. */
    lemma TellsRaw(t: Tables, key: Key, p: EventPayload, v: EventPayload, own: seq<Event>)
      requires v == p.(cpf := v.cpf) && Told(t, key, v, own)
      ensures Told(t, key, p, own)
    {
    }

    method Answer(r: RequestId, p: EventPayload, body: string, signature: string, now: int)
      returns (response: Response, ghost d: Delivery, ghost es: seq<Event>)
      requires Configured() && store.Valid() && r !in store.txs && read(p.timestamp).Some?
      modifies this`deadLetters, store
      ensures store.Valid() && r !in store.txs
      ensures ValidRun(store.mk, old(store.View()), es) && store.View() == Run(store.mk, old(store.View()), es)
      ensures response.Accepted? || response.Duplicate? || response.InternalError?
      ensures d.event == p && d.fingerprint == mac(p.cpf)
      ensures d.key == digest("v1|" + p.chamadoId + "|" + p.statusNovo + "|" + p.timestamp + "|" + p.tipo)
      ensures !response.InternalError? ==>
                WholeTransaction(Own(es, r), r, d, now, response.Accepted?) && d.key in store.notes
      ensures response.Accepted? ==>
                && store.answered[d.key] == 1
                && StoredBy(store.mk, store.View().tables, d, now, Own(es, r))
                && Told(store.View().tables, d.key, p, Own(es, r))
      ensures response.InternalError? ==> FailedTransaction(Own(es, r), r, d, now)
      ensures store.faults == old(store.faults) + if response.InternalError? then 1 else 0
      ensures deadLetters == old(deadLetters)
              || (response.InternalError? && deadLetters == old(deadLetters) +
                    [DeadLetter(body, if signature == "" then None else Some(signature))])
    {
      var err, inserted;
      err, inserted, d, es := Persist(r, p, now);
      response := if err then InternalError else if inserted then Accepted else Duplicate;
      if !err && inserted { StoredIsTold(store.View().tables, d, now, Own(es, r)); }
      var kept: bool := *;
      if err && kept {
        deadLetters := deadLetters + [DeadLetter(body, NullIfEmpty(signature))];
      }
    }

    /** One transaction: citizen, notification, outbox row, commit; every error rolls back. */
    method Persist(r: RequestId, p: EventPayload, now: int)
      returns (err: bool, inserted: bool, ghost d: Delivery, ghost es: seq<Event>)
      requires Configured() && store.Valid() && r !in store.txs
      modifies store
      ensures store.Valid() && r !in store.txs
      ensures ValidRun(store.mk, old(store.View()), es) && store.View() == Run(store.mk, old(store.View()), es)
      ensures d.event == p && d.fingerprint == mac(p.cpf)
      ensures d.key == digest("v1|" + p.chamadoId + "|" + p.statusNovo + "|" + p.timestamp + "|" + p.tipo)
      ensures !err ==> d.key in store.notes
      ensures !err && inserted ==>
                store.answered[d.key] == 1 && StoredBy(store.mk, store.View().tables, d, now, Own(es, r))
      ensures if err then FailedTransaction(Own(es, r), r, d, now)
              else WholeTransaction(Own(es, r), r, d, now, inserted)
      ensures read(p.timestamp).Some? ==> store.faults == old(store.faults) + if err then 1 else 0
    {
      es, inserted := [], false;
      var delivery := MakeDelivery(p);
      d := delivery;
      if read(p.timestamp).None? { return true, false, d, es; }
      ghost var start := store.View();
      err, es := store.Begin(r, delivery, now);
      if !err {
        ghost var statements, more;
        err, inserted, statements, more := Complete(r, delivery, now);
        if err { StartsAndFails(Own(more, r), r, d, now); } else { ThreeParts(statements, r, d, now, inserted); }
        es := Join(start, es, more);
      }
    }

    /** The open transaction to its end: the statements and COMMIT, or ROLLBACK after whatever failed. */
    method Complete(r: RequestId, d: Delivery, now: int)
      returns (err: bool, inserted: bool, ghost statements: seq<Event>, ghost es: seq<Event>)
      requires Configured() && store.Valid() && r in store.txs && store.txs[r] == Begun(d, now)
      modifies store
      ensures store.Valid() && r !in store.txs
      ensures ValidRun(store.mk, old(store.View()), es) && store.View() == Run(store.mk, old(store.View()), es)
      ensures !err ==> d.key in store.notes && (inserted ==> store.answered[d.key] == 1)
      ensures !err && inserted ==>
                |statements| == 3 && statements[1].InsertNote? && statements[2].InsertOutbox?
                && Stored(store.mk, store.View().tables, d, now, statements[1].nid, statements[2].oid,
                          statements[2].builtAt)
      ensures if err then BrokenOff(Own(es, r), r)
              else Statements(statements, inserted) && Own(es, r) == statements + [Event.Commit(r)]
      ensures store.faults == old(store.faults) + if err then 1 else 0
    {
      ghost var start := store.View();
      err, inserted, es := Write(r, d, now);
      statements := Own(es, r);
      if !err { StatementsAre(statements, inserted); }
      ghost var more;
      if err {
        more := store.Rollback(r);
        BreaksOff(statements, Abort(r), r);
      } else {
        err, more := CommitOrRollback(r);
        if err { BreaksOff(statements, Own(more, r)[0], r); }
      }
      es := Join(start, es, more);
    }

    /** COMMIT, and the deferred ROLLBACK, which has an effect only if nothing was committed. */
    method CommitOrRollback(r: RequestId) returns (err: bool, ghost es: seq<Event>)
      requires store.Valid() && r in store.txs && (store.txs[r].WithOutbox? || store.txs[r].AsDuplicate?)
      modifies store
      ensures store.Valid() && r !in store.txs
      ensures ValidRun(store.mk, old(store.View()), es) && store.View() == Run(store.mk, old(store.View()), es)
      ensures !err ==> old(store.txs)[r].d.key in store.notes
      ensures !err && old(store.txs)[r].WithOutbox? ==>
                var tx := old(store.txs)[r];
                && store.answered[tx.d.key] == 1
                && Stored(store.mk, store.View().tables, tx.d, tx.at, tx.nid, tx.oid, tx.builtAt)
      ensures if err then Own(es, r) == [Abort(r)] || Own(es, r) == [CommitAckLost(r)]
              else Own(es, r) == [Event.Commit(r)]
      ensures store.faults == old(store.faults) + if err then 1 else 0
    {
      ghost var start := store.View();
      err, es := store.Commit(r);
      if err {
        ghost var more := store.Rollback(r);
        es := Join(start, es, more);
      }
    }

    /** The citizen first, then the notification, unless its key is taken. */
    method InsertNotificationIdempotent(r: RequestId, d: Delivery, now: int)
      returns (err: bool, inserted: bool, citizen: Uuid, nid: Uuid, ghost es: seq<Event>)
      requires Configured() && store.Valid() && r in store.txs && store.txs[r] == Begun(d, now)
      modifies store
      ensures store.Valid() && r in store.txs && store.txs[r].d == d && store.txs[r].at == now
      ensures ValidRun(store.mk, old(store.View()), es) && store.View() == Run(store.mk, old(store.View()), es)
      ensures !err ==> var tx := store.txs[r];
                       if inserted then tx.WithNote? && tx.citizen == citizen && tx.nid == nid else tx.AsDuplicate?
      ensures if err then AllStatements(Own(es, r))
              else |Own(es, r)| == 2 && Own(es, r)[0].EnsureCitizen? && Own(es, r)[1] == InsertNote(r, nid)
      ensures store.faults == old(store.faults) + if err then 1 else 0
    {
      ghost var start := store.View();
      inserted, nid := false, 0;
      ghost var draw;
      err, citizen, draw, es := store.EnsureCitizenID(r, d.fingerprint);
      if !err {
        ghost var more;
        var content := MakeContent(d.event);
        err, inserted, nid, more := store.InsertNotification(r, d.key, citizen, content, now);
        es := Join(start, es, more);
      }
    }

    /** The statements between BEGIN and COMMIT. */
    method Write(r: RequestId, d: Delivery, now: int) returns (err: bool, inserted: bool, ghost es: seq<Event>)
      requires Configured() && store.Valid() && r in store.txs && store.txs[r] == Begun(d, now)
      modifies store
      ensures store.Valid() && r in store.txs && store.txs[r].d == d
      ensures ValidRun(store.mk, old(store.View()), es) && store.View() == Run(store.mk, old(store.View()), es)
      ensures !err ==> if inserted then store.txs[r].WithOutbox? else store.txs[r].AsDuplicate?
      ensures if err then AllStatements(Own(es, r)) else Statements(Own(es, r), inserted)
      ensures !err && inserted ==>
                var tx, own := store.txs[r], Own(es, r);
                tx.at == now && tx.nid == own[1].nid && tx.oid == own[2].oid && tx.builtAt == own[2].builtAt
      ensures store.faults == old(store.faults) + if err then 1 else 0
    {
      ghost var start := store.View();
      var citizen, nid;
      err, inserted, citizen, nid, es := InsertNotificationIdempotent(r, d, now);
      if !err && inserted {
        ghost var more;
        var builtAt: int := *;
        var payload := MakePayload(nid, d.event, builtAt);
        err, more := store.InsertOutbox(r, citizen, nid, payload, now, builtAt);
        OutboxLast(Own(es, r), Own(more, r));
        es := Join(start, es, more);
      }
    }

    /** Two runs, one after the other. */
    ghost method Join(start: State, before: seq<Event>, more: seq<Event>) returns (es: seq<Event>)
      requires ValidRun(store.mk, start, before) && ValidRun(store.mk, Run(store.mk, start, before), more)
      ensures es == before + more && ValidRun(store.mk, start, es)
      ensures Run(store.mk, start, es) == Run(store.mk, Run(store.mk, start, before), more)
      ensures forall r :: Own(es, r) == Own(before, r) + Own(more, r)
    {
      es := before + more;
      forall r ensures Own(es, r) == Own(before, r) + Own(more, r) { OwnAppend(before, more, r); }
      RunAppend(store.mk, start, before, more);
    }
  }
}
