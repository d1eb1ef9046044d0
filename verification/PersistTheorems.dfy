/** What concurrent webhook deliveries leave behind, and what their senders are told. */
module PersistTheorems {
  import opened Wrappers
  import opened Uuids
  import opened EventPayloads
  import opened Persist
  import PersistProofs

  // ---- interleavings ----

  /** Whatever the interleaving, rollbacks and lost acknowledgements, the tables are those of the committed
      deliveries processed one at a time, in commit order. */
  lemma Serializable(mk: Maker, s: State)
    requires Reachable(mk, s)
    ensures s.tables == DeliverAll(mk, s.history)
  {
    PersistProofs.ReachableInv(mk, s);
  }

  /** Notifications and outbox rows are in bijection, with equal citizens, in every reachable state. */
  lemma NotificationsMatchOutbox(mk: Maker, s: State)
    requires Reachable(mk, s)
    ensures Bijection(s.tables.notes, s.tables.outbox)
  {
    PersistProofs.ReachableInv(mk, s);
  }

  /** A key has a notification exactly when one delivery of it inserted and committed: at most one delivery is
      answered as new, and none is if the acknowledgement of that commit was lost. */
  lemma AnsweredAtMostOnce(mk: Maker, s: State, k: Key)
    requires Reachable(mk, s)
    ensures s.answered[k] + s.unanswered[k] == if k in s.tables.notes then 1 else 0
  {
    PersistProofs.ReachableInv(mk, s);
    assert s.answered[k] + s.unanswered[k] == if k in s.tables.notes then 1 else 0;
  }

  /** A transaction has a next step of its own, whatever unused identifier it draws. */
  ghost predicate CanProceed(s: State, r: RequestId) {
    forall id: Uuid | id !in s.used ::
      Enabled(s, EnsureCitizen(r, id)) || Enabled(s, InsertNote(r, id)) || Enabled(s, InsertOutbox(r, id, 0))
      || Enabled(s, Commit(r))
  }

  ghost predicate WaitsForCitizen(s: State, r: RequestId, q: RequestId) {
    && r in s.txs && q in s.txs && r != q && s.txs[r].Begun?
    && s.txs[r].d.fingerprint !in s.tables.citizens && HoldsCitizen(s.txs[q], s.txs[r].d.fingerprint)
  }

  ghost predicate WaitsForKey(s: State, r: RequestId, q: RequestId) {
    && r in s.txs && q in s.txs && r != q && s.txs[r].WithCitizen?
    && s.txs[r].d.key !in s.tables.notes && HoldsKey(s.txs[q], s.txs[r].d.key)
  }

  /** A transaction that waits for nobody can proceed. */
  lemma ProceedsUnlessWaiting(s: State, r: RequestId)
    requires r in s.txs
    requires forall q :: !WaitsForCitizen(s, r, q) && !WaitsForKey(s, r, q)
    ensures CanProceed(s, r)
  {
    forall id: Uuid | id !in s.used
      ensures Enabled(s, EnsureCitizen(r, id)) || Enabled(s, InsertNote(r, id)) || Enabled(s, InsertOutbox(r, id, 0))
              || Enabled(s, Commit(r))
    {
      forall q | q in s.txs && q != r
        ensures s.txs[r].Begun? ==> s.txs[r].d.fingerprint in s.tables.citizens
                                    || !HoldsCitizen(s.txs[q], s.txs[r].d.fingerprint)
        ensures s.txs[r].WithCitizen? ==> s.txs[r].d.key in s.tables.notes || !HoldsKey(s.txs[q], s.txs[r].d.key)
      {
        assert !WaitsForCitizen(s, r, q) && !WaitsForKey(s, r, q);
      }
    }
  }

  /** Waiting never closes a circle: a transaction waits for a citizen row, or one past its citizen waits for a key,
      and one holding a key waits for nothing. So while any transaction is open, one of them can proceed. */
  lemma NeverDeadlocked(s: State, r: RequestId) returns (q: RequestId)
    requires r in s.txs
    ensures q in s.txs && CanProceed(s, q)
  {
    q := r;
    if p :| WaitsForCitizen(s, r, p) {
      q := p;
    }
    if p :| WaitsForKey(s, q, p) {
      q := p;
    }
    ProceedsUnlessWaiting(s, q);
  }

  // ---- repeats ----

  /** The first delivery of a key. */
  function FirstOf(xs: seq<Record>, k: Key): Option<Record> {
    if xs == [] then None
    else
      var before := FirstOf(xs[..|xs| - 1], k);
      if before.Some? then before
      else if xs[|xs| - 1].d.key == k then Some(xs[|xs| - 1]) else None
  }

  /** The first delivery from a citizen. */
  function FirstFrom(xs: seq<Record>, fp: Fingerprint): Option<Record> {
    if xs == [] then None
    else
      var before := FirstFrom(xs[..|xs| - 1], fp);
      if before.Some? then before
      else if xs[|xs| - 1].d.fingerprint == fp then Some(xs[|xs| - 1]) else None
  }

  /** The delivery whose outbox row has an id. */
  function WriterOf(xs: seq<Record>, oid: Uuid): Option<Record> {
    if xs == [] then None
    else
      var x := xs[|xs| - 1];
      var before := xs[..|xs| - 1];
      if FirstOf(before, x.d.key).None? && x.oid == oid then Some(x) else WriterOf(before, oid)
  }

  /** Only the first delivery of each key. */
  function Kept(xs: seq<Record>): seq<Record> {
    if xs == [] then []
    else
      var x := xs[|xs| - 1];
      var before := xs[..|xs| - 1];
      if FirstOf(before, x.d.key).Some? then Kept(before) else Kept(before) + [x]
  }

  lemma {:induction false} CitizensAre(mk: Maker, xs: seq<Record>, fp: Fingerprint)
    ensures fp in DeliverAll(mk, xs).citizens <==> FirstFrom(xs, fp).Some?
    ensures FirstFrom(xs, fp).Some? ==>
              FirstFrom(xs, fp).value.d.fingerprint == fp
              && DeliverAll(mk, xs).citizens[fp] == FirstFrom(xs, fp).value.cid
  {
    if xs != [] {
      CitizensAre(mk, xs[..|xs| - 1], fp);
    }
  }

  lemma {:induction false} FirstOfHasKey(xs: seq<Record>, k: Key)
    ensures FirstOf(xs, k).Some? ==>
              FirstOf(xs, k).value.d.key == k && FirstOf(xs, k).value in xs
              && FirstFrom(xs, FirstOf(xs, k).value.d.fingerprint).Some?
  {
    if xs != [] {
      var before := xs[..|xs| - 1];
      FirstOfHasKey(before, k);
    }
  }

  /** The notifications after any sequence of deliveries: one per key, made from the first delivery of the key, for
      the citizen its fingerprint stands for. */
  lemma {:induction false} NotesAre(mk: Maker, xs: seq<Record>, k: Key)
    ensures k in DeliverAll(mk, xs).notes <==> FirstOf(xs, k).Some?
    ensures FirstOf(xs, k).Some? ==>
              var x := FirstOf(xs, k).value;
              x.d.fingerprint in DeliverAll(mk, xs).citizens
              && DeliverAll(mk, xs).notes[k] == NoteOf(mk, x, DeliverAll(mk, xs).citizens[x.d.fingerprint])
  {
    if xs != [] {
      NotesAre(mk, xs[..|xs| - 1], k);
    }
  }

  lemma {:induction false} OutboxIs(mk: Maker, xs: seq<Record>, oid: Uuid)
    ensures oid in DeliverAll(mk, xs).outbox <==> WriterOf(xs, oid).Some?
    ensures WriterOf(xs, oid).Some? ==>
              var x := WriterOf(xs, oid).value;
              x.d.fingerprint in DeliverAll(mk, xs).citizens && x in Kept(xs)
              && DeliverAll(mk, xs).outbox[oid] == EntryOf(mk, x, DeliverAll(mk, xs).citizens[x.d.fingerprint])
  {
    if xs != [] {
      var before := xs[..|xs| - 1];
      OutboxIs(mk, before, oid);
      NotesAre(mk, before, xs[|xs| - 1].d.key);
    }
  }

  lemma {:induction false} KeptSameFirsts(xs: seq<Record>, k: Key, oid: Uuid)
    ensures FirstOf(Kept(xs), k) == FirstOf(xs, k)
    ensures WriterOf(Kept(xs), oid) == WriterOf(xs, oid)
  {
    if xs != [] {
      var before, x := xs[..|xs| - 1], xs[|xs| - 1];
      KeptSameFirsts(before, k, oid);
      KeptSameFirsts(before, x.d.key, oid);
      if FirstOf(before, x.d.key).None? {
        assert Kept(xs)[..|Kept(xs)| - 1] == Kept(before);
      }
    }
  }

  /** Two tables hold the same notifications and outbox rows, for the same people: each row is made from one
      delivery, for the citizen id either table has for that delivery's fingerprint. */
  ghost predicate SameForPeople(mk: Maker, xs: seq<Record>, t: Tables, u: Tables) {
    && t.notes.Keys == u.notes.Keys && t.outbox.Keys == u.outbox.Keys
    && (forall k | k in t.notes :: exists x :: x in xs && NoteFrom(mk, x, t, k) && NoteFrom(mk, x, u, k))
    && (forall o | o in t.outbox :: exists x :: x in xs && EntryFrom(mk, x, t, o) && EntryFrom(mk, x, u, o))
  }

  ghost predicate NoteFrom(mk: Maker, x: Record, t: Tables, k: Key) {
    k in t.notes && x.d.fingerprint in t.citizens && t.notes[k] == NoteOf(mk, x, t.citizens[x.d.fingerprint])
  }

  ghost predicate EntryFrom(mk: Maker, x: Record, t: Tables, oid: Uuid) {
    oid in t.outbox && x.d.fingerprint in t.citizens && t.outbox[oid] == EntryOf(mk, x, t.citizens[x.d.fingerprint])
  }

  lemma {:induction false} KeptAreAmong(xs: seq<Record>)
    ensures forall x | x in Kept(xs) :: x in xs && FirstOf(xs, x.d.key) == Some(x)
  {
    if xs != [] {
      KeptAreAmong(xs[..|xs| - 1]);
    }
  }

  lemma SameKeys(mk: Maker, xs: seq<Record>)
    ensures DeliverAll(mk, xs).notes.Keys == DeliverAll(mk, Kept(xs)).notes.Keys
    ensures DeliverAll(mk, xs).outbox.Keys == DeliverAll(mk, Kept(xs)).outbox.Keys
  {
    var t, u := DeliverAll(mk, xs), DeliverAll(mk, Kept(xs));
    forall k ensures k in t.notes <==> k in u.notes {
      NotesAre(mk, xs, k);
      NotesAre(mk, Kept(xs), k);
      KeptSameFirsts(xs, k, 0);
    }
    forall o: Uuid ensures o in t.outbox <==> o in u.outbox {
      OutboxIs(mk, xs, o);
      OutboxIs(mk, Kept(xs), o);
      KeptSameFirsts(xs, "", o);
    }
  }

  /** Repeats change nothing: the notifications and outbox rows are those of the first delivery of each key. */
  lemma RepeatsChangeNothing(mk: Maker, xs: seq<Record>)
    ensures SameForPeople(mk, xs, DeliverAll(mk, xs), DeliverAll(mk, Kept(xs)))
  {
    var t, u := DeliverAll(mk, xs), DeliverAll(mk, Kept(xs));
    SameKeys(mk, xs);
    forall k | k in t.notes ensures exists x :: x in xs && NoteFrom(mk, x, t, k) && NoteFrom(mk, x, u, k) {
      NotesAre(mk, xs, k);
      NotesAre(mk, Kept(xs), k);
      KeptSameFirsts(xs, k, 0);
      FirstOfHasKey(xs, k);
      var x := FirstOf(xs, k).value;
      assert NoteFrom(mk, x, t, k) && NoteFrom(mk, x, u, k);
    }
    forall o | o in t.outbox ensures exists x :: x in xs && EntryFrom(mk, x, t, o) && EntryFrom(mk, x, u, o) {
      OutboxIs(mk, xs, o);
      OutboxIs(mk, Kept(xs), o);
      KeptSameFirsts(xs, "", o);
      KeptAreAmong(xs);
      var x := WriterOf(xs, o).value;
      assert EntryFrom(mk, x, t, o) && EntryFrom(mk, x, u, o);
    }
  }

  /** No repeat is the first delivery from a citizen of whom another delivery is kept. */
  ghost predicate NoRepeatIntroduces(xs: seq<Record>) {
    forall x | x in Kept(xs) :: FirstFrom(xs, x.d.fingerprint).Some? && FirstFrom(xs, x.d.fingerprint).value in Kept(xs)
  }

  /** gen_random_uuid() has not given two deliveries the same citizen id. */
  ghost predicate DistinctDraws(xs: seq<Record>) {
    forall i, j | 0 <= i < j < |xs| :: xs[i].cid != xs[j].cid
  }

  lemma {:induction false} MemberHasFirsts(xs: seq<Record>, x: Record)
    requires x in xs
    ensures FirstFrom(xs, x.d.fingerprint).Some? && FirstOf(xs, x.d.key).Some?
    decreases |xs|
  {
    if x != xs[|xs| - 1] {
      MemberHasFirsts(xs[..|xs| - 1], x);
    }
  }

  lemma {:induction false} FirstFromIsMember(xs: seq<Record>, fp: Fingerprint)
    requires FirstFrom(xs, fp).Some?
    ensures FirstFrom(xs, fp).value in xs && FirstFrom(xs, fp).value.d.fingerprint == fp
    decreases |xs|
  {
    if FirstFrom(xs[..|xs| - 1], fp).Some? {
      FirstFromIsMember(xs[..|xs| - 1], fp);
    }
  }

  /** A citizen with no delivery has none kept. */
  lemma NoneKeptFrom(xs: seq<Record>, fp: Fingerprint)
    requires FirstFrom(xs, fp).None?
    ensures FirstFrom(Kept(xs), fp).None? && forall x | x in Kept(xs) :: x.d.fingerprint != fp
  {
    KeptAreAmong(xs);
    forall x | x in Kept(xs) ensures x.d.fingerprint != fp {
      MemberHasFirsts(xs, x);
    }
    if FirstFrom(Kept(xs), fp).Some? {
      FirstFromIsMember(Kept(xs), fp);
    }
  }

  /** Leaving the repeats out does not change who introduced a citizen, if that delivery is kept. */
  lemma {:induction false} KeptFirstFrom(xs: seq<Record>, fp: Fingerprint)
    requires FirstFrom(xs, fp).Some? && FirstFrom(xs, fp).value in Kept(xs)
    ensures FirstFrom(Kept(xs), fp) == FirstFrom(xs, fp)
    decreases |xs|
  {
    var before, x := xs[..|xs| - 1], xs[|xs| - 1];
    var f := FirstFrom(xs, fp).value;
    if FirstOf(before, x.d.key).None? {
      assert Kept(xs)[..|Kept(xs)| - 1] == Kept(before);
    }
    if FirstFrom(before, fp).Some? {
      FirstFromIsMember(before, fp);
      MemberHasFirsts(before, f);
      assert f in Kept(before);
      KeptFirstFrom(before, fp);
    } else {
      NoneKeptFrom(before, fp);
    }
  }

  /** Row for row, ids included, the tables are those of the first delivery of each key if no repeat introduced a
      citizen of a kept delivery; and only then, as long as no two deliveries drew the same citizen id. */
  lemma RepeatsChangeNoRowIff(mk: Maker, xs: seq<Record>)
    ensures NoRepeatIntroduces(xs) ==>
              DeliverAll(mk, xs).notes == DeliverAll(mk, Kept(xs)).notes
              && DeliverAll(mk, xs).outbox == DeliverAll(mk, Kept(xs)).outbox
    ensures DistinctDraws(xs) && DeliverAll(mk, xs).notes == DeliverAll(mk, Kept(xs)).notes ==> NoRepeatIntroduces(xs)
  {
    if NoRepeatIntroduces(xs) {
      SameRows(mk, xs);
    } else if DistinctDraws(xs) {
      DifferentRow(mk, xs);
    }
  }

  lemma SameRows(mk: Maker, xs: seq<Record>)
    requires NoRepeatIntroduces(xs)
    ensures DeliverAll(mk, xs).notes == DeliverAll(mk, Kept(xs)).notes
    ensures DeliverAll(mk, xs).outbox == DeliverAll(mk, Kept(xs)).outbox
  {
    var t, u := DeliverAll(mk, xs), DeliverAll(mk, Kept(xs));
    SameKeys(mk, xs);
    forall k | k in t.notes ensures t.notes[k] == u.notes[k] {
      SameNote(mk, xs, k);
    }
    forall o | o in t.outbox ensures t.outbox[o] == u.outbox[o] {
      SameEntry(mk, xs, o);
    }
  }

  lemma SameNote(mk: Maker, xs: seq<Record>, k: Key)
    requires NoRepeatIntroduces(xs) && k in DeliverAll(mk, xs).notes && k in DeliverAll(mk, Kept(xs)).notes
    ensures DeliverAll(mk, xs).notes[k] == DeliverAll(mk, Kept(xs)).notes[k]
  {
    NotesAre(mk, xs, k);
    NotesAre(mk, Kept(xs), k);
    KeptSameFirsts(xs, k, 0);
    FirstOfHasKey(Kept(xs), k);
    SameCitizen(mk, xs, FirstOf(xs, k).value);
  }

  lemma SameEntry(mk: Maker, xs: seq<Record>, oid: Uuid)
    requires NoRepeatIntroduces(xs) && oid in DeliverAll(mk, xs).outbox && oid in DeliverAll(mk, Kept(xs)).outbox
    ensures DeliverAll(mk, xs).outbox[oid] == DeliverAll(mk, Kept(xs)).outbox[oid]
  {
    OutboxIs(mk, xs, oid);
    OutboxIs(mk, Kept(xs), oid);
    KeptSameFirsts(xs, "", oid);
    SameCitizen(mk, xs, WriterOf(xs, oid).value);
  }

  /** A citizen whose first delivery is kept has the same id without the repeats. */
  lemma SameCitizen(mk: Maker, xs: seq<Record>, x: Record)
    requires NoRepeatIntroduces(xs) && x in Kept(xs)
    ensures x.d.fingerprint in DeliverAll(mk, xs).citizens && x.d.fingerprint in DeliverAll(mk, Kept(xs)).citizens
    ensures DeliverAll(mk, xs).citizens[x.d.fingerprint] == DeliverAll(mk, Kept(xs)).citizens[x.d.fingerprint]
  {
    KeptFirstFrom(xs, x.d.fingerprint);
    CitizensAre(mk, xs, x.d.fingerprint);
    CitizensAre(mk, Kept(xs), x.d.fingerprint);
  }

  lemma DifferentRow(mk: Maker, xs: seq<Record>)
    requires !NoRepeatIntroduces(xs) && DistinctDraws(xs)
    ensures DeliverAll(mk, xs).notes != DeliverAll(mk, Kept(xs)).notes
  {
    KeptAreAmong(xs);
    forall x | x in Kept(xs) ensures FirstFrom(xs, x.d.fingerprint).Some? {
      MemberHasFirsts(xs, x);
    }
    var x :| x in Kept(xs) && FirstFrom(xs, x.d.fingerprint).value !in Kept(xs);
    DifferentCitizen(mk, xs, x);
    NotesAre(mk, xs, x.d.key);
    NotesAre(mk, Kept(xs), x.d.key);
    KeptSameFirsts(xs, x.d.key, 0);
  }

  /** A citizen first seen in a repeat has the id that repeat drew; without it, the id of a later delivery. */
  lemma DifferentCitizen(mk: Maker, xs: seq<Record>, x: Record)
    requires DistinctDraws(xs) && x in Kept(xs) && FirstFrom(xs, x.d.fingerprint).Some?
    requires FirstFrom(xs, x.d.fingerprint).value !in Kept(xs)
    ensures x.d.fingerprint in DeliverAll(mk, xs).citizens && x.d.fingerprint in DeliverAll(mk, Kept(xs)).citizens
    ensures DeliverAll(mk, xs).citizens[x.d.fingerprint] != DeliverAll(mk, Kept(xs)).citizens[x.d.fingerprint]
  {
    var fp := x.d.fingerprint;
    CitizensAre(mk, xs, fp);
    CitizensAre(mk, Kept(xs), fp);
    MemberHasFirsts(Kept(xs), x);
    FirstFromIsMember(xs, fp);
    FirstFromIsMember(Kept(xs), fp);
    KeptAreAmong(xs);
    var f, g := FirstFrom(xs, fp).value, FirstFrom(Kept(xs), fp).value;
    var i :| 0 <= i < |xs| && xs[i] == f;
    var j :| 0 <= j < |xs| && xs[j] == g;
    assert i != j;
  }

  // ---- on runs ----

  /** A notification and its outbox row come from one committed delivery: what the row carries is made from the event
      whose texts the notification has, and the citizen is the person it was delivered for, and nobody else. */
  lemma OneEventEach(mk: Maker, s: State, k: Key, oid: Uuid) returns (x: Record)
    requires Reachable(mk, s) && Pair(s.tables.notes, s.tables.outbox, k, oid)
    ensures x in s.history && x.d.key == k && x.oid == oid && x.nid == s.tables.notes[k].id
    ensures s.tables.notes[k].content == mk.content(x.d.event)
    ensures s.tables.outbox[oid].payload == mk.payload(x.nid, x.d.event, x.builtAt)
    ensures IsPerson(s.tables.citizens, x.d.fingerprint, s.tables.outbox[oid].citizen)
  {
    Serializable(mk, s);
    OutboxIs(mk, s.history, oid);
    KeptAreAmong(s.history);
    x := WriterOf(s.history, oid).value;
    WriterHasId(s.history, oid);
    NotesAre(mk, s.history, x.d.key);
    NotificationsMatchOutbox(mk, s);
    assert Pair(s.tables.notes, s.tables.outbox, x.d.key, oid);
    OnePersonEach(mk, s, x.d.fingerprint);
  }

  /** The person with this fingerprint is the only one with this citizen id. */
  ghost predicate IsPerson(citizens: map<Fingerprint, Uuid>, fp: Fingerprint, id: Uuid) {
    fp in citizens && citizens[fp] == id && forall other | other in citizens && citizens[other] == id :: other == fp
  }

  /** In every reachable state a citizen id belongs to one fingerprint. */
  lemma OnePersonEach(mk: Maker, s: State, fp: Fingerprint)
    requires Reachable(mk, s) && fp in s.tables.citizens
    ensures IsPerson(s.tables.citizens, fp, s.tables.citizens[fp])
  {
    var es :| ValidRun(mk, Init, es) && Run(mk, Init, es) == s;
    PersistProofs.PeopleRun(mk, Init, es);
  }

  lemma {:induction false} WriterHasId(xs: seq<Record>, oid: Uuid)
    requires WriterOf(xs, oid).Some?
    ensures WriterOf(xs, oid).value.oid == oid
    decreases |xs|
  {
    var x, before := xs[|xs| - 1], xs[..|xs| - 1];
    if !(FirstOf(before, x.d.key).None? && x.oid == oid) {
      WriterHasId(before, oid);
    }
  }

  /** What every run leaves: the notifications and outbox rows of the first committed delivery of each key, with the
      citizen ids it would have without the repeats exactly when no repeat introduced a citizen. */
  lemma RunsWithoutRepeats(mk: Maker, s: State)
    requires Reachable(mk, s)
    ensures SameForPeople(mk, s.history, s.tables, DeliverAll(mk, Kept(s.history)))
    ensures DistinctDraws(s.history) ==>
              (NoRepeatIntroduces(s.history) <==> s.tables.notes == DeliverAll(mk, Kept(s.history)).notes)
  {
    Serializable(mk, s);
    RepeatsChangeNothing(mk, s.history);
    RepeatsChangeNoRowIff(mk, s.history);
  }

  /** In any reachable state a duplicate that commits leaves notifications and outbox as they are, and adds a citizens
      row exactly when its own INSERT made one, for a person no committed delivery was from. */
  lemma DuplicateCommit(mk: Maker, s: State, r: RequestId)
    requires Reachable(mk, s) && r in s.txs && s.txs[r].AsDuplicate?
    ensures var t := Apply(mk, s, Commit(r)).tables;
            var tx := s.txs[r];
            && t.notes == s.tables.notes && t.outbox == s.tables.outbox
            && (tx.created <==> tx.d.fingerprint !in s.tables.citizens)
            && t.citizens == (if tx.created then s.tables.citizens[tx.d.fingerprint := tx.drawn] else s.tables.citizens)
            && (tx.created ==> forall x | x in s.history :: x.d.fingerprint != tx.d.fingerprint)
  {
    PersistProofs.ReachableInv(mk, s);
    var tx := s.txs[r];
    assert TxOk(s.tables, tx);
    if tx.created {
      CitizensAre(mk, s.history, tx.d.fingerprint);
      forall x | x in s.history ensures x.d.fingerprint != tx.d.fingerprint {
        MemberHasFirsts(s.history, x);
      }
    }
  }

  // ---- the run in which a repeat decides a citizen id ----

  function Whole(r: RequestId, d: Delivery, cid: Uuid, nid: Uuid, oid: Uuid): seq<Event> {
    [Start(r, d, 0), EnsureCitizen(r, cid), InsertNote(r, nid), InsertOutbox(r, oid, 0), Commit(r)]
  }

  function Repeat(r: RequestId, d: Delivery, cid: Uuid): seq<Event> {
    [Start(r, d, 0), EnsureCitizen(r, cid), InsertNote(r, 0), Commit(r)]
  }

  /** A delivery of a new key, alone. */
  lemma WholeRuns(mk: Maker, s: State, r: RequestId, d: Delivery, cid: Uuid, nid: Uuid, oid: Uuid)
    requires s.txs == map[] && d.key !in s.tables.notes
    requires nid != oid && cid != nid && cid != oid && cid !in s.used && nid !in s.used && oid !in s.used
    ensures var es := Whole(r, d, cid, nid, oid);
            var x := Record(d, 0, cid, nid, oid, 0);
            && ValidRun(mk, s, es) && Run(mk, s, es).txs == map[]
            && Run(mk, s, es).tables == Deliver(mk, s.tables, x)
            && Run(mk, s, es).history == s.history + [x]
            && Run(mk, s, es).used <= s.used + {cid, nid, oid}
  {
    var a := Apply(mk, s, Start(r, d, 0));
    var b := Apply(mk, a, EnsureCitizen(r, cid));
    var rest := [InsertNote(r, nid), InsertOutbox(r, oid, 0), Commit(r)];
    NewNoteRuns(mk, b, r, nid, oid);
    Prepend(mk, a, EnsureCitizen(r, cid), rest, Run(mk, b, rest));
    Prepend(mk, s, Start(r, d, 0), [EnsureCitizen(r, cid)] + rest, Run(mk, b, rest));
    assert Whole(r, d, cid, nid, oid) == [Start(r, d, 0)] + ([EnsureCitizen(r, cid)] + rest);
    DeliveredBy(mk, s, b, r, d, cid, nid, oid);
  }

  /** The second half: the notification, its outbox row, COMMIT. */
  lemma NewNoteRuns(mk: Maker, b: State, r: RequestId, nid: Uuid, oid: Uuid)
    requires r in b.txs && b.txs.Keys == {r} && b.txs[r].WithCitizen? && b.txs[r].d.key !in b.tables.notes
    requires nid != oid && nid !in b.used && oid !in b.used
    ensures var es := [InsertNote(r, nid), InsertOutbox(r, oid, 0), Commit(r)];
            var tx := b.txs[r];
            var last := WithOutbox(tx.d, tx.at, tx.citizen, tx.created, tx.drawn, nid, oid, 0);
            && ValidRun(mk, b, es) && Run(mk, b, es).txs == map[]
            && Run(mk, b, es).tables == Written(mk, b.tables, last)
            && Run(mk, b, es).history == b.history + [RecordOf(last)]
            && Run(mk, b, es).used == b.used + {nid} + {oid}
  {
    var c := Apply(mk, b, InsertNote(r, nid));
    var e := Apply(mk, c, InsertOutbox(r, oid, 0));
    var f := Apply(mk, e, Commit(r));
    Prepend(mk, e, Commit(r), [], f);
    Prepend(mk, c, InsertOutbox(r, oid, 0), [Commit(r)], f);
    Prepend(mk, b, InsertNote(r, nid), [InsertOutbox(r, oid, 0), Commit(r)], f);
  }

  lemma DeliveredBy(mk: Maker, s: State, b: State, r: RequestId, d: Delivery, cid: Uuid, nid: Uuid, oid: Uuid)
    requires d.key !in s.tables.notes && r in b.txs && b.tables == s.tables
    requires b.txs[r] == WithCitizen(d, 0, if d.fingerprint in s.tables.citizens then s.tables.citizens[d.fingerprint]
                                           else cid, d.fingerprint !in s.tables.citizens, cid)
    ensures var tx := b.txs[r];
            var last := WithOutbox(tx.d, tx.at, tx.citizen, tx.created, tx.drawn, nid, oid, 0);
            && Written(mk, b.tables, last) == Deliver(mk, s.tables, Record(d, 0, cid, nid, oid, 0))
            && RecordOf(last) == Record(d, 0, cid, nid, oid, 0)
  {
    if d.fingerprint in s.tables.citizens {
      assert s.tables.citizens[d.fingerprint := s.tables.citizens[d.fingerprint]] == s.tables.citizens;
    }
  }

  /** A repeat, alone. */
  lemma RepeatRuns(mk: Maker, s: State, r: RequestId, d: Delivery, cid: Uuid)
    requires s.txs == map[] && d.key in s.tables.notes && cid !in s.used
    ensures var es := Repeat(r, d, cid);
            var x := Record(d, 0, cid, 0, 0, 0);
            && ValidRun(mk, s, es) && Run(mk, s, es).txs == map[]
            && Run(mk, s, es).tables == Deliver(mk, s.tables, x)
            && Run(mk, s, es).history == s.history + [x]
            && Run(mk, s, es).used <= s.used + {cid}
  {
    var a := Apply(mk, s, Start(r, d, 0));
    var b := Apply(mk, a, EnsureCitizen(r, cid));
    var c := Apply(mk, b, InsertNote(r, 0));
    var f := Apply(mk, c, Commit(r));
    Prepend(mk, c, Commit(r), [], f);
    Prepend(mk, b, InsertNote(r, 0), [Commit(r)], f);
    Prepend(mk, a, EnsureCitizen(r, cid), [InsertNote(r, 0), Commit(r)], f);
    Prepend(mk, s, Start(r, d, 0), Repeat(r, d, cid)[1..], f);
  }

  lemma Prepend(mk: Maker, s: State, e: Event, es: seq<Event>, last: State)
    requires Enabled(s, e) && ValidRun(mk, Apply(mk, s, e), es) && Run(mk, Apply(mk, s, e), es) == last
    ensures ValidRun(mk, s, [e] + es) && Run(mk, s, [e] + es) == last
  {
    assert ([e] + es)[1..] == es;
  }

  /** It happens: A's event is stored, the same event arrives again with B's CPF, and B's own event follows. B's
      notification then carries the id the repeat drew (4), where without the repeat it would be B's own draw (7). */
  lemma RepeatChangesCitizenId(mk: Maker, event: EventPayload)
    ensures var es := Whole(1, Delivery("A", "k1", event), 1, 2, 3) + Repeat(2, Delivery("B", "k1", event), 4)
                      + Whole(3, Delivery("B", "k2", event), 7, 8, 9);
            && ValidRun(mk, Init, es)
            && var s := Run(mk, Init, es);
               && DistinctDraws(s.history) && !NoRepeatIntroduces(s.history)
               && "k2" in s.tables.notes && s.tables.notes["k2"].citizen == 4
               && "k2" in DeliverAll(mk, Kept(s.history)).notes
               && DeliverAll(mk, Kept(s.history)).notes["k2"].citizen == 7
  {
    var a, b, c := Whole(1, Delivery("A", "k1", event), 1, 2, 3), Repeat(2, Delivery("B", "k1", event), 4),
                   Whole(3, Delivery("B", "k2", event), 7, 8, 9);
    WholeRuns(mk, Init, 1, Delivery("A", "k1", event), 1, 2, 3);
    var s := Run(mk, Init, a);
    RepeatRuns(mk, s, 2, Delivery("B", "k1", event), 4);
    var t := Run(mk, s, b);
    WholeRuns(mk, t, 3, Delivery("B", "k2", event), 7, 8, 9);
    RunAppend(mk, Init, a, b);
    RunAppend(mk, Init, a + b, c);
    HistoryOfThree(mk, event, Run(mk, t, c));
  }

  lemma HistoryOfThree(mk: Maker, event: EventPayload, s: State)
    requires s.history == Init.history + [Record(Delivery("A", "k1", event), 0, 1, 2, 3, 0)]
                          + [Record(Delivery("B", "k1", event), 0, 4, 0, 0, 0)]
                          + [Record(Delivery("B", "k2", event), 0, 7, 8, 9, 0)]
    ensures DistinctDraws(s.history) && !NoRepeatIntroduces(s.history)
    ensures var u := DeliverAll(mk, Kept(s.history)); "k2" in u.notes && u.notes["k2"].citizen == 7
  {
    var a, b, c := Record(Delivery("A", "k1", event), 0, 1, 2, 3, 0),
                   Record(Delivery("B", "k1", event), 0, 4, 0, 0, 0),
                   Record(Delivery("B", "k2", event), 0, 7, 8, 9, 0);
    assert s.history == [a, b, c];
    assert [a, b, c][..2] == [a, b] && [a, b][..1] == [a] && [a][..0] == [];
    assert [a, c][..1] == [a];
    assert Kept([a]) == [a];
    assert Kept([a, b]) == [a];
    assert FirstOf([a], "k2") == None;
    assert FirstOf([a, b], "k2") == None;
    assert Kept([a, b, c]) == [a] + [c] == [a, c];
    assert FirstFrom([a], "B") == None;
    assert FirstFrom([a, b, c], "B") == Some(b);
    assert c in Kept([a, b, c]) && b !in Kept([a, b, c]);
    var one := DeliverAll(mk, [a]);
    assert one == Deliver(mk, DeliverAll(mk, []), a);
    assert DeliverAll(mk, [a, c]) == Deliver(mk, one, c);
  }
}
