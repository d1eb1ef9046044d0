/** Conservation of read state over every interleaving of inserts, mark-one and mark-all calls. */
module InboxTheorems {
  import opened Wrappers
  import opened Uuids
  import opened Inbox

  /** A notification is reported newly read exactly once if it is read, and never otherwise: by a mark-one call, in a
      mark-all's `updated`, or by a call whose answer was lost. */
  lemma ReadExactlyOnce(s: State, id: Uuid)
    requires Reachable(s)
    ensures s.one[id] + s.bulk[id] + s.lost[id] == if IsRead(s.notes, id) then 1 else 0
  {
    ReachableInv(s);
    assert Reported(s, id);
  }

  function ReadIds(notes: map<Uuid, Note>): set<Uuid> {
    set id | id in notes && notes[id].readAt.Some?
  }

  lemma {:induction false} Count(reports: multiset<Uuid>, ids: set<Uuid>)
    requires forall id: Uuid :: reports[id] == if id in ids then 1 else 0
    ensures |reports| == |ids|
    decreases |ids|
  {
    if ids == {} {
      assert reports == multiset{};
    } else {
      var x :| x in ids;
      Count(reports - multiset{x}, ids - {x});
      assert reports == (reports - multiset{x}) + multiset{x};
    }
  }

  /** Successful mark-one calls plus the sum of all `updated` answers is the number of read rows, when no answer was
      lost; lost answers account for the rest. */
  lemma Conservation(s: State)
    requires Reachable(s)
    ensures |s.one| + |s.bulk| + |s.lost| == |ReadIds(s.notes)|
  {
    forall id: Uuid ensures (s.one + s.bulk + s.lost)[id] == if id in ReadIds(s.notes) then 1 else 0 {
      ReadExactlyOnce(s, id);
    }
    Count(s.one + s.bulk + s.lost, ReadIds(s.notes));
  }

  /** The ids of a citizen that some call, answered or not, has marked. */
  function Newly(s: State, citizen: Uuid): set<Uuid> {
    set id | id in s.notes && s.notes[id].citizen == citizen && s.one[id] + s.bulk[id] + s.lost[id] > 0
  }

  /** The unread count is the citizen's total less the notifications its calls have reported. */
  lemma UnreadIsTheRest(s: State, citizen: Uuid)
    requires Reachable(s)
    ensures |Matching(s.notes, citizen, None)| + |Newly(s, citizen)| == |Owned(s.notes, citizen)|
  {
    var unread, newly := Matching(s.notes, citizen, None), Newly(s, citizen);
    forall id | id in Owned(s.notes, citizen) ensures id in unread <==> id !in newly {
      ReadExactlyOnce(s, id);
    }
    assert unread + newly == Owned(s.notes, citizen);
    assert unread !! newly;
  }

  /** Whatever runs beside it, a mark-all that commits leaves read every notification it found unread at its start,
      counts in `updated` only the ones it changed itself, and touches no other citizen's. */
  lemma CommitCovers(s: State, t: StmtId)
    requires Reachable(s) && Enabled(s, Commit(t))
    ensures var n := s.stmts[t];
            var after := Apply(s, Commit(t)).notes;
            && (forall id | id in n.found :: IsRead(after, id))
            && (forall id | id in n.touched :: Unread(s.notes, id) && after[id] == s.notes[id].(readAt := Some(n.at)))
            && (forall id | id in s.notes && id !in n.touched :: after[id] == s.notes[id])
            && (forall id | id in n.touched :: s.notes[id].citizen == n.citizen)
            && (n.one.Some? ==> |n.touched| <= 1)
  {
    ReachableInv(s);
    assert StmtOk(s, t);
    TouchedAreItsOwn(s, t);
    if s.stmts[t].one.Some? { TouchesOne(s, t); }
  }

  lemma TouchedAreItsOwn(s: State, t: StmtId)
    requires t in s.stmts && StmtOk(s, t)
    ensures forall id | id in s.stmts[t].touched ::
              Unread(s.notes, id) && id in s.stmts[t].found && s.notes[id].citizen == s.stmts[t].citizen
  {
    var n := s.stmts[t];
    forall id | id in n.touched ensures Unread(s.notes, id) && id in n.found {
      var i :| 0 <= i < |n.touched| && n.touched[i] == id;
      assert Unread(s.notes, n.touched[i]);
    }
  }

  lemma TouchesOne(s: State, t: StmtId)
    requires t in s.stmts && StmtOk(s, t) && s.stmts[t].one.Some?
    ensures |s.stmts[t].touched| <= 1
  {
    var n := s.stmts[t];
    forall i | 0 <= i < |n.touched| ensures n.touched[i] == n.one.value {
      assert n.touched[i] in n.found;
    }
    Repeated(n.touched, n.one.value);
    Multiplicity(n.touched, n.one.value);
  }

  lemma {:induction false} Repeated(ids: seq<Uuid>, x: Uuid)
    requires forall i | 0 <= i < |ids| :: ids[i] == x
    ensures multiset(ids)[x] == |ids|
    decreases |ids|
  {
    if ids != [] {
      assert ids == ids[..|ids| - 1] + [ids[|ids| - 1]];
      Repeated(ids[..|ids| - 1], x);
    }
  }

  /** No two open statements hold the same row. */
  lemma NoSharedRow(s: State, t: StmtId, u: StmtId, id: Uuid)
    requires Reachable(s) && t in s.stmts && u in s.stmts
    requires id in s.stmts[t].touched && id in s.stmts[u].touched
    ensures t == u
  {
    ReachableInv(s);
    assert StmtOk(s, t) && StmtOk(s, u);
    var i :| 0 <= i < |s.stmts[t].touched| && s.stmts[t].touched[i] == id;
    var j :| 0 <= j < |s.stmts[u].touched| && s.stmts[u].touched[j] == id;
    assert s.locks[s.stmts[t].touched[i]] == t && s.locks[s.stmts[u].touched[j]] == u;
  }

  lemma ReadRowStays(s: State, e: Event, id: Uuid)
    requires Inv(s) && Enabled(s, e) && IsRead(s.notes, id)
    ensures id in Apply(s, e).notes && Apply(s, e).notes[id] == s.notes[id]
  {
    if e.Commit? || e.CommitAckLost? {
      assert StmtOk(s, e.t);
      var ids := s.stmts[e.t].touched;
      forall i | 0 <= i < |ids| ensures ids[i] != id {
        assert Unread(s.notes, ids[i]);
      }
    }
  }

  /** read_at is written once: a read notification never changes again, in any run. */
  lemma {:induction false} ReadStays(s: State, es: seq<Event>, id: Uuid)
    requires Inv(s) && ValidRun(s, es) && IsRead(s.notes, id)
    ensures id in Run(s, es).notes && Run(s, es).notes[id] == s.notes[id]
    decreases |es|
  {
    if es != [] {
      ReadRowStays(s, es[0], id);
      StepInv(s, es[0]);
      ReadStays(Apply(s, es[0]), es[1..], id);
    }
  }
}
