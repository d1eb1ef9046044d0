/** Reading notifications: concurrent UPDATE ... SET read_at = now() statements over one table
    (internal/repo/notifications.go, lines 66-81 and 116-148).

    Marking one notification and marking all are the same statement with and without an id. A statement collects the
    rows its snapshot shows unread, then locks them one by one; a row that another statement has meanwhile marked is
    left alone, because the condition on read_at is evaluated again on the row as it now is. */
module Inbox {
  import opened Wrappers
  import opened Uuids
  import opened Messages

  type StmtId = nat

  datatype Note = Note(citizen: Uuid, content: Content, createdAt: int, readAt: Option<int>)

  /** found is the history of what the snapshot showed unread. */
  datatype Stmt = Stmt(
    citizen: Uuid,
    one: Option<Uuid>,
    at: int,
    found: set<Uuid>,
    todo: set<Uuid>,
    touched: seq<Uuid>)

  /** one and bulk are histories of the ids reported newly read by answered calls of each kind, lost of those whose
      commit was not acknowledged. */
  datatype State = State(
    notes: map<Uuid, Note>,
    stmts: map<StmtId, Stmt>,
    locks: map<Uuid, StmtId>,
    one: multiset<Uuid>,
    bulk: multiset<Uuid>,
    lost: multiset<Uuid>)

  const Init: State := State(map[], map[], map[], multiset{}, multiset{}, multiset{})

  datatype Event =
    | Insert(id: Uuid, citizen: Uuid, content: Content, createdAt: int)
    | Start(t: StmtId, citizen: Uuid, one: Option<Uuid>, at: int)
    | Touch(t: StmtId, id: Uuid)
    | Commit(t: StmtId)
    | CommitAckLost(t: StmtId)
    | Abort(t: StmtId)

  predicate Unread(notes: map<Uuid, Note>, id: Uuid) {
    id in notes && notes[id].readAt.None?
  }

  predicate IsRead(notes: map<Uuid, Note>, id: Uuid) {
    id in notes && notes[id].readAt.Some?
  }

  function Owned(notes: map<Uuid, Note>, citizen: Uuid): set<Uuid> {
    set id | id in notes && notes[id].citizen == citizen
  }

  function Matching(notes: map<Uuid, Note>, citizen: Uuid, one: Option<Uuid>): set<Uuid> {
    set id | id in notes && notes[id].citizen == citizen && notes[id].readAt.None? && (one.None? || one.value == id)
  }

  predicate Enabled(s: State, e: Event) {
    match e
    case Insert(id, _, _, _) => id !in s.notes
    case Start(t, _, _, _) => t !in s.stmts
    case Touch(t, id) => t in s.stmts && id in s.stmts[t].todo && id !in s.locks && id in s.notes
    case Commit(t) => t in s.stmts && s.stmts[t].todo == {}
    case CommitAckLost(t) => t in s.stmts && s.stmts[t].todo == {}
    case Abort(t) => t in s.stmts
  }

  function Marked(notes: map<Uuid, Note>, ids: set<Uuid>, at: int): map<Uuid, Note> {
    map id | id in notes :: if id in ids then notes[id].(readAt := Some(at)) else notes[id]
  }

  function Elements(ids: seq<Uuid>): set<Uuid> {
    set id | id in ids
  }

  function Unlocked(locks: map<Uuid, StmtId>, t: StmtId): map<Uuid, StmtId> {
    map id | id in locks && locks[id] != t :: locks[id]
  }

  function Ended(s: State, t: StmtId): State {
    s.(stmts := s.stmts - {t}, locks := Unlocked(s.locks, t))
  }

  function Committed(s: State, t: StmtId): State
    requires t in s.stmts
  {
    Ended(s, t).(notes := Marked(s.notes, Elements(s.stmts[t].touched), s.stmts[t].at))
  }

  function Apply(s: State, e: Event): State
    requires Enabled(s, e)
  {
    match e
    case Insert(id, citizen, content, createdAt) =>
      s.(notes := s.notes[id := Note(citizen, content, createdAt, None)])
    case Start(t, citizen, one, at) =>
      var found := Matching(s.notes, citizen, one);
      s.(stmts := s.stmts[t := Stmt(citizen, one, at, found, found, [])])
    case Touch(t, id) =>
      var n := s.stmts[t];
      if s.notes[id].readAt.Some? then s.(stmts := s.stmts[t := n.(todo := n.todo - {id})])
      else
        s.(stmts := s.stmts[t := n.(todo := n.todo - {id}, touched := n.touched + [id])],
           locks := s.locks[id := t])
    case Commit(t) =>
      var ids := multiset(s.stmts[t].touched);
      if s.stmts[t].one.Some? then Committed(s, t).(one := s.one + ids)
      else Committed(s, t).(bulk := s.bulk + ids)
    case CommitAckLost(t) => Committed(s, t).(lost := s.lost + multiset(s.stmts[t].touched))
    case Abort(t) => Ended(s, t)
  }

  // ---- invariant ----

  ghost predicate Reported(s: State, id: Uuid) {
    s.one[id] + s.bulk[id] + s.lost[id] == if IsRead(s.notes, id) then 1 else 0
  }

  ghost predicate StmtOk(s: State, t: StmtId)
    requires t in s.stmts
  {
    var n := s.stmts[t];
    && (forall id {:trigger id in n.found} | id in n.found ::
          id in s.notes && s.notes[id].citizen == n.citizen && (n.one.Some? ==> n.one.value == id)
          && (id in n.todo || id in n.touched || IsRead(s.notes, id)))
    && n.todo <= n.found
    && (forall i {:trigger n.touched[i]} | 0 <= i < |n.touched| ::
          n.touched[i] in n.found && n.touched[i] !in n.todo && Unread(s.notes, n.touched[i])
          && n.touched[i] in s.locks && s.locks[n.touched[i]] == t)
    && (forall i, j | 0 <= i < j < |n.touched| :: n.touched[i] != n.touched[j])
  }

  ghost predicate StmtsOk(s: State) {
    forall t {:trigger s.stmts[t]} | t in s.stmts :: StmtOk(s, t)
  }

  ghost predicate LocksOk(s: State) {
    forall id {:trigger s.locks[id]} | id in s.locks ::
      s.locks[id] in s.stmts && id in s.stmts[s.locks[id]].touched
  }

  ghost predicate AllReported(s: State) {
    forall id: Uuid {:trigger Reported(s, id)} :: Reported(s, id)
  }

  ghost predicate Inv(s: State) {
    StmtsOk(s) && LocksOk(s) && AllReported(s)
  }

  /** A step that changes neither who is read nor any report. */
  lemma ReportsStay(s: State, t: State)
    requires AllReported(s) && t.one == s.one && t.bulk == s.bulk && t.lost == s.lost
    requires forall id: Uuid {:trigger IsRead(t.notes, id)} :: IsRead(t.notes, id) <==> IsRead(s.notes, id)
    ensures AllReported(t)
  {
    forall id: Uuid ensures Reported(t, id) { assert Reported(s, id); }
  }

  lemma InsertInv(s: State, e: Event)
    requires Inv(s) && Enabled(s, e) && e.Insert?
    ensures Inv(Apply(s, e))
  {
    var t := Apply(s, e);
    forall x | x in t.stmts ensures StmtOk(t, x) { assert StmtOk(s, x); }
    forall id: Uuid ensures Reported(t, id) { assert Reported(s, id); }
  }

  lemma StartInv(s: State, e: Event)
    requires Inv(s) && Enabled(s, e) && e.Start?
    ensures Inv(Apply(s, e))
  {
    var t := Apply(s, e);
    forall x | x in t.stmts ensures StmtOk(t, x) {
      if x != e.t { assert StmtOk(s, x); }
    }
    forall id | id in t.locks ensures t.locks[id] in t.stmts && id in t.stmts[t.locks[id]].touched {
      assert s.locks[id] in s.stmts;
    }
    forall id: Uuid ensures Reported(t, id) { assert Reported(s, id); }
  }

  lemma TouchInv(s: State, w: StmtId, id: Uuid)
    requires Inv(s) && Enabled(s, Touch(w, id))
    ensures Inv(Apply(s, Touch(w, id)))
  {
    assert StmtOk(s, w);
    TouchStmts(s, w, id);
    TouchLocks(s, w, id);
    ReportsStay(s, Apply(s, Touch(w, id)));
  }

  lemma TouchStmts(s: State, w: StmtId, id: Uuid)
    requires StmtsOk(s) && Enabled(s, Touch(w, id))
    ensures StmtsOk(Apply(s, Touch(w, id)))
  {
    var t := Apply(s, Touch(w, id));
    assert StmtOk(s, w);
    forall x | x in t.stmts ensures StmtOk(t, x) { assert StmtOk(s, x); }
  }

  lemma TouchLocks(s: State, w: StmtId, id: Uuid)
    requires LocksOk(s) && Enabled(s, Touch(w, id))
    ensures LocksOk(Apply(s, Touch(w, id)))
  {
    var t := Apply(s, Touch(w, id));
    forall y | y in t.locks ensures t.locks[y] in t.stmts && y in t.stmts[t.locks[y]].touched {
      if y in s.locks {
        assert y in s.stmts[s.locks[y]].touched;
      } else {
        assert t.stmts[w].touched[|s.stmts[w].touched|] == id;
      }
    }
  }

  lemma EndInv(s: State, t: State, w: StmtId)
    requires Inv(s) && w in s.stmts && t.stmts == s.stmts - {w} && t.locks == Unlocked(s.locks, w)
    requires s.notes.Keys == t.notes.Keys
    requires forall id {:trigger t.notes[id]} | id in s.notes ::
               t.notes[id].citizen == s.notes[id].citizen && (s.notes[id].readAt.Some? ==> t.notes[id].readAt.Some?)
               && (id !in s.stmts[w].touched ==> t.notes[id] == s.notes[id])
    requires AllReported(t)
    ensures Inv(t)
  {
    assert StmtOk(s, w);
    forall x | x in t.stmts ensures StmtOk(t, x) {
      assert StmtOk(s, x);
      var n := s.stmts[x];
      forall i | 0 <= i < |n.touched| ensures n.touched[i] !in s.stmts[w].touched {
        assert s.locks[n.touched[i]] == x;
      }
    }
    forall y | y in t.locks ensures t.locks[y] in t.stmts && y in t.stmts[t.locks[y]].touched {
      assert y in s.locks && y in s.stmts[s.locks[y]].touched;
    }
  }

  lemma Multiplicity(ids: seq<Uuid>, id: Uuid)
    requires forall i, j | 0 <= i < j < |ids| :: ids[i] != ids[j]
    ensures multiset(ids)[id] == if id in ids then 1 else 0
    decreases |ids|
  {
    if ids != [] {
      assert ids == ids[..|ids| - 1] + [ids[|ids| - 1]];
      Multiplicity(ids[..|ids| - 1], id);
    }
  }

  /** A commit moves each of its rows from unread to reported once. */
  lemma CommitReports(s: State, e: Event, id: Uuid)
    requires Enabled(s, e) && (e.Commit? || e.CommitAckLost?) && StmtOk(s, e.t) && Reported(s, id)
    ensures Reported(Apply(s, e), id)
  {
    var ids := s.stmts[e.t].touched;
    Multiplicity(ids, id);
    if id in ids {
      var i :| 0 <= i < |ids| && ids[i] == id;
      assert Unread(s.notes, ids[i]);
    }
  }

  lemma CommitInv(s: State, e: Event)
    requires Inv(s) && Enabled(s, e) && (e.Commit? || e.CommitAckLost?)
    ensures Inv(Apply(s, e))
  {
    CommitAllReported(s, e);
    CommitRows(s, e);
    MarkedRows(s.notes, s.stmts[e.t].touched, s.stmts[e.t].at);
    EndInv(s, Apply(s, e), e.t);
  }

  lemma CommitAllReported(s: State, e: Event)
    requires StmtsOk(s) && AllReported(s) && Enabled(s, e) && (e.Commit? || e.CommitAckLost?)
    ensures AllReported(Apply(s, e))
  {
    assert StmtOk(s, e.t);
    forall id: Uuid ensures Reported(Apply(s, e), id) {
      assert Reported(s, id);
      CommitReports(s, e, id);
    }
  }

  lemma CommitRows(s: State, e: Event)
    requires Enabled(s, e) && (e.Commit? || e.CommitAckLost?)
    ensures var t := Apply(s, e);
            && t.notes == Marked(s.notes, Elements(s.stmts[e.t].touched), s.stmts[e.t].at)
            && t.stmts == s.stmts - {e.t} && t.locks == Unlocked(s.locks, e.t)
  {
  }

  lemma MarkedRows(notes: map<Uuid, Note>, ids: seq<Uuid>, at: int)
    ensures var after := Marked(notes, Elements(ids), at);
            && after.Keys == notes.Keys
            && forall id {:trigger after[id]} | id in notes ::
                 after[id].citizen == notes[id].citizen && (notes[id].readAt.Some? ==> after[id].readAt.Some?)
                 && (id !in ids ==> after[id] == notes[id])
  {
  }

  lemma AbortInv(s: State, w: StmtId)
    requires Inv(s) && w in s.stmts
    ensures Inv(Apply(s, Abort(w)))
  {
    var t := Apply(s, Abort(w));
    forall id: Uuid ensures Reported(t, id) { assert Reported(s, id); }
    EndInv(s, t, w);
  }

  lemma StepInv(s: State, e: Event)
    requires Inv(s) && Enabled(s, e)
    ensures Inv(Apply(s, e))
  {
    match e
    case Insert(_, _, _, _) => InsertInv(s, e);
    case Start(_, _, _, _) => StartInv(s, e);
    case Touch(w, id) => TouchInv(s, w, id);
    case Abort(w) => AbortInv(s, w);
    case _ => CommitInv(s, e);
  }

  // ---- runs ----

  ghost predicate ValidRun(s: State, es: seq<Event>)
    decreases |es|
  {
    es == [] || (Enabled(s, es[0]) && ValidRun(Apply(s, es[0]), es[1..]))
  }

  ghost function Run(s: State, es: seq<Event>): State
    requires ValidRun(s, es)
    decreases |es|
  {
    if es == [] then s else Run(Apply(s, es[0]), es[1..])
  }

  lemma {:induction false} RunInv(s: State, es: seq<Event>)
    requires Inv(s) && ValidRun(s, es)
    ensures Inv(Run(s, es))
    decreases |es|
  {
    if es != [] {
      StepInv(s, es[0]);
      RunInv(Apply(s, es[0]), es[1..]);
    }
  }

  /** A run with one more step. */
  lemma {:induction false} RunSnoc(s: State, es: seq<Event>, e: Event)
    requires ValidRun(s, es) && Enabled(Run(s, es), e)
    ensures ValidRun(s, es + [e]) && Run(s, es + [e]) == Apply(Run(s, es), e)
    decreases |es|
  {
    if es == [] {
      assert [e][1..] == [];
      assert ValidRun(Apply(s, e), []);
      assert es + [e] == [e];
    } else {
      RunSnoc(Apply(s, es[0]), es[1..], e);
      assert (es + [e])[1..] == es[1..] + [e];
    }
  }

  ghost predicate Reachable(s: State) {
    exists es :: ValidRun(Init, es) && Run(Init, es) == s
  }

  lemma ReachableInv(s: State)
    requires Reachable(s)
    ensures Inv(s)
  {
    var es :| ValidRun(Init, es) && Run(Init, es) == s;
    forall id: Uuid ensures Reported(Init, id) {}
    RunInv(Init, es);
  }
}
