/** The notifications table as the repository functions use it, and the handlers that mark notifications read
    (internal/repo/notifications.go, internal/httpapi/notifications.go). One statement runs at a time here; Inbox has
    the interleavings, and each method gives the run of that machine it has carried out. */
module Notifications {
  import opened Wrappers
  import opened Uuids
  import opened Messages
  import opened Ordering
  import opened Inbox
  import Pagination

  /** How the database answers a statement. Unconfirmed: it was carried out but the answer was lost. */
  datatype Outcome = Answered | Refused | Unconfirmed

  function CreatedAt(notes: map<Uuid, Note>): map<Uuid, int> {
    map id | id in notes :: notes[id].createdAt
  }

  /** A citizen's notifications, newest first. */
  ghost function Listing(notes: map<Uuid, Note>, citizen: Uuid): seq<Uuid> {
    Pagination.Newest(Owned(notes, citizen), CreatedAt(notes))
  }

  function ChamadosOf(notes: map<Uuid, Note>, ids: seq<Uuid>): seq<string>
    requires forall id | id in ids :: id in notes
  {
    seq(|ids|, i requires 0 <= i < |ids| && ids[i] in notes => notes[ids[i]].content.chamado)
  }

  /** What the REST API is given of a notification: everything but its citizen. */
  datatype Row = Row(id: Uuid, content: Content, createdAt: int, readAt: Option<int>)

  function RowOf(notes: map<Uuid, Note>, id: Uuid): Row
    requires id in notes
  {
    Row(id, notes[id].content, notes[id].createdAt, notes[id].readAt)
  }

  function RowsOf(notes: map<Uuid, Note>, ids: seq<Uuid>): seq<Row>
    requires forall id | id in ids :: id in notes
  {
    seq(|ids|, i requires 0 <= i < |ids| && ids[i] in notes => RowOf(notes, ids[i]))
  }

  /** The ids are those of the set, each once. */
  ghost predicate Enumerates(ids: seq<Uuid>, all: set<Uuid>) {
    && (forall x :: x in ids <==> x in all)
    && (forall i, j | 0 <= i < j < |ids| :: ids[i] != ids[j])
  }

  /** The row a mark-one call changes, if there is one. */
  function OwnUnread(notes: map<Uuid, Note>, citizen: Uuid, id: Uuid): seq<Uuid> {
    if Unread(notes, id) && notes[id].citizen == citizen then [id] else []
  }

  lemma OneRow(rows: seq<Uuid>, id: Uuid, there: bool)
    requires Enumerates(rows, if there then {id} else {})
    ensures rows == if there then [id] else []
  {
    SizeOf(rows, if there then {id} else {});
    if there {
      assert id in rows && |rows| == 1;
    }
  }

  /** What a finished UPDATE of these rows leaves, in the table and in the reports. */
  function Recorded(s: State, one: Option<Uuid>, rows: seq<Uuid>, now: int, outcome: Outcome): State {
    var t := s.(notes := Marked(s.notes, Elements(rows), now));
    match outcome
    case Refused => s
    case Unconfirmed => t.(lost := s.lost + multiset(rows))
    case Answered =>
      if one.Some? then t.(one := s.one + multiset(rows)) else t.(bulk := s.bulk + multiset(rows))
  }

  /** The table before and after every unread notification of a citizen is marked: nothing else changes. */
  ghost predicate AllReadNow(before: map<Uuid, Note>, after: map<Uuid, Note>, citizen: Uuid, now: int) {
    && after.Keys == before.Keys
    && forall id | id in before ::
         after[id] == if before[id].citizen == citizen && before[id].readAt.None? then before[id].(readAt := Some(now))
                      else before[id]
  }

  class Table {
    var notes: map<Uuid, Note>
    ghost var machine: State

    constructor ()
      ensures Valid() && notes == map[]
    {
      notes, machine := map[], Init;
      new;
      assert ValidRun(Init, []) && Run(Init, []) == Init;
    }

    /** No statement is open between calls. */
    ghost predicate Valid()
      reads this
    {
      machine.notes == notes && machine.stmts == map[] && machine.locks == map[] && Reachable(machine)
    }

    /** An UPDATE up to its commit: the matching rows are locked one by one. */
    method LockRows(citizen: Uuid, one: Option<Uuid>, now: int)
      returns (rows: seq<Uuid>, ghost s: State, ghost es: seq<Event>)
      requires Valid()
      ensures ValidRun(machine, es) && Run(machine, es) == s
      ensures Enumerates(rows, Matching(notes, citizen, one))
      ensures InProgress(machine, s, Stmt(citizen, one, now, Matching(notes, citizen, one), {}, rows))
    {
      var todo := Matching(notes, citizen, one);
      ghost var found := todo;
      rows := [];
      es := [Start(0, citizen, one, now)];
      s := Opened(machine, es[0]);
      while todo != {}
        invariant todo <= found && Enumerates(rows, found - todo)
        invariant ValidRun(machine, es) && Run(machine, es) == s
        invariant InProgress(machine, s, Stmt(citizen, one, now, found, todo, rows))
        decreases |todo|
      {
        var id :| id in todo;
        s, es := Touched(machine, s, es, id);
        OneMore(rows, found, todo, id);
        todo, rows := todo - {id}, rows + [id];
      }
      assert found - todo == found;
    }

    /** The UPDATE of both mark functions. */
    method Update(citizen: Uuid, one: Option<Uuid>, now: int, outcome: Outcome)
      returns (rows: seq<Uuid>, ghost es: seq<Event>)
      requires Valid()
      modifies this
      ensures Valid() && ValidRun(old(machine), es) && machine == Run(old(machine), es)
      ensures Enumerates(rows, Matching(old(notes), citizen, one))
      ensures machine == Recorded(old(machine), one, rows, now, outcome)
      ensures notes == if outcome.Refused? then old(notes)
                       else Marked(old(notes), Matching(old(notes), citizen, one), now)
    {
      ghost var s;
      rows, s, es := LockRows(citizen, one, now);
      assert Elements(rows) == Matching(notes, citizen, one);
      ghost var e := if outcome.Refused? then Abort(0)
                     else if outcome.Answered? then Commit(0) else CommitAckLost(0);
      RunSnoc(machine, es, e);
      es := es + [e];
      ReachableRun(machine, es);
      Finished(machine, s, e, outcome);
      machine := Apply(s, e);
      if !outcome.Refused? {
        notes := Marked(notes, Elements(rows), now);
      }
    }

    /** ok says the row was the citizen's and unread. */
    method MarkNotificationRead(citizen: Uuid, id: Uuid, now: int, outcome: Outcome)
      returns (err: bool, ok: bool, chamado: string, ghost es: seq<Event>)
      requires Valid()
      modifies this
      ensures Valid() && ValidRun(old(machine), es) && machine == Run(old(machine), es)
      ensures err <==> !outcome.Answered?
      ensures !err ==> (ok <==> Unread(old(notes), id) && old(notes)[id].citizen == citizen)
      ensures !err && ok ==> chamado == old(notes)[id].content.chamado
                             && notes == old(notes)[id := old(notes)[id].(readAt := Some(now))]
      ensures !err && !ok ==> chamado == "" && notes == old(notes)
      ensures outcome.Refused? ==> notes == old(notes)
      ensures machine == Recorded(old(machine), Some(id), OwnUnread(old(notes), citizen, id), now, outcome)
    {
      var found := id in notes && notes[id].citizen == citizen && notes[id].readAt.None?;
      MatchingOne(notes, citizen, id, now);
      chamado := if found then notes[id].content.chamado else "";
      var rows;
      rows, es := Update(citizen, Some(id), now, outcome);
      OneRow(rows, id, found);
      err, ok := !outcome.Answered?, outcome.Answered? && found;
      if !ok { chamado := ""; }
    }

    /** chamados has one element per row updated. */
    method MarkAllNotificationsRead(citizen: Uuid, now: int, outcome: Outcome)
      returns (err: bool, chamados: seq<string>, updated: int, ghost rows: seq<Uuid>, ghost es: seq<Event>)
      requires Valid()
      modifies this
      ensures Valid() && ValidRun(old(machine), es) && machine == Run(old(machine), es)
      ensures err <==> !outcome.Answered?
      ensures Enumerates(rows, Matching(old(notes), citizen, None)) && forall id | id in rows :: id in old(notes)
      ensures !err ==> chamados == ChamadosOf(old(notes), rows)
      ensures !err ==> forall ch :: multiset(chamados)[ch]
                                    == |set id | id in old(notes) && old(notes)[id].citizen == citizen
                                                 && old(notes)[id].readAt.None? && old(notes)[id].content.chamado == ch|
      ensures !err ==> updated == |set id | id in old(notes) && old(notes)[id].citizen == citizen
                                            && old(notes)[id].readAt.None?|
      ensures !outcome.Refused? ==> AllReadNow(old(notes), notes, citizen, now)
      ensures machine == Recorded(old(machine), None, rows, now, outcome)
      ensures err ==> chamados == [] && updated == 0
      ensures outcome.Refused? ==> notes == old(notes)
    {
      var before := notes;
      var found;
      found, es := Update(citizen, None, now, outcome);
      rows := found;
      SizeOf(found, Matching(before, citizen, None));
      MatchingAll(before, citizen, now);
      err, chamados, updated := true, [], 0;
      if outcome.Answered? {
        chamados := ScanChamados(before, found);
        forall ch { ChamadosCount(before, citizen, found, ch); }
        err, updated := false, |chamados|;
      }
    }

    /** The loop over the returned rows. */
    static method ScanChamados(rows: map<Uuid, Note>, found: seq<Uuid>) returns (chamados: seq<string>)
      requires forall id | id in found :: id in rows
      ensures chamados == ChamadosOf(rows, found)
    {
      chamados := [];
      var i := 0;
      while i < |found|
        invariant 0 <= i <= |found| && (forall id | id in found[..i] :: id in rows)
        invariant chamados == ChamadosOf(rows, found[..i])
      {
        assert found[i] in found && found[..i + 1] == found[..i] + [found[i]];
        chamados := chamados + [rows[found[i]].content.chamado];
        i := i + 1;
      }
      assert found[..i] == found;
    }

    method CountUnreadNotifications(citizen: Uuid) returns (n: nat)
      ensures n == |set id | id in notes && notes[id].citizen == citizen && notes[id].readAt.None?|
      ensures n + |set id | id in Owned(notes, citizen) && IsRead(notes, id)| == |Owned(notes, citizen)|
    {
      var unread := Matching(notes, citizen, None);
      assert unread + (set id | id in Owned(notes, citizen) && IsRead(notes, id)) == Owned(notes, citizen);
      MatchingAll(notes, citizen, 0);
      n := |unread|;
    }

    /** Whatever statements run between two of this request: any run that leaves none open. The body does the least. */
    method Interfere() returns (ghost es: seq<Event>)
      requires Valid()
      modifies this
      ensures Valid() && ValidRun(old(machine), es) && machine == Run(old(machine), es)
    {
      es := [];
    }

    /** COUNT first, the page second: the total is that of the first moment, the rows are the slice of the citizen's
        notifications, newest first, that limit and offset cut out at the second. */
    method ListNotificationsByCitizen(citizen: Uuid, limit: nat, offset: nat)
      returns (err: bool, out: seq<Row>, total: nat, ghost es: seq<Event>)
      requires Valid()
      modifies this
      ensures Valid() && ValidRun(old(machine), es) && machine == Run(old(machine), es)
      ensures Listed(notes, citizen)
      ensures !err ==> total == |set id | id in old(notes) && old(notes)[id].citizen == citizen|
      ensures !err ==> out == RowsOf(notes, Pagination.Page(Listing(notes, citizen), limit, offset))
      ensures !err ==> IsPage(notes, citizen, limit, offset, out)
      ensures err ==> out == [] && total == 0
    {
      total := |Owned(notes, citizen)|;
      OwnedAre(notes, citizen);
      es := Interfere();
      AllListed(notes, citizen);
      err := *;
      out := [];
      if err { return true, [], 0, es; }
      var ids := SelectPage(citizen, limit, offset);
      var i := 0;
      while i < |ids|
        invariant 0 <= i <= |ids| && (forall id | id in ids[..i] :: id in notes) && out == RowsOf(notes, ids[..i])
      {
        assert ids[i] in ids && ids[..i + 1] == ids[..i] + [ids[i]];
        out := out + [RowOf(notes, ids[i])];
        i := i + 1;
      }
      assert ids[..i] == ids;
      PageIsPage(notes, citizen, limit, offset);
    }

    /** ORDER BY created_at DESC, id DESC LIMIT limit OFFSET offset. */
    method SelectPage(citizen: Uuid, limit: nat, offset: nat) returns (out: seq<Uuid>)
      ensures out == Pagination.Page(Listing(notes, citizen), limit, offset)
    {
      ghost var all := Listing(notes, citizen);
      var at := CreatedAt(notes);
      var rest := Owned(notes, citizen);
      out := [];
      var i := 0;
      while rest != {} && i < offset + limit
        invariant rest <= at.Keys && i <= |all| && i <= offset + limit && all[i..] == Pagination.Newest(rest, at)
        invariant out == all[Pagination.Min(offset, i)..i]
        decreases |all| - i
      {
        ghost var more;
        var x;
        x, more := Pagination.TakeNewest(rest, at);
        Advance(all, i, x, more);
        SliceAdvances(all, i, offset);
        if i >= offset { out := out + [x]; }
        rest, i := rest - {x}, i + 1;
      }
      Pagination.NewestOrders(rest, at);
      LoopGivesPage(all, i, limit, offset);
    }
  }

  /** Only notifications that exist are listed. */
  ghost predicate Listed(notes: map<Uuid, Note>, citizen: Uuid) {
    forall id | id in Listing(notes, citizen) :: id in notes
  }

  lemma AllListed(notes: map<Uuid, Note>, citizen: Uuid)
    ensures Listed(notes, citizen)
  {
    Pagination.NewestOrders(Owned(notes, citizen), CreatedAt(notes));
  }

  /** The rows have all the columns of the citizen's notifications at places offset, offset + 1, ... newest first, as
      many as there are up to the limit. */
  ghost predicate IsPage(notes: map<Uuid, Note>, citizen: Uuid, limit: nat, offset: nat, out: seq<Row>) {
    && |out| == PageSize(|set id | id in notes && notes[id].citizen == citizen|, limit, offset)
    && forall i | 0 <= i < |out| ::
         var id := out[i].id;
         && id in notes && notes[id].citizen == citizen
         && out[i].content == notes[id].content && out[i].createdAt == notes[id].createdAt
         && out[i].readAt == notes[id].readAt
         && NewerThan(notes, citizen, id) == offset + i
  }

  /** How many of `total` rows limit and offset leave. */
  ghost function PageSize(total: nat, limit: nat, offset: nat): nat {
    if offset + limit <= total then limit else if offset <= total then total - offset else 0
  }

  lemma PageIsPage(notes: map<Uuid, Note>, citizen: Uuid, limit: nat, offset: nat)
    requires Listed(notes, citizen)
    ensures var page := Pagination.Page(Listing(notes, citizen), limit, offset);
            IsPage(notes, citizen, limit, offset, RowsOf(notes, page))
  {
    var own, at, all := Owned(notes, citizen), CreatedAt(notes), Listing(notes, citizen);
    var page := Pagination.Page(all, limit, offset);
    Pagination.NewestOrders(own, at);
    OwnedAre(notes, citizen);
    forall i | 0 <= i < |page| ensures page[i] in own && NewerThan(notes, citizen, page[i]) == offset + i {
      Pagination.NewestRank(own, at, offset + i, page[i]);
      SameNewer(notes, citizen, page[i]);
    }
  }

  /** How many of the citizen's notifications are newer. */
  ghost function NewerThan(notes: map<Uuid, Note>, citizen: Uuid, id: Uuid): nat
    requires id in notes
  {
    |set y | y in notes && notes[y].citizen == citizen
             && (notes[y].createdAt > notes[id].createdAt || (notes[y].createdAt == notes[id].createdAt && y > id))|
  }

  lemma SameNewer(notes: map<Uuid, Note>, citizen: Uuid, id: Uuid)
    requires id in notes
    ensures var own, at := Owned(notes, citizen), CreatedAt(notes);
            NewerThan(notes, citizen, id) == |set y | y in own && (at[y] > at[id] || (at[y] == at[id] && y > id))|
  {
    var own, at := Owned(notes, citizen), CreatedAt(notes);
    assert (set y | y in own && (at[y] > at[id] || (at[y] == at[id] && y > id)))
        == set y | y in notes && notes[y].citizen == citizen
                   && (notes[y].createdAt > notes[id].createdAt
                       || (notes[y].createdAt == notes[id].createdAt && y > id));
  }

  lemma OwnedAre(notes: map<Uuid, Note>, citizen: Uuid)
    ensures Owned(notes, citizen) == set id | id in notes && notes[id].citizen == citizen
  {
  }

  /** What a mark-all matches, and what it makes of the table. */
  lemma MatchingAll(notes: map<Uuid, Note>, citizen: Uuid, now: int)
    ensures Matching(notes, citizen, None)
            == set id | id in notes && notes[id].citizen == citizen && notes[id].readAt.None?
    ensures AllReadNow(notes, Marked(notes, Matching(notes, citizen, None), now), citizen, now)
  {
  }

  lemma SliceAdvances(all: seq<Uuid>, i: nat, offset: nat)
    requires i < |all|
    ensures all[Pagination.Min(offset, i + 1)..i + 1]
            == all[Pagination.Min(offset, i)..i] + if i >= offset then [all[i]] else []
  {
  }

  lemma LoopGivesPage(all: seq<Uuid>, i: nat, limit: nat, offset: nat)
    requires i <= |all| && i <= offset + limit && (all[i..] == [] || i == offset + limit)
    ensures all[Pagination.Min(offset, i)..i] == Pagination.Page(all, limit, offset)
  {
    assert all[i..] == [] ==> |all[i..]| == 0;
  }

  // ---- the run an UPDATE carries out ----

  /** Statement 0 is open on top of `start`, and nothing else has happened. */
  ghost predicate InProgress(start: State, s: State, n: Stmt) {
    && s.notes == start.notes && s.one == start.one && s.bulk == start.bulk && s.lost == start.lost
    && s.stmts == map[0 := n] && s.locks.Keys == Elements(n.touched) && forall id | id in s.locks :: s.locks[id] == 0
  }

  lemma Opened(start: State, e: Event) returns (s: State)
    requires start.stmts == map[] && start.locks == map[] && e.Start? && e.t == 0
    ensures ValidRun(start, [e]) && Run(start, [e]) == s
    ensures var found := Matching(start.notes, e.citizen, e.one);
            InProgress(start, s, Stmt(e.citizen, e.one, e.at, found, found, []))
  {
    s := Apply(start, e);
    assert [e][1..] == [] && ValidRun(s, []);
  }

  lemma Touched(start: State, s: State, es: seq<Event>, id: Uuid) returns (s': State, es': seq<Event>)
    requires ValidRun(start, es) && Run(start, es) == s
    requires 0 in s.stmts && InProgress(start, s, s.stmts[0])
    requires id in s.stmts[0].todo && Unread(s.notes, id) && id !in s.stmts[0].touched
    ensures es' == es + [Touch(0, id)] && ValidRun(start, es') && Run(start, es') == s'
    ensures var n := s.stmts[0];
            InProgress(start, s', n.(todo := n.todo - {id}, touched := n.touched + [id]))
  {
    RunSnoc(start, es, Touch(0, id));
    es' := es + [Touch(0, id)];
    s' := Apply(s, Touch(0, id));
    assert Elements(s.stmts[0].touched + [id]) == Elements(s.stmts[0].touched) + {id};
  }

  lemma OneMore(rows: seq<Uuid>, found: set<Uuid>, todo: set<Uuid>, id: Uuid)
    requires todo <= found && id in todo && Enumerates(rows, found - todo)
    ensures Enumerates(rows + [id], found - (todo - {id}))
  {
  }

  lemma Finished(start: State, s: State, e: Event, outcome: Outcome)
    requires start.stmts == map[] && start.locks == map[] && 0 in s.stmts && InProgress(start, s, s.stmts[0])
    requires Enabled(s, e)
    requires e == match outcome case Refused => Abort(0) case Answered => Commit(0) case _ => CommitAckLost(0)
    ensures Apply(s, e) == Recorded(start, s.stmts[0].one, s.stmts[0].touched, s.stmts[0].at, outcome)
  {
  }

  lemma {:induction false} RunAppend(s: State, a: seq<Event>, b: seq<Event>)
    requires ValidRun(s, a) && ValidRun(Run(s, a), b)
    ensures ValidRun(s, a + b) && Run(s, a + b) == Run(Run(s, a), b)
    decreases |a|
  {
    if a == [] {
      assert a + b == b;
    } else {
      RunAppend(Apply(s, a[0]), a[1..], b);
      assert (a + b)[1..] == a[1..] + b;
    }
  }

  lemma ReachableRun(s: State, es: seq<Event>)
    requires Reachable(s) && ValidRun(s, es)
    ensures Reachable(Run(s, es))
  {
    var before :| ValidRun(Init, before) && Run(Init, before) == s;
    RunAppend(Init, before, es);
  }

  lemma MatchingOne(notes: map<Uuid, Note>, citizen: Uuid, id: Uuid, at: int)
    ensures var ids := Matching(notes, citizen, Some(id));
            var found := id in notes && notes[id].citizen == citizen && notes[id].readAt.None?;
            && ids == (if found then {id} else {})
            && Marked(notes, ids, at) == if found then notes[id := notes[id].(readAt := Some(at))] else notes
  {
  }

  lemma {:induction false} SizeOf(ids: seq<Uuid>, all: set<Uuid>)
    requires Enumerates(ids, all)
    ensures |ids| == |all|
    decreases |ids|
  {
    if ids == [] {
      assert all == {};
    } else {
      var last := ids[|ids| - 1];
      assert last in all;
      forall x ensures x in ids[..|ids| - 1] <==> x in all - {last} {
        if x in ids && x != last {
          var i :| 0 <= i < |ids| && ids[i] == x;
          assert ids[..|ids| - 1][i] == x;
        }
      }
      SizeOf(ids[..|ids| - 1], all - {last});
    }
  }

  // ---- handlers ----

  /** The distinct non-empty texts in the order of their first occurrence. */
  function Firsts(chamados: seq<string>): seq<string> {
    if chamados == [] then []
    else
      var before := chamados[..|chamados| - 1];
      var last := chamados[|chamados| - 1];
      if last == "" || last in before then Firsts(before) else Firsts(before) + [last]
  }

  lemma FrontEnumerates(ids: seq<Uuid>, all: set<Uuid>)
    requires Enumerates(ids, all) && ids != []
    ensures Enumerates(ids[..|ids| - 1], all - {ids[|ids| - 1]})
  {
    var k := |ids| - 1;
    forall x | x in all && x != ids[k] ensures x in ids[..k] {
      var i :| 0 <= i < |ids| && ids[i] == x;
      assert ids[..k][i] == x;
    }
  }

  ghost function WithChamado(notes: map<Uuid, Note>, all: set<Uuid>, ch: string): set<Uuid> {
    set id | id in all && id in notes && notes[id].content.chamado == ch
  }

  lemma ChamadosGrow(notes: map<Uuid, Note>, front: seq<Uuid>, last: Uuid)
    requires last in notes && forall id | id in front :: id in notes
    ensures ChamadosOf(notes, front + [last]) == ChamadosOf(notes, front) + [notes[last].content.chamado]
  {
  }

  lemma WithOneMore(notes: map<Uuid, Note>, all: set<Uuid>, last: Uuid, ch: string)
    requires last in all && last in notes
    ensures |WithChamado(notes, all, ch)|
            == |WithChamado(notes, all - {last}, ch)| + if notes[last].content.chamado == ch then 1 else 0
  {
    var before := WithChamado(notes, all - {last}, ch);
    assert WithChamado(notes, all, ch) == if notes[last].content.chamado == ch then before + {last} else before;
  }

  /** A chamado id comes once for each row that has it. */
  lemma {:induction false} ChamadosAre(notes: map<Uuid, Note>, ids: seq<Uuid>, all: set<Uuid>, ch: string)
    requires Enumerates(ids, all) && forall id | id in ids :: id in notes
    ensures multiset(ChamadosOf(notes, ids))[ch] == |WithChamado(notes, all, ch)|
    decreases |ids|
  {
    if ids == [] {
      assert WithChamado(notes, all, ch) == {};
    } else {
      var front, last := ids[..|ids| - 1], ids[|ids| - 1];
      FrontEnumerates(ids, all);
      assert ids == front + [last] && last in ids;
      ChamadosAre(notes, front, all - {last}, ch);
      ChamadosGrow(notes, front, last);
      WithOneMore(notes, all, last, ch);
    }
  }

  lemma ChamadosCount(notes: map<Uuid, Note>, citizen: Uuid, rows: seq<Uuid>, ch: string)
    requires Enumerates(rows, Matching(notes, citizen, None)) && forall id | id in rows :: id in notes
    ensures multiset(ChamadosOf(notes, rows))[ch]
            == |set id | id in notes && notes[id].citizen == citizen && notes[id].readAt.None?
                         && notes[id].content.chamado == ch|
  {
    ChamadosAre(notes, rows, Matching(notes, citizen, None), ch);
    assert (set id | id in notes && notes[id].citizen == citizen && notes[id].readAt.None?
                     && notes[id].content.chamado == ch)
        == WithChamado(notes, Matching(notes, citizen, None), ch);
  }

  lemma {:induction false} CallsCount(chamados: seq<string>, citizen: Uuid, ch: string)
    ensures multiset(Calls(chamados, citizen))[(ch, citizen)] == multiset(chamados)[ch]
    ensures forall call | call in Calls(chamados, citizen) :: call.1 == citizen
    decreases |chamados|
  {
    if chamados != [] {
      var k := |chamados| - 1;
      CallsCount(chamados[..k], citizen, ch);
      assert chamados == chamados[..k] + [chamados[k]];
      assert Calls(chamados, citizen) == Calls(chamados[..k], citizen) + [(chamados[k], citizen)];
    }
  }

  lemma ChamadoIsThere(notes: map<Uuid, Note>, citizen: Uuid, rows: seq<Uuid>, ch: string)
    requires Enumerates(rows, Matching(notes, citizen, None)) && forall id | id in rows :: id in notes
    ensures ch in ChamadosOf(notes, rows)
            <==> exists id :: id in notes && notes[id].citizen == citizen && notes[id].readAt.None?
                              && notes[id].content.chamado == ch
  {
    var chamados := ChamadosOf(notes, rows);
    if ch in chamados {
      var i :| 0 <= i < |chamados| && chamados[i] == ch;
      assert rows[i] in rows && rows[i] in Matching(notes, citizen, None);
    }
    if id :| id in notes && notes[id].citizen == citizen && notes[id].readAt.None? && notes[id].content.chamado == ch {
      assert id in Matching(notes, citizen, None);
      var i :| 0 <= i < |rows| && rows[i] == id;
      assert chamados[i] == ch;
    }
  }

  /** The calls a mark-all adds: one for each distinct non-empty chamado id of the rows it found unread. */
  lemma OneCallEach(notes: map<Uuid, Note>, citizen: Uuid, rows: seq<Uuid>, ch: string)
    requires Enumerates(rows, Matching(notes, citizen, None)) && forall id | id in rows :: id in notes
    ensures multiset(Calls(Firsts(ChamadosOf(notes, rows)), citizen))[(ch, citizen)]
            == if ch != "" && exists id :: id in notes && notes[id].citizen == citizen && notes[id].readAt.None?
                                           && notes[id].content.chamado == ch
               then 1 else 0
  {
    CallsCount(Firsts(ChamadosOf(notes, rows)), citizen, ch);
    FirstsExact(ChamadosOf(notes, rows), ch);
    ChamadoIsThere(notes, citizen, rows, ch);
  }

  /** One call for each distinct non-empty chamado id of the citizen's unread notifications, and no other. */
  ghost predicate TellsOfEach(notes: map<Uuid, Note>, citizen: Uuid, calls: seq<(string, Uuid)>) {
    && (forall call | call in calls :: call.1 == citizen)
    && forall ch :: multiset(calls)[(ch, citizen)]
                    == if ch != "" && exists id :: id in notes && notes[id].citizen == citizen
                                                   && notes[id].readAt.None? && notes[id].content.chamado == ch
                       then 1 else 0
  }

  lemma Tells(notes: map<Uuid, Note>, citizen: Uuid, rows: seq<Uuid>)
    requires Enumerates(rows, Matching(notes, citizen, None)) && forall id | id in rows :: id in notes
    ensures TellsOfEach(notes, citizen, Calls(Firsts(ChamadosOf(notes, rows)), citizen))
  {
    CallsCount(Firsts(ChamadosOf(notes, rows)), citizen, "");
    forall ch { OneCallEach(notes, citizen, rows, ch); }
  }

  lemma NothingToTell(citizen: Uuid)
    ensures TellsOfEach(map[], citizen, [])
  {
  }

  /** Each distinct non-empty id of the updated rows is notified exactly once. */
  lemma {:induction false} FirstsExact(chamados: seq<string>, ch: string)
    ensures multiset(Firsts(chamados))[ch] == if ch != "" && ch in chamados then 1 else 0
    decreases |chamados|
  {
    if chamados != [] {
      var before := chamados[..|chamados| - 1];
      FirstsExact(before, ch);
      assert chamados == before + [chamados[|chamados| - 1]];
    }
  }

  datatype Response =
    | NoContent
    | Updated(count: int)
    | InvalidId
    | NotFound
    | InternalError

  class Api {
    const table: Table
    const upstream: bool
    var scheduled: seq<(string, Uuid)>

    constructor (table: Table, upstream: bool)
      ensures this.table == table && this.upstream == upstream && scheduled == []
    {
      this.table, this.upstream, scheduled := table, upstream, [];
    }

    /** Without an upstream client, or without a chamado id, nothing is scheduled. */
    method ScheduleReadNotify(chamado: string, citizen: Uuid)
      modifies this`scheduled
      ensures scheduled == old(scheduled) + if upstream && chamado != "" then [(chamado, citizen)] else []
    {
      if !upstream || chamado == "" {
        return;
      }
      scheduled := scheduled + [(chamado, citizen)];
    }

    /** nid is what the id in the path parses to. */
    method HandleMarkRead(cid: Option<Uuid>, nid: Option<Uuid>, now: int, outcome: Outcome)
      returns (response: Response, ghost es: seq<Event>)
      requires table.Valid()
      modifies this`scheduled, table
      ensures table.Valid() && ValidRun(old(table.machine), es) && table.machine == Run(old(table.machine), es)
      ensures response.NoContent? ==>
                && cid.Some? && nid.Some? && Unread(old(table.notes), nid.value)
                && old(table.notes)[nid.value].citizen == cid.value && old(table.notes)[nid.value].readAt.None?
                && table.notes
                   == old(table.notes)[nid.value := old(table.notes)[nid.value].(readAt := Some(now))]
                && var ch := old(table.notes)[nid.value].content.chamado;
                   scheduled == old(scheduled) + if upstream && ch != "" then [(ch, cid.value)] else []
      ensures !response.NoContent? ==> scheduled == old(scheduled) && !response.Updated?
      ensures response.NotFound? || response.InvalidId? ==> table.notes == old(table.notes)
      ensures cid.None? ==> response.NotFound?
      ensures response.InvalidId? <==> cid.Some? && nid.None?
      ensures cid.Some? && nid.Some? ==>
                (response.InternalError? <==> !outcome.Answered?)
                && (response.NotFound? <==>
                      (outcome.Answered?
                       && !(Unread(old(table.notes), nid.value) && old(table.notes)[nid.value].citizen == cid.value)))
      ensures table.machine ==
                if cid.None? || nid.None? then old(table.machine)
                else Recorded(old(table.machine), nid, OwnUnread(old(table.notes), cid.value, nid.value), now, outcome)
    {
      es := [];
      if cid.None? {
        return NotFound, es;
      }
      if nid.None? {
        return InvalidId, es;
      }
      var err, ok, chamado;
      err, ok, chamado, es := table.MarkNotificationRead(cid.value, nid.value, now, outcome);
      if err {
        return InternalError, es;
      }
      if !ok {
        return NotFound, es;
      }
      ScheduleReadNotify(chamado, cid.value);
      response := NoContent;
    }

    /** The loop over the updated rows' chamado ids, with its set of those seen. */
    method ScheduleEach(chamados: seq<string>, citizen: Uuid)
      modifies this`scheduled
      ensures scheduled == old(scheduled) + if upstream then Calls(Firsts(chamados), citizen) else []
    {
      var seen: set<string> := {};
      var i := 0;
      while i < |chamados|
        invariant 0 <= i <= |chamados|
        invariant seen == set ch | ch in chamados[..i] && ch != ""
        invariant scheduled == old(scheduled) + if upstream then Calls(Firsts(chamados[..i]), citizen) else []
      {
        var ch := chamados[i];
        assert chamados[..i + 1][..i] == chamados[..i];
        if ch != "" && ch !in seen {
          seen := seen + {ch};
          ScheduleReadNotify(ch, citizen);
        }
        i := i + 1;
      }
      assert chamados[..i] == chamados;
    }

    method HandleMarkAllRead(cid: Option<Uuid>, now: int, outcome: Outcome)
      returns (response: Response, ghost rows: seq<Uuid>, ghost es: seq<Event>)
      requires table.Valid()
      modifies this`scheduled, table
      ensures table.Valid() && ValidRun(old(table.machine), es) && table.machine == Run(old(table.machine), es)
      ensures forall id | id in rows :: id in old(table.notes)
      ensures response == if cid.None? then NotFound
                          else if !outcome.Answered? then InternalError
                          else Updated(|set id | id in old(table.notes) && old(table.notes)[id].citizen == cid.value
                                                 && old(table.notes)[id].readAt.None?|)
      ensures response.Updated? ==>
                && Enumerates(rows, Matching(old(table.notes), cid.value, None))
                && AllReadNow(old(table.notes), table.notes, cid.value, now)
                && scheduled == old(scheduled) +
                     if upstream then Calls(Firsts(ChamadosOf(old(table.notes), rows)), cid.value) else []
      ensures response.Updated? ==>
                && old(scheduled) <= scheduled
                && TellsOfEach(if upstream then old(table.notes) else map[], cid.value, scheduled[|old(scheduled)|..])
      ensures !response.Updated? ==> scheduled == old(scheduled)
      ensures table.machine ==
                if cid.None? then old(table.machine) else Recorded(old(table.machine), None, rows, now, outcome)
    {
      es, rows := [], [];
      if cid.None? {
        return NotFound, rows, es;
      }
      var err, chamados, n;
      err, chamados, n, rows, es := table.MarkAllNotificationsRead(cid.value, now, outcome);
      if err {
        return InternalError, rows, es;
      }
      ScheduleEach(chamados, cid.value);
      MatchingAll(old(table.notes), cid.value, now);
      Tells(old(table.notes), cid.value, rows);
      NothingToTell(cid.value);
      ghost var calls := if upstream then Calls(Firsts(chamados), cid.value) else [];
      assert (old(scheduled) + calls)[|old(scheduled)|..] == calls;
      response := Updated(n);
    }
  }

  function Calls(chamados: seq<string>, citizen: Uuid): seq<(string, Uuid)> {
    seq(|chamados|, i requires 0 <= i < |chamados| => (chamados[i], citizen))
  }
}
