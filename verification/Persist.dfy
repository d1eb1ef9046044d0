/** The webhook transaction as a machine of small steps over three tables with unique keys
    (internal/webhook/service.go, internal/repo/webhook.go).

    Any number of requests run at once. A statement that meets a unique key inserted by a transaction still open
    waits for it, as PostgreSQL does, so its step is not enabled until that transaction ends. */
module Persist {
  import opened Uuids
  import opened Messages
  import opened EventPayloads

  type Fingerprint = string
  type Key = string
  type RequestId = nat

  datatype Note = Note(id: Uuid, citizen: Uuid, content: Content, createdAt: int)

  datatype Entry = Entry(citizen: Uuid, notification: Uuid, payload: Payload, createdAt: int)

  /** notes is indexed by the unique idempotency_key, citizens by the unique fingerprint. */
  datatype Tables = Tables(citizens: map<Fingerprint, Uuid>, notes: map<Key, Note>, outbox: map<Uuid, Entry>)

  const NoTables: Tables := Tables(map[], map[], map[])

  /** How rows are made from a payload; the steps do not look inside. */
  datatype Maker = Maker(content: EventPayload -> Content, payload: (Uuid, EventPayload, int) -> Payload)

  datatype Delivery = Delivery(fingerprint: Fingerprint, key: Key, event: EventPayload)

  /** A delivery with the identifiers and times its transaction drew; cid may have gone unused. */
  datatype Record = Record(d: Delivery, at: int, cid: Uuid, nid: Uuid, oid: Uuid, builtAt: int)

  // ---- one delivery at a time ----

  function NoteOf(mk: Maker, x: Record, citizen: Uuid): Note {
    Note(x.nid, citizen, mk.content(x.d.event), x.at)
  }

  function EntryOf(mk: Maker, x: Record, citizen: Uuid): Entry {
    Entry(citizen, x.nid, mk.payload(x.nid, x.d.event, x.builtAt), x.at)
  }

  function CitizenFor(t: Tables, x: Record): Uuid {
    if x.d.fingerprint in t.citizens then t.citizens[x.d.fingerprint] else x.cid
  }

  /** The effect of a delivery processed alone: the citizen row first, then the notification unless its key is
      taken, then the outbox row with it. */
  function Deliver(mk: Maker, t: Tables, x: Record): Tables {
    var citizen := CitizenFor(t, x);
    var citizens := t.citizens[x.d.fingerprint := citizen];
    if x.d.key in t.notes then t.(citizens := citizens)
    else Tables(citizens, t.notes[x.d.key := NoteOf(mk, x, citizen)], t.outbox[x.oid := EntryOf(mk, x, citizen)])
  }

  function DeliverAll(mk: Maker, xs: seq<Record>): Tables {
    if xs == [] then NoTables else Deliver(mk, DeliverAll(mk, xs[..|xs| - 1]), xs[|xs| - 1])
  }

  // ---- many at once ----

  /** How far an open transaction has come. `drawn` is the id its INSERT INTO citizens drew,
      used or not; `created` says it was used: the transaction has inserted the citizen row itself. */
  datatype Tx =
    | Begun(d: Delivery, at: int)
    | WithCitizen(d: Delivery, at: int, citizen: Uuid, created: bool, drawn: Uuid)
    | AsDuplicate(d: Delivery, at: int, citizen: Uuid, created: bool, drawn: Uuid)
    | WithNote(d: Delivery, at: int, citizen: Uuid, created: bool, drawn: Uuid, nid: Uuid)
    | WithOutbox(d: Delivery, at: int, citizen: Uuid, created: bool, drawn: Uuid, nid: Uuid, oid: Uuid,
                 builtAt: int)

  /** used holds every identifier taken so far; history the committed deliveries in commit order; answered and
      unanswered, by key, the commits that inserted a notification, told to the sender or not. */
  datatype State = State(
    tables: Tables,
    txs: map<RequestId, Tx>,
    used: set<Uuid>,
    history: seq<Record>,
    answered: multiset<Key>,
    unanswered: multiset<Key>)

  const Init: State := State(NoTables, map[], {}, [], multiset{}, multiset{})

  datatype Event =
    | Start(r: RequestId, d: Delivery, at: int)
    | EnsureCitizen(r: RequestId, cid: Uuid)
    | InsertNote(r: RequestId, nid: Uuid)
    | InsertOutbox(r: RequestId, oid: Uuid, builtAt: int)
    | Commit(r: RequestId)
    | CommitAckLost(r: RequestId)
    | Abort(r: RequestId)

  predicate HoldsCitizen(tx: Tx, fp: Fingerprint) {
    !tx.Begun? && tx.created && tx.d.fingerprint == fp
  }

  predicate HoldsKey(tx: Tx, key: Key) {
    (tx.WithNote? || tx.WithOutbox?) && tx.d.key == key
  }

  predicate Enabled(s: State, e: Event) {
    match e
    case Start(r, _, _) => r !in s.txs
    case EnsureCitizen(r, cid) =>
      && r in s.txs && s.txs[r].Begun?
      && (s.txs[r].d.fingerprint in s.tables.citizens
          || (cid !in s.used && forall q | q in s.txs && q != r :: !HoldsCitizen(s.txs[q], s.txs[r].d.fingerprint)))
    case InsertNote(r, nid) =>
      && r in s.txs && s.txs[r].WithCitizen?
      && (s.txs[r].d.key in s.tables.notes
          || (nid !in s.used && forall q | q in s.txs && q != r :: !HoldsKey(s.txs[q], s.txs[r].d.key)))
    case InsertOutbox(r, oid, _) => r in s.txs && s.txs[r].WithNote? && oid !in s.used
    case Commit(r) => r in s.txs && (s.txs[r].WithOutbox? || s.txs[r].AsDuplicate?)
    case CommitAckLost(r) => r in s.txs && (s.txs[r].WithOutbox? || s.txs[r].AsDuplicate?)
    case Abort(r) => r in s.txs
  }

  function RecordOf(tx: Tx): Record
    requires tx.WithOutbox? || tx.AsDuplicate?
  {
    if tx.WithOutbox? then Record(tx.d, tx.at, tx.drawn, tx.nid, tx.oid, tx.builtAt)
    else Record(tx.d, tx.at, tx.drawn, 0, 0, 0)
  }

  /** What the transaction's own writes make of the tables. */
  function Written(mk: Maker, t: Tables, tx: Tx): Tables
    requires tx.WithOutbox? || tx.AsDuplicate?
  {
    var citizens := if tx.created then t.citizens[tx.d.fingerprint := tx.citizen] else t.citizens;
    if tx.AsDuplicate? then t.(citizens := citizens)
    else
      var x := RecordOf(tx);
      Tables(citizens, t.notes[tx.d.key := NoteOf(mk, x, tx.citizen)], t.outbox[tx.oid := EntryOf(mk, x, tx.citizen)])
  }

  function AfterEnsure(s: State, r: RequestId, cid: Uuid): State
    requires r in s.txs
  {
    var tx := s.txs[r];
    var fp := tx.d.fingerprint;
    if fp in s.tables.citizens then
      s.(txs := s.txs[r := WithCitizen(tx.d, tx.at, s.tables.citizens[fp], false, cid)])
    else
      s.(txs := s.txs[r := WithCitizen(tx.d, tx.at, cid, true, cid)], used := s.used + {cid})
  }

  function AfterInsertNote(s: State, r: RequestId, nid: Uuid): State
    requires r in s.txs && s.txs[r].WithCitizen?
  {
    var tx := s.txs[r];
    if tx.d.key in s.tables.notes then
      s.(txs := s.txs[r := AsDuplicate(tx.d, tx.at, tx.citizen, tx.created, tx.drawn)])
    else
      s.(txs := s.txs[r := WithNote(tx.d, tx.at, tx.citizen, tx.created, tx.drawn, nid)], used := s.used + {nid})
  }

  function AfterCommit(mk: Maker, s: State, r: RequestId, told: bool): State
    requires r in s.txs && (s.txs[r].WithOutbox? || s.txs[r].AsDuplicate?)
  {
    var tx := s.txs[r];
    var inserted := if tx.WithOutbox? then multiset{tx.d.key} else multiset{};
    s.(tables := Written(mk, s.tables, tx),
       txs := s.txs - {r},
       history := s.history + [RecordOf(tx)],
       answered := if told then s.answered + inserted else s.answered,
       unanswered := if told then s.unanswered else s.unanswered + inserted)
  }

  function Apply(mk: Maker, s: State, e: Event): State
    requires Enabled(s, e)
  {
    match e
    case Start(r, d, at) => s.(txs := s.txs[r := Begun(d, at)])
    case EnsureCitizen(r, cid) => AfterEnsure(s, r, cid)
    case InsertNote(r, nid) => AfterInsertNote(s, r, nid)
    case InsertOutbox(r, oid, builtAt) =>
      var tx := s.txs[r];
      s.(txs := s.txs[r := WithOutbox(tx.d, tx.at, tx.citizen, tx.created, tx.drawn, tx.nid, oid, builtAt)],
         used := s.used + {oid})
    case Commit(r) => AfterCommit(mk, s, r, true)
    case CommitAckLost(r) => AfterCommit(mk, s, r, false)
    case Abort(r) => s.(txs := s.txs - {r})
  }

  // ---- runs ----

  ghost predicate ValidRun(mk: Maker, s: State, es: seq<Event>)
    decreases |es|
  {
    es == [] || (Enabled(s, es[0]) && ValidRun(mk, Apply(mk, s, es[0]), es[1..]))
  }

  ghost function Run(mk: Maker, s: State, es: seq<Event>): State
    requires ValidRun(mk, s, es)
    decreases |es|
  {
    if es == [] then s else Run(mk, Apply(mk, s, es[0]), es[1..])
  }

  ghost predicate Reachable(mk: Maker, s: State) {
    exists es :: ValidRun(mk, Init, es) && Run(mk, Init, es) == s
  }

  lemma {:induction false} RunAppend(mk: Maker, s: State, a: seq<Event>, b: seq<Event>)
    requires ValidRun(mk, s, a) && ValidRun(mk, Run(mk, s, a), b)
    ensures ValidRun(mk, s, a + b) && Run(mk, s, a + b) == Run(mk, Run(mk, s, a), b)
    decreases |a|
  {
    if a == [] {
      assert a + b == b;
    } else {
      RunAppend(mk, Apply(mk, s, a[0]), a[1..], b);
      assert (a + b)[1..] == a[1..] + b;
    }
  }

  lemma ReachableStep(mk: Maker, s: State, e: Event)
    requires Reachable(mk, s) && Enabled(s, e)
    ensures Reachable(mk, Apply(mk, s, e))
    ensures ValidRun(mk, s, [e]) && Run(mk, s, [e]) == Apply(mk, s, e)
  {
    assert [e][1..] == [];
    var t := Apply(mk, s, e);
    assert ValidRun(mk, t, []) && Run(mk, t, []) == t;
    ReachableRun(mk, s, [e]);
    assert Run(mk, s, [e]) == t;
  }

  lemma ReachableRun(mk: Maker, s: State, es: seq<Event>)
    requires Reachable(mk, s) && ValidRun(mk, s, es)
    ensures Reachable(mk, Run(mk, s, es))
  {
    var before :| ValidRun(mk, Init, before) && Run(mk, Init, before) == s;
    RunAppend(mk, Init, before, es);
  }

  // ---- invariant ----

  /** What a transaction has found or inserted is still so. */
  ghost predicate TxOk(t: Tables, tx: Tx) {
    && (!tx.Begun? && tx.created ==> tx.d.fingerprint !in t.citizens && tx.citizen == tx.drawn)
    && (!tx.Begun? && !tx.created ==>
          tx.d.fingerprint in t.citizens && t.citizens[tx.d.fingerprint] == tx.citizen)
    && (tx.AsDuplicate? ==> tx.d.key in t.notes)
    && (tx.WithNote? || tx.WithOutbox? ==> tx.d.key !in t.notes)
  }

  /** The identifiers a transaction has drawn for rows of its own. */
  function Drawn(tx: Tx): set<Uuid> {
    match tx
    case WithNote(_, _, _, _, _, nid) => {nid}
    case WithOutbox(_, _, _, _, _, nid, oid, _) => {nid, oid}
    case _ => {}
  }

  ghost function RowIds(t: Tables): set<Uuid> {
    (set k | k in t.notes :: t.notes[k].id) + t.outbox.Keys
  }

  /** No key or identifier is in two hands. */
  ghost predicate Apart(a: Tx, b: Tx) {
    && !(!a.Begun? && a.created && HoldsCitizen(b, a.d.fingerprint))
    && !((a.WithNote? || a.WithOutbox?) && HoldsKey(b, a.d.key))
    && Drawn(a) !! Drawn(b)
  }

  ghost predicate TxsOk(s: State) {
    && (forall r | r in s.txs :: TxOk(s.tables, s.txs[r]) && DrawnOk(s, s.txs[r]))
    && (forall q, r | q in s.txs && r in s.txs && q != r :: Apart(s.txs[q], s.txs[r]))
  }

  ghost predicate DrawnOk(s: State, tx: Tx) {
    && Drawn(tx) <= s.used && Drawn(tx) !! RowIds(s.tables)
    && (tx.WithOutbox? ==> tx.nid != tx.oid)
  }

  /** A notification and an outbox row that belong together. */
  ghost predicate Pair(notes: map<Key, Note>, outbox: map<Uuid, Entry>, k: Key, oid: Uuid) {
    && k in notes && oid in outbox
    && outbox[oid].notification == notes[k].id && outbox[oid].citizen == notes[k].citizen
  }

  ghost predicate HasEntry(notes: map<Key, Note>, outbox: map<Uuid, Entry>, k: Key) {
    exists oid {:trigger Pair(notes, outbox, k, oid)} :: Pair(notes, outbox, k, oid)
  }

  ghost predicate HasNote(notes: map<Key, Note>, outbox: map<Uuid, Entry>, oid: Uuid) {
    exists k {:trigger Pair(notes, outbox, k, oid)} :: Pair(notes, outbox, k, oid)
  }

  ghost predicate EachHasOne(notes: map<Key, Note>, outbox: map<Uuid, Entry>) {
    && (forall k {:trigger notes[k]} | k in notes :: HasEntry(notes, outbox, k))
    && (forall oid {:trigger outbox[oid]} | oid in outbox :: HasNote(notes, outbox, oid))
  }

  ghost predicate NoneHasTwo(notes: map<Key, Note>, outbox: map<Uuid, Entry>) {
    && (forall k, a, b {:trigger Pair(notes, outbox, k, a), Pair(notes, outbox, k, b)} |
          Pair(notes, outbox, k, a) && Pair(notes, outbox, k, b) :: a == b)
    && (forall j, k, a {:trigger Pair(notes, outbox, j, a), Pair(notes, outbox, k, a)} |
          Pair(notes, outbox, j, a) && Pair(notes, outbox, k, a) :: j == k)
  }

  /** Every notification has exactly one outbox row and every outbox row exactly one notification, of the same
      citizen. */
  ghost predicate Bijection(notes: map<Key, Note>, outbox: map<Uuid, Entry>) {
    EachHasOne(notes, outbox) && NoneHasTwo(notes, outbox)
  }

  ghost predicate AnswersOk(s: State) {
    forall k: Key {:trigger s.answered[k]} :: s.answered[k] + s.unanswered[k] == if k in s.tables.notes then 1 else 0
  }

  ghost predicate Inv(mk: Maker, s: State) {
    && s.tables == DeliverAll(mk, s.history)
    && RowIds(s.tables) <= s.used
    && TxsOk(s)
    && Bijection(s.tables.notes, s.tables.outbox)
    && AnswersOk(s)
  }
}
