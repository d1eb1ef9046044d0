/** The whole path of an event: webhook transactions, the outbox with its workers, Redis, the subscriber and the hub,
    all stepping in any interleaving (internal/webhook, internal/notify, internal/wsbus). */
module Pipeline {
  import opened Wrappers
  import opened Uuids
  import opened Messages
  import opened Channel
  import Outbox
  import OutboxInvariant
  import OutboxSteps
  import OutboxTheorems
  import Persist
  import PersistProofs
  import HubModel

  type Cid = nat

  /** `heard` is how far in Redis's log the subscriber has come; `from` is a history: for each message the hub has
      dispatched, its position in that log. */
  datatype State = State(
    web: Persist.State,
    work: Outbox.State,
    hub: HubModel.Hub<Cid>,
    heard: nat,
    from: seq<nat>)

  const Init: State := State(Persist.Init, Outbox.Init, HubModel.Empty<Cid>(), 0, [])

  datatype Event =
    | Web(p: Persist.Event)
    | Work(o: Outbox.Event)
    | Ws(h: HubModel.Event<Cid>)
    | Forward(i: nat)

  datatype Params = Params(mk: Persist.Maker, cfg: Outbox.Config)

  /** Channels are named by CitizenChannel. */
  ghost predicate ValidParams(ps: Params) {
    && Outbox.ValidConfig(ps.cfg)
    && (forall citizen: Uuid :: ps.cfg.channel(citizen) == CitizenChannel(citizen))
  }

  /** Outbox rows come only from webhook commits, dispatches only from the subscriber, and a webhook transaction
      takes its time from the shared clock. The subscriber may miss messages, but hears them in order. */
  predicate Enabled(s: State, e: Event) {
    match e
    case Web(p) => Persist.Enabled(s.web, p) && (p.Start? ==> p.at == s.work.clock)
    case Work(o) => Outbox.Enabled(s.work, o) && !o.Insert?
    case Ws(h) => HubModel.Enabled(s.hub, h) && !h.DoDispatch?
    case Forward(i) => s.heard <= i < |s.work.redis|
  }

  /** The commit that makes a new outbox row visible to the workers. */
  predicate Publishes(s: State, p: Persist.Event)
    requires Persist.Enabled(s.web, p)
  {
    (p.Commit? || p.CommitAckLost?) && s.web.txs[p.r].WithOutbox?
  }

  function InsertOf(mk: Persist.Maker, tx: Persist.Tx): Outbox.Event
    requires tx.WithOutbox?
  {
    Outbox.Insert(tx.oid, tx.citizen, tx.nid, mk.payload(tx.nid, tx.d.event, tx.builtAt), tx.at)
  }

  /** runOnce: a message on a channel that names no citizen is skipped. */
  function Forwarded(s: State, i: nat): State
    requires i < |s.work.redis|
  {
    var m := s.work.redis[i];
    match ParseCitizenChannel(m.channel)
    case None => s.(heard := i + 1)
    case Some(citizen) =>
      s.(hub := HubModel.Dispatch(s.hub, citizen, m.payload),
         heard := i + 1,
         from := if s.hub.closed then s.from else s.from + [i])
  }

  ghost function Apply(ps: Params, s: State, e: Event): State
    requires Enabled(s, e)
    requires e.Web? && Publishes(s, e.p) ==> Outbox.Enabled(s.work, InsertOf(ps.mk, s.web.txs[e.p.r]))
  {
    match e
    case Web(p) =>
      s.(web := Persist.Apply(ps.mk, s.web, p),
         work := if Publishes(s, p) then Outbox.Apply(ps.cfg, s.work, InsertOf(ps.mk, s.web.txs[p.r])) else s.work)
    case Work(o) => s.(work := Outbox.Apply(ps.cfg, s.work, o))
    case Ws(h) => s.(hub := HubModel.Apply(s.hub, h))
    case Forward(i) => Forwarded(s, i)
  }

  // ---- invariant ----

  ghost predicate Shows(r: Outbox.Row, x: Persist.Entry) {
    r.citizen == x.citizen && r.notification == x.notification && r.payload == x.payload && r.createdAt == x.createdAt
  }

  /** The workers' table holds the committed outbox rows, whatever the workers have done to their status. */
  ghost predicate Linked(rows: map<Uuid, Outbox.Row>, outbox: map<Uuid, Persist.Entry>) {
    && rows.Keys == outbox.Keys
    && forall id {:trigger rows[id]} {:trigger outbox[id]} | id in rows :: Shows(rows[id], outbox[id])
  }

  ghost predicate StartedBefore(txs: map<Persist.RequestId, Persist.Tx>, clock: int) {
    forall r {:trigger txs[r]} | r in txs :: txs[r].at <= clock
  }

  ghost predicate CameFrom(s: State, i: nat)
    requires i < |s.hub.log| && i < |s.from|
  {
    && s.from[i] < s.heard <= |s.work.redis|
    && s.work.redis[s.from[i]] == Message(CitizenChannel(s.hub.log[i].citizen), s.hub.log[i].payload)
    && (i > 0 ==> s.from[i - 1] < s.from[i])
  }

  ghost predicate Heard(s: State) {
    && |s.from| == |s.hub.log| && s.heard <= |s.work.redis|
    && forall i: nat {:trigger CameFrom(s, i)} | i < |s.from| :: CameFrom(s, i)
  }

  ghost predicate Inv(ps: Params, s: State) {
    && Persist.Reachable(ps.mk, s.web)
    && Outbox.Reachable(ps.cfg, s.work)
    && HubModel.Inv(s.hub)
    && Linked(s.work.rows, s.web.tables.outbox)
    && StartedBefore(s.web.txs, s.work.clock)
    && Heard(s)
  }

  // ---- the steps keep it ----

  /** A transaction that commits a new outbox row can insert it in the workers' table. */
  lemma CommitInserts(ps: Params, s: State, p: Persist.Event)
    requires Inv(ps, s) && Persist.Enabled(s.web, p) && Publishes(s, p)
    ensures Outbox.Enabled(s.work, InsertOf(ps.mk, s.web.txs[p.r]))
  {
    PersistProofs.ReachableInv(ps.mk, s.web);
    assert Persist.DrawnOk(s.web, s.web.txs[p.r]);
    assert s.web.txs[p.r].at <= s.work.clock;
  }

  lemma TxsAfter(mk: Persist.Maker, s: Persist.State, p: Persist.Event, clock: int)
    requires Persist.Enabled(s, p) && StartedBefore(s.txs, clock) && (p.Start? ==> p.at <= clock)
    ensures StartedBefore(Persist.Apply(mk, s, p).txs, clock)
  {
  }

  lemma TablesAfter(mk: Persist.Maker, s: Persist.State, p: Persist.Event)
    requires Persist.Enabled(s, p)
    ensures var t := Persist.Apply(mk, s, p);
            if (p.Commit? || p.CommitAckLost?) && s.txs[p.r].WithOutbox? then
              var tx := s.txs[p.r];
              t.tables.outbox == s.tables.outbox[tx.oid := Persist.EntryOf(mk, Persist.RecordOf(tx), tx.citizen)]
            else t.tables.outbox == s.tables.outbox
  {
  }

  lemma WebInv(ps: Params, s: State, p: Persist.Event)
    requires ValidParams(ps) && Inv(ps, s) && Enabled(s, Web(p))
    ensures Publishes(s, p) ==> Outbox.Enabled(s.work, InsertOf(ps.mk, s.web.txs[p.r]))
    ensures Inv(ps, Apply(ps, s, Web(p)))
  {
    Persist.ReachableStep(ps.mk, s.web, p);
    TxsAfter(ps.mk, s.web, p, s.work.clock);
    TablesAfter(ps.mk, s.web, p);
    if Publishes(s, p) {
      CommitInserts(ps, s, p);
      Outbox.ReachableStep(ps.cfg, s.work, InsertOf(ps.mk, s.web.txs[p.r]));
    }
    var t := Apply(ps, s, Web(p));
    assert t.work.redis == s.work.redis;
    StillHeard(s, t);
  }

  lemma StillHeard(s: State, t: State)
    requires Heard(s) && t.hub.log == s.hub.log && t.from == s.from && t.heard == s.heard
    requires s.work.redis <= t.work.redis
    ensures Heard(t)
  {
    forall i: nat | i < |t.from| ensures CameFrom(t, i) {
      assert CameFrom(s, i);
    }
  }

  lemma RedisGrows(cfg: Outbox.Config, s: Outbox.State, o: Outbox.Event)
    requires Outbox.Enabled(s, o)
    ensures s.redis <= Outbox.Apply(cfg, s, o).redis && s.clock <= Outbox.Apply(cfg, s, o).clock
  {
  }

  lemma WorkInv(ps: Params, s: State, o: Outbox.Event)
    requires ValidParams(ps) && Inv(ps, s) && Enabled(s, Work(o))
    ensures Inv(ps, Apply(ps, s, Work(o)))
  {
    var t := Apply(ps, s, Work(o));
    RedisGrows(ps.cfg, s.work, o);
    Outbox.ReachableStep(ps.cfg, s.work, o);
    OutboxSteps.ReachableInv(ps.cfg, s.work);
    OutboxTheorems.StepRows(ps.cfg, s.work, o);
    forall id | id in t.work.rows ensures Shows(t.work.rows[id], t.web.tables.outbox[id]) {
      assert Shows(s.work.rows[id], s.web.tables.outbox[id]);
      assert OutboxTheorems.SameIdentity(s.work.rows[id], t.work.rows[id]);
    }
    StillHeard(s, t);
  }

  lemma LogStays(h: HubModel.Hub<Cid>, e: HubModel.Event<Cid>)
    requires HubModel.Enabled(h, e) && !e.DoDispatch?
    ensures HubModel.Apply(h, e).log == h.log
  {
  }

  lemma WsInv(ps: Params, s: State, h: HubModel.Event<Cid>)
    requires Inv(ps, s) && Enabled(s, Ws(h))
    ensures Inv(ps, Apply(ps, s, Ws(h)))
  {
    HubModel.StepInv(s.hub, h);
    LogStays(s.hub, h);
    StillHeard(s, Apply(ps, s, Ws(h)));
  }

  lemma ForwardInv(ps: Params, s: State, i: nat)
    requires ValidParams(ps) && Inv(ps, s) && Enabled(s, Forward(i))
    ensures Inv(ps, Apply(ps, s, Forward(i)))
  {
    var t := Apply(ps, s, Forward(i));
    var m := s.work.redis[i];
    var citizen := MessageCitizen(ps, s, m);
    HubModel.StepInv(s.hub, HubModel.DoDispatch(citizen, m.payload));
    assert t.hub == HubModel.Dispatch(s.hub, citizen, m.payload);
    forall j: nat | j < |t.from| ensures CameFrom(t, j) {
      if j < |s.from| { assert CameFrom(s, j); }
      if |s.from| == j && j > 0 { assert CameFrom(s, j - 1); }
    }
  }

  /** Every message of Redis's log is on the channel of its row's citizen, and the subscriber reads that citizen. */
  lemma MessageCitizen(ps: Params, s: State, m: Message) returns (citizen: Uuid)
    requires ValidParams(ps) && Outbox.Reachable(ps.cfg, s.work) && m in s.work.redis
    ensures m.channel == CitizenChannel(citizen) && ParseCitizenChannel(m.channel) == Some(citizen)
    ensures exists id :: id in s.work.rows && s.work.rows[id].citizen == citizen && s.work.rows[id].payload == m.payload
  {
    OutboxSteps.ReachableInv(ps.cfg, s.work);
    assert OutboxInvariant.FromRow(ps.cfg, s.work.rows, m);
    var id :| id in s.work.rows && m == OutboxInvariant.MessageOf(ps.cfg, s.work.rows[id]);
    citizen := s.work.rows[id].citizen;
    ChannelRoundTrip(citizen);
  }

  lemma StepInv(ps: Params, s: State, e: Event)
    requires ValidParams(ps) && Inv(ps, s) && Enabled(s, e)
    ensures e.Web? && Publishes(s, e.p) ==> Outbox.Enabled(s.work, InsertOf(ps.mk, s.web.txs[e.p.r]))
    ensures Inv(ps, Apply(ps, s, e))
  {
    match e
    case Web(p) => WebInv(ps, s, p);
    case Work(o) => WorkInv(ps, s, o);
    case Ws(h) => WsInv(ps, s, h);
    case Forward(i) => ForwardInv(ps, s, i);
  }

  // ---- runs ----

  ghost predicate CanStep(ps: Params, s: State, e: Event) {
    && Enabled(s, e)
    && (e.Web? && Publishes(s, e.p) ==> Outbox.Enabled(s.work, InsertOf(ps.mk, s.web.txs[e.p.r])))
  }

  ghost predicate ValidRun(ps: Params, s: State, es: seq<Event>)
    decreases |es|
  {
    es == [] || (CanStep(ps, s, es[0]) && ValidRun(ps, Apply(ps, s, es[0]), es[1..]))
  }

  ghost function Run(ps: Params, s: State, es: seq<Event>): State
    requires ValidRun(ps, s, es)
    decreases |es|
  {
    if es == [] then s else Run(ps, Apply(ps, s, es[0]), es[1..])
  }

  /** The workers' table never stands in the way of a webhook commit. */
  lemma CommitsAreFree(ps: Params, es: seq<Event>, e: Event)
    requires ValidParams(ps) && ValidRun(ps, Init, es)
    ensures CanStep(ps, Run(ps, Init, es), e) <==> Enabled(Run(ps, Init, es), e)
  {
    InitInv(ps);
    RunInv(ps, Init, es);
    if Enabled(Run(ps, Init, es), e) { StepInv(ps, Run(ps, Init, es), e); }
  }

  lemma InitInv(ps: Params)
    ensures Inv(ps, Init)
  {
    assert Persist.ValidRun(ps.mk, Persist.Init, []) && Persist.Run(ps.mk, Persist.Init, []) == Persist.Init;
    assert Outbox.ValidRun(ps.cfg, Outbox.Init, []) && Outbox.Run(ps.cfg, Outbox.Init, []) == Outbox.Init;
  }

  lemma {:induction false} RunInv(ps: Params, s: State, es: seq<Event>)
    requires ValidParams(ps) && Inv(ps, s) && ValidRun(ps, s, es)
    ensures Inv(ps, Run(ps, s, es))
    decreases |es|
  {
    if es != [] {
      StepInv(ps, s, es[0]);
      RunInv(ps, Apply(ps, s, es[0]), es[1..]);
    }
  }

  ghost predicate Reachable(ps: Params, s: State) {
    exists es :: ValidRun(ps, Init, es) && Run(ps, Init, es) == s
  }

  lemma ReachableInv(ps: Params, s: State)
    requires ValidParams(ps) && Reachable(ps, s)
    ensures Inv(ps, s)
  {
    var es :| ValidRun(ps, Init, es) && Run(ps, Init, es) == s;
    InitInv(ps);
    RunInv(ps, Init, es);
  }
}
