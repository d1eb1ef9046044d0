/** End to end: what the interleaved system keeps from webhook to WebSocket. */
module PipelineTheorems {
  import opened Uuids
  import opened Messages
  import opened Channel
  import PersistTheorems
  import Services
  import Workers
  import EventPayloads
  import OutboxInvariant
  import OutboxLedger
  import opened Pipeline

  /** A payload names its notification. */
  ghost predicate NamesNotification(mk: Persist.Maker) {
    forall nid, p, now :: mk.payload(nid, p, now).notification == nid
  }

  /** The service's row maker and the workers' settings are valid parameters, and its payloads name their
      notifications. */
  lemma SettingsAreValid(read: EventPayloads.TimeReader, maxAttempts: nat, backoffBase: int)
    requires maxAttempts >= 1
    ensures ValidParams(Params(Services.MakerFor(read), Workers.Settings(maxAttempts, backoffBase)))
    ensures NamesNotification(Services.MakerFor(read))
  {
  }

  /** The workers' table read as the outbox entries of the webhook transactions. */
  function EntriesOf(rows: map<Uuid, Outbox.Row>): map<Uuid, Persist.Entry> {
    map id | id in rows ::
      Persist.Entry(rows[id].citizen, rows[id].notification, rows[id].payload, rows[id].createdAt)
  }

  /** No notification without its outbox row and no orphan outbox row, whatever the interleaving of commits,
      rollbacks and lost acknowledgements with workers publishing, marking, failing and aborting. */
  lemma NotificationsMatchRows(ps: Params, s: State)
    requires ValidParams(ps) && Reachable(ps, s)
    ensures Persist.Bijection(s.web.tables.notes, EntriesOf(s.work.rows))
  {
    ReachableInv(ps, s);
    EntriesAreOutbox(ps, s);
    PersistTheorems.NotificationsMatchOutbox(ps.mk, s.web);
  }

  /** Delivery x is committed, the person it was for and nobody else has this citizen id, and it made a notification and
      an outbox row of that citizen, of which the row carries exactly this payload. */
  ghost predicate Carries(ps: Params, s: State, citizen: Uuid, payload: Payload, id: Uuid, x: Persist.Record) {
    && x in s.web.history
    && PersistTheorems.IsPerson(s.web.tables.citizens, x.d.fingerprint, citizen)
    && id in s.work.rows && s.work.rows[id].citizen == citizen && s.work.rows[id].payload == payload
    && Persist.Pair(s.web.tables.notes, EntriesOf(s.work.rows), x.d.key, id)
    && var note := s.web.tables.notes[x.d.key];
       && note.citizen == citizen && note.content == ps.mk.content(x.d.event)
       && payload == ps.mk.payload(note.id, x.d.event, x.builtAt)
  }

  ghost predicate IsFor(ps: Params, s: State, citizen: Uuid, payload: Payload) {
    exists id: Uuid, x :: Carries(ps, s, citizen, payload, id, x)
  }

  lemma {:induction false} ForMembers(citizen: Uuid, log: seq<HubModel.Dispatched>, payload: Payload)
    requires payload in HubModel.For(citizen, log)
    ensures HubModel.Dispatched(citizen, payload) in log
    decreases |log|
  {
    var last := log[|log| - 1];
    if last != HubModel.Dispatched(citizen, payload) {
      ForMembers(citizen, log[..|log| - 1], payload);
    }
  }

  lemma EntriesAreOutbox(ps: Params, s: State)
    requires Inv(ps, s)
    ensures EntriesOf(s.work.rows) == s.web.tables.outbox
  {
    assert forall id | id in s.work.rows :: Shows(s.work.rows[id], s.web.tables.outbox[id]);
  }

  lemma RowIsFor(ps: Params, s: State, id: Uuid)
    requires ValidParams(ps) && Reachable(ps, s) && id in s.work.rows
    ensures IsFor(ps, s, s.work.rows[id].citizen, s.work.rows[id].payload)
  {
    ReachableInv(ps, s);
    EntriesAreOutbox(ps, s);
    var notes, outbox := s.web.tables.notes, s.web.tables.outbox;
    assert Shows(s.work.rows[id], outbox[id]);
    PersistTheorems.NotificationsMatchOutbox(ps.mk, s.web);
    assert Persist.HasNote(notes, outbox, id);
    var k :| Persist.Pair(notes, outbox, k, id);
    var x := PersistTheorems.OneEventEach(ps.mk, s.web, k, id);
    assert Carries(ps, s, s.work.rows[id].citizen, s.work.rows[id].payload, id, x);
  }

  /** Isolation: everything ever queued for a WebSocket client is, content and all, the payload made from a committed
      delivery for the one person who has that client's citizen id. */
  lemma Isolation(ps: Params, s: State, c: Cid, payload: Payload)
    requires ValidParams(ps) && Reachable(ps, s)
    requires c in s.hub.conns && payload in s.hub.conns[c].enqueued
    ensures IsFor(ps, s, s.hub.conns[c].citizen, payload)
  {
    ReachableInv(ps, s);
    assert HubModel.ConnOk(s.hub, c);
    var citizen := s.hub.conns[c].citizen;
    ForMembers(citizen, HubModel.Segment(s.hub, c), payload);
    var i :| 0 <= i < |s.hub.log| && s.hub.log[i] == HubModel.Dispatched(citizen, payload);
    assert CameFrom(s, i);
    var m := s.work.redis[s.from[i]];
    var reader := MessageCitizen(ps, s, m);
    ChannelInjective(reader, citizen);
    var id :| id in s.work.rows && s.work.rows[id].citizen == citizen && s.work.rows[id].payload == payload;
    RowIsFor(ps, s, id);
  }

  lemma WrittenIsFor(ps: Params, s: State, c: Cid, payload: Payload)
    requires ValidParams(ps) && Reachable(ps, s)
    requires c in s.hub.conns && payload in s.hub.conns[c].written
    ensures IsFor(ps, s, s.hub.conns[c].citizen, payload)
  {
    ReachableInv(ps, s);
    assert HubModel.ConnOk(s.hub, c);
    var conn := s.hub.conns[c];
    assert payload in conn.written + conn.lost + conn.queue;
    Isolation(ps, s, c, payload);
  }

  // ---- order ----

  ghost predicate Increasing(xs: seq<nat>) {
    forall i, j | 0 <= i < j < |xs| :: xs[i] < xs[j]
  }

  /** The messages at these positions of Redis's log are these payloads on this citizen's channel. */
  ghost predicate PublishedAt(redis: seq<Message>, citizen: Uuid, at: seq<nat>, payloads: seq<Payload>) {
    && |at| == |payloads|
    && forall i | 0 <= i < |at| :: at[i] < |redis| && redis[at[i]] == Message(CitizenChannel(citizen), payloads[i])
  }

  lemma {:induction false} FromIncreases(s: State, i: nat, j: nat)
    requires Heard(s) && i < j < |s.from|
    ensures s.from[i] < s.from[j]
    decreases j
  {
    assert CameFrom(s, j);
    if i < j - 1 { FromIncreases(s, i, j - 1); }
  }

  /** The positions of a citizen's messages within the first n dispatches after `start`. */
  lemma {:induction false} Positions(s: State, citizen: Uuid, start: nat, end: nat) returns (at: seq<nat>)
    requires Heard(s) && start <= end <= |s.from|
    ensures Increasing(at) && PublishedAt(s.work.redis, citizen, at, HubModel.For(citizen, s.hub.log[start..end]))
    ensures forall i | 0 <= i < |at| :: end > 0 && at[i] <= s.from[end - 1]
    decreases end - start
  {
    at := [];
    if start < end {
      var log := s.hub.log[start..end];
      assert log[..|log| - 1] == s.hub.log[start..end - 1];
      assert CameFrom(s, end - 1);
      at := Positions(s, citizen, start, end - 1);
      forall i | 0 <= i < |at| ensures at[i] < s.from[end - 1] {
        FromIncreases(s, end - 2, end - 1);
      }
      if s.hub.log[end - 1].citizen == citizen {
        at := at + [s.from[end - 1]];
      }
    }
  }

  /** Order: what is queued for a client is a subsequence of what was published on its citizen's channel, in the
      order of publication and no message twice. */
  lemma QueuedInPublishOrder(ps: Params, s: State, c: Cid) returns (at: seq<nat>)
    requires ValidParams(ps) && Reachable(ps, s) && c in s.hub.conns
    ensures Increasing(at) && PublishedAt(s.work.redis, s.hub.conns[c].citizen, at, s.hub.conns[c].enqueued)
  {
    ReachableInv(ps, s);
    assert HubModel.ConnOk(s.hub, c);
    var conn := s.hub.conns[c];
    at := Positions(s, conn.citizen, conn.joined, if c in s.hub.live then |s.hub.log| else conn.left);
  }

  // ---- nothing missed ----

  function OnChannel(channel: string, messages: seq<Message>): seq<Payload> {
    if messages == [] then []
    else
      OnChannel(channel, messages[..|messages| - 1]) +
      (if messages[|messages| - 1].channel == channel then [messages[|messages| - 1].payload] else [])
  }

  /** The subscriber has heard every message so far, and the hub was open for all of them. */
  ghost predicate NothingMissed(s: State) {
    s.heard == |s.from| && forall i | 0 <= i < |s.from| :: s.from[i] == i
  }

  lemma {:induction false} SameMessages(s: State, citizen: Uuid, start: nat, end: nat)
    requires Heard(s) && NothingMissed(s) && start <= end <= |s.from|
    ensures HubModel.For(citizen, s.hub.log[start..end])
            == OnChannel(CitizenChannel(citizen), s.work.redis[start..end])
    decreases end - start
  {
    if start < end {
      SliceFront(s.hub.log, start, end);
      SliceFront(s.work.redis, start, end);
      SameMessages(s, citizen, start, end - 1);
      assert CameFrom(s, end - 1);
      if CitizenChannel(s.hub.log[end - 1].citizen) == CitizenChannel(citizen) {
        ChannelInjective(s.hub.log[end - 1].citizen, citizen);
      }
    }
  }

  lemma SliceFront<T>(xs: seq<T>, start: nat, end: nat)
    requires start < end <= |xs|
    ensures xs[start..end] == xs[start..end - 1] + [xs[end - 1]]
    ensures xs[start..end][..end - start - 1] == xs[start..end - 1]
  {
  }

  /** If the subscriber missed nothing, a client's queue has received every message published on its citizen's channel
      from its registration on, until its end: none is lost on the way, none is another citizen's. */
  lemma NothingMissedNothingLost(ps: Params, s: State, c: Cid)
    requires ValidParams(ps) && Reachable(ps, s) && NothingMissed(s) && c in s.hub.conns
    ensures var conn := s.hub.conns[c];
            var end := if c in s.hub.live then s.heard else conn.left;
            && conn.joined <= end <= |s.work.redis|
            && conn.enqueued == OnChannel(CitizenChannel(conn.citizen), s.work.redis[conn.joined..end])
  {
    ReachableInv(ps, s);
    assert HubModel.ConnOk(s.hub, c);
    var conn := s.hub.conns[c];
    SameMessages(s, conn.citizen, conn.joined, if c in s.hub.live then s.heard else conn.left);
  }

  // ---- copies ----

  lemma PayloadNames(ps: Params, s: State, id: Uuid) returns (k: Persist.Key)
    requires ValidParams(ps) && Reachable(ps, s) && NamesNotification(ps.mk) && id in s.work.rows
    ensures Persist.Pair(s.web.tables.notes, s.web.tables.outbox, k, id)
    ensures s.work.rows[id].payload.notification == s.web.tables.notes[k].id
  {
    ReachableInv(ps, s);
    PersistTheorems.NotificationsMatchOutbox(ps.mk, s.web);
    EntriesAreOutbox(ps, s);
    assert Shows(s.work.rows[id], s.web.tables.outbox[id]);
    assert Persist.HasNote(s.web.tables.notes, s.web.tables.outbox, id);
    k :| Persist.Pair(s.web.tables.notes, s.web.tables.outbox, k, id);
    var x := PersistTheorems.OneEventEach(ps.mk, s.web, k, id);
  }

  predicate SameMessage(ps: Params, a: Outbox.Row, b: Outbox.Row) {
    OutboxInvariant.MessageOf(ps.cfg, a) == OutboxInvariant.MessageOf(ps.cfg, b)
  }

  /** No two outbox rows have one message. */
  lemma RowsDiffer(ps: Params, s: State, id: Uuid)
    requires ValidParams(ps) && Reachable(ps, s) && NamesNotification(ps.mk) && id in s.work.rows
    ensures OutboxLedger.OwnMessage(ps.cfg, s.work.rows, id)
  {
    var row := s.work.rows[id];
    var k := PayloadNames(ps, s, id);
    ReachableInv(ps, s);
    PersistTheorems.NotificationsMatchOutbox(ps.mk, s.web);
    forall other | other in s.work.rows && SameMessage(ps, s.work.rows[other], row) ensures other == id {
      var l := PayloadNames(ps, s, other);
      ChannelInjective(s.work.rows[other].citizen, row.citizen);
      assert Shows(s.work.rows[other], s.web.tables.outbox[other]) && Shows(row, s.web.tables.outbox[id]);
      assert Persist.Pair(s.web.tables.notes, s.web.tables.outbox, k, other);
    }
  }

  /** Some run of the workers explains the state and bounds the copies of a row's message in Redis's log: by the row's
      marks, the aborted batches that had published it, and an open one. */
  lemma CopiesInRedis(ps: Params, s: State, id: Uuid) returns (es: seq<Outbox.Event>)
    requires ValidParams(ps) && Reachable(ps, s) && NamesNotification(ps.mk) && id in s.work.rows
    ensures Outbox.ValidRun(ps.cfg, Outbox.Init, es) && Outbox.Run(ps.cfg, Outbox.Init, es) == s.work
    ensures multiset(s.work.redis)[OutboxInvariant.MessageOf(ps.cfg, s.work.rows[id])]
            <= OutboxLedger.Marks(s.work.rows[id]) + OutboxLedger.Aborted(ps.cfg, Outbox.Init, es, id)
               + OutboxLedger.OpenTry(s.work, id)
  {
    ReachableInv(ps, s);
    es :| Outbox.ValidRun(ps.cfg, Outbox.Init, es) && Outbox.Run(ps.cfg, Outbox.Init, es) == s.work;
    RowsDiffer(ps, s, id);
    OutboxLedger.CopiesBounded(ps.cfg, es, id);
  }
}
