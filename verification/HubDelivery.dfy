/** What the interleaved goroutines deliver, with one goroutine dispatching: HubSteps with the contents of the channels
    (internal/wsbus/hub.go, lines 51-71; internal/notify/subscriber.go, lines 47-73). */
module HubDelivery {
  import opened Wrappers
  import opened Uuids
  import opened Messages
  import HubModel
  import opened HubSteps
  import HubStepProofs

  /** A client's channel. received is what its write pump has taken from it; joined and end are positions in the
      dispatch log: of its registration, and after the last dispatch that was queued for it. */
  datatype Box = Box(queue: seq<Payload>, enqueued: seq<Payload>, received: seq<Payload>, joined: nat, end: nat)

  /** log lists the dispatches whose snapshot was taken while the hub was open; offer is what the dispatcher is
      dispatching. */
  datatype Hub = Hub(steps: State, log: seq<HubModel.Dispatched>, boxes: map<Cid, Box>, offer: Payload)

  function Start(offer: Payload): Hub {
    Hub(Init, [], map[], offer)
  }

  /** A step; a call of Dispatch comes with its payload. */
  datatype Act = Act(e: Event, payload: Payload)

  /** Only goroutine d calls Dispatch: the subscriber's receive loop. */
  predicate CanAct(h: Hub, d: Gid, a: Act) {
    Enabled(h.steps, a.e) && (a.e.CallDispatch? ==> a.e.g == d)
  }

  function Queued(b: Box, payload: Payload, end: nat): Box {
    b.(queue := b.queue + [payload], enqueued := b.enqueued + [payload], end := end)
  }

  function Taken(b: Box): Box {
    if b.queue == [] then b else b.(queue := b.queue[1..], received := b.received + [b.queue[0]])
  }

  function BoxesAfter(h: Hub, e: Event): map<Cid, Box>
    requires Enabled(h.steps, e)
  {
    match e
    case Lock(g) =>
      (match PcOf(h.steps, g)
       case RegisterWait(c) => h.boxes[c := Box([], [], [], |h.log|, |h.log|)]
       case _ => h.boxes)
    case Offer(g, c) =>
      var conn := h.steps.conns[c];
      if c in h.boxes && conn.closes == 0 && conn.queue < HubModel.SEND_BUFFER then
        h.boxes[c := Queued(h.boxes[c], h.offer, |h.log|)]
      else h.boxes
    case Receive(c) => if c in h.boxes then h.boxes[c := Taken(h.boxes[c])] else h.boxes
    case _ => h.boxes
  }

  function LogAfter(h: Hub, e: Event): seq<HubModel.Dispatched>
    requires Enabled(h.steps, e)
  {
    if e.RLock? && !h.steps.closed then h.log + [HubModel.Dispatched(PcOf(h.steps, e.g).citizen, h.offer)] else h.log
  }

  function Perform(h: Hub, d: Gid, a: Act): Hub
    requires CanAct(h, d, a)
  {
    Hub(Apply(h.steps, a.e), LogAfter(h, a.e), BoxesAfter(h, a.e), if a.e.CallDispatch? then a.payload else h.offer)
  }

  // ---- invariant ----

  /** The clients a dispatching goroutine has yet to offer its message to. */
  function Todo(p: Pc): set<Cid> {
    match p
    case DispatchHold(todo, _) => todo
    case Sending(todo, _) => todo
    case Shutdown(_, _, NextMessage(todo, _)) => todo
    case _ => {}
  }

  /** Those, and the one it is dropping. */
  function Busy(p: Pc): set<Cid> {
    if p.Shutdown? && p.after.NextMessage? then Todo(p) + {p.c} else Todo(p)
  }

  predicate Dispatches(p: Pc) {
    p.DispatchWait? || p.DispatchHold? || p.Sending? || (p.Shutdown? && p.after.NextMessage?)
  }

  ghost predicate OneDispatcher(s: State, d: Gid) {
    forall g: Gid {:trigger PcOf(s, g)} :: Dispatches(PcOf(s, g)) ==> g == d
  }

  /** What was queued for a client is the gap-free segment of its citizen's dispatches from its registration on. */
  ghost predicate BoxOk(h: Hub, c: Cid)
    requires c in h.boxes && c in h.steps.conns
  {
    var b, conn := h.boxes[c], h.steps.conns[c];
    && conn.added && |b.queue| == conn.queue && b.received + b.queue == b.enqueued
    && b.joined <= b.end <= |h.log|
    && b.enqueued == HubModel.For(conn.citizen, h.log[b.joined..b.end])
  }

  /** Nothing has been dispatched for a registered client since, unless the dispatcher is not done with it. */
  ghost predicate UpToDate(h: Hub, c: Cid)
    requires c in h.boxes && c in h.steps.conns
  {
    h.boxes[c].end <= |h.log| && HubModel.For(h.steps.conns[c].citizen, h.log[h.boxes[c].end..]) == []
  }

  /** The last dispatch is for this client, and the only one it has not been offered. */
  ghost predicate OneBehind(h: Hub, c: Cid)
    requires c in h.boxes && c in h.steps.conns
  {
    var citizen, n := h.steps.conns[c].citizen, |h.log|;
    && h.boxes[c].end < n && h.log[n - 1] == HubModel.Dispatched(citizen, h.offer)
    && HubModel.For(citizen, h.log[h.boxes[c].end..n - 1]) == []
  }

  ghost predicate BoxesOk(h: Hub) {
    && h.boxes.Keys <= h.steps.conns.Keys
    && (forall c {:trigger h.boxes[c]} {:trigger h.steps.conns[c]} | c in h.steps.conns ::
          h.steps.conns[c].added <==> c in h.boxes)
    && (forall c {:trigger BoxOk(h, c)} | c in h.boxes :: BoxOk(h, c))
  }

  ghost predicate TimelyOk(h: Hub, d: Gid) {
    && (forall c {:trigger UpToDate(h, c)} {:trigger c in h.steps.live} | c in h.steps.live
          && !PcOf(h.steps, d).Panicked? && c !in Busy(PcOf(h.steps, d)) ::
          c in h.boxes && c in h.steps.conns && UpToDate(h, c))
    && (forall c {:trigger OneBehind(h, c)} {:trigger c in Todo(PcOf(h.steps, d))} | c in Todo(PcOf(h.steps, d)) ::
          c in h.boxes && c in h.steps.conns && OneBehind(h, c))
  }

  ghost predicate DeliveryInv(h: Hub, d: Gid) {
    Inv(h.steps) && OneDispatcher(h.steps, d) && BoxesOk(h) && TimelyOk(h, d)
  }

  // ---- sequences of dispatches ----

  lemma {:induction false} ForAppend(citizen: Uuid, a: seq<HubModel.Dispatched>, b: seq<HubModel.Dispatched>)
    ensures HubModel.For(citizen, a + b) == HubModel.For(citizen, a) + HubModel.For(citizen, b)
    decreases |b|
  {
    if b == [] {
      assert a + b == a;
    } else {
      assert (a + b)[..|a + b| - 1] == a + b[..|b| - 1];
      ForAppend(citizen, a, b[..|b| - 1]);
    }
  }

  /** A longer log changes nothing about an older segment. */
  lemma LogKeeps(log: seq<HubModel.Dispatched>, x: HubModel.Dispatched, from: nat, to: nat)
    requires from <= to <= |log|
    ensures (log + [x])[from..to] == log[from..to]
  {
  }

  /** It adds to an open one what the last dispatch is. */
  lemma LogGrows(log: seq<HubModel.Dispatched>, x: HubModel.Dispatched, from: nat, citizen: Uuid)
    requires from <= |log|
    ensures HubModel.For(citizen, (log + [x])[from..])
            == HubModel.For(citizen, log[from..]) + if x.citizen == citizen then [x.payload] else []
  {
    assert (log + [x])[from..] == log[from..] + [x];
    HubModel.ForExtend(citizen, log[from..], x);
  }

  /** The segment up to now, when all it has since is the last dispatch. */
  lemma SegmentCloses(log: seq<HubModel.Dispatched>, joined: nat, end: nat, citizen: Uuid, payload: Payload)
    requires joined <= end < |log| && log[|log| - 1] == HubModel.Dispatched(citizen, payload)
    requires HubModel.For(citizen, log[end..|log| - 1]) == []
    ensures HubModel.For(citizen, log[joined..|log|]) == HubModel.For(citizen, log[joined..end]) + [payload]
  {
    var last := log[|log| - 1];
    assert log[joined..|log|] == log[joined..end] + log[end..|log| - 1] + [last];
    ForAppend(citizen, log[joined..end], log[end..|log| - 1]);
    HubModel.ForExtend(citizen, log[joined..end] + log[end..|log| - 1], last);
  }

  // ---- steps that change neither channels nor the log ----

  ghost predicate SameClients(s: State, t: State) {
    && s.conns.Keys <= t.conns.Keys
    && (forall c {:trigger t.conns[c]} {:trigger s.conns[c]} | c in s.conns ::
          t.conns[c].citizen == s.conns[c].citizen && t.conns[c].added == s.conns[c].added
          && t.conns[c].queue == s.conns[c].queue)
    && (forall c {:trigger t.conns[c]} | c in t.conns && c !in s.conns :: !t.conns[c].added)
  }

  lemma QuietStep(h: Hub, t: Hub, d: Gid)
    requires DeliveryInv(h, d) && Inv(t.steps) && OneDispatcher(t.steps, d)
    requires t.boxes == h.boxes && t.log == h.log && SameClients(h.steps, t.steps) && t.steps.live <= h.steps.live
    requires Todo(PcOf(t.steps, d)) <= Todo(PcOf(h.steps, d))
    requires t.offer == h.offer || Todo(PcOf(t.steps, d)) == {}
    requires PcOf(h.steps, d).Panicked? ==> PcOf(t.steps, d).Panicked?
    requires !PcOf(t.steps, d).Panicked? ==>
               forall c | c in t.steps.live && c in Busy(PcOf(h.steps, d)) :: c in Busy(PcOf(t.steps, d))
    ensures DeliveryInv(t, d)
  {
    forall c | c in t.boxes ensures BoxOk(t, c) { assert BoxOk(h, c); }
    forall c | c in t.steps.live && !PcOf(t.steps, d).Panicked? && c !in Busy(PcOf(t.steps, d))
      ensures c in t.boxes && c in t.steps.conns && UpToDate(t, c)
    {
      assert UpToDate(h, c);
    }
    forall c | c in Todo(PcOf(t.steps, d)) ensures c in t.boxes && c in t.steps.conns && OneBehind(t, c) {
      assert OneBehind(h, c);
    }
  }

  lemma StaysOneDispatcher(s: State, d: Gid, e: Event)
    requires OneDispatcher(s, d) && Enabled(s, e) && (e.CallDispatch? ==> e.g == d)
    ensures OneDispatcher(Apply(s, e), d)
  {
    var t := Apply(s, e);
    forall g: Gid | Dispatches(PcOf(t, g)) ensures g == d {
      if Actor(e) != Some(g) { assert PcOf(t, g) == PcOf(s, g); }
      assert Dispatches(PcOf(s, g)) || e.CallDispatch?;
    }
  }

  /** A client the dispatcher has just finished dropping is no longer registered. */
  lemma DroppedIsGone(s: State, e: Event)
    requires Inv(s) && Enabled(s, e) && (e.EndOnce? || (e.Once? && s.conns[PcOf(s, e.g).c].once.Done?))
    ensures PcOf(s, e.g).c !in s.live
  {
    assert PcOk(s, e.g, PcOf(s, e.g));
    assert ConnOk(s, PcOf(s, e.g).c);
  }

  lemma OtherStays(s: State, e: Event, d: Gid)
    requires Enabled(s, e) && Actor(e) != Some(d)
    ensures PcOf(Apply(s, e), d) == PcOf(s, d)
  {
  }

  predicate IsPlain(e: Event) {
    e.CallClose? || e.CallShutdown? || e.Unlock? || e.EndNext? || e.LoopDone? || e.CloseSend?
  }

  /** Calls, unlocks, loop turns of Close, returns: no client's channel is touched. */
  lemma PlainStep(h: Hub, d: Gid, a: Act)
    requires DeliveryInv(h, d) && CanAct(h, d, a) && IsPlain(a.e)
    ensures DeliveryInv(Perform(h, d, a), d)
  {
    HubStepProofs.StepInv(h.steps, a.e);
    StaysOneDispatcher(h.steps, d, a.e);
    if a.e.g != d { OtherStays(h.steps, a.e, d); } else { PlainKeepsBusy(h.steps, a.e); }
    PlainKeepsClients(h.steps, a.e);
    QuietStep(h, Perform(h, d, a), d);
  }

  lemma PlainKeepsBusy(s: State, e: Event)
    requires Enabled(s, e) && IsPlain(e)
    ensures Todo(PcOf(Apply(s, e), e.g)) == Todo(PcOf(s, e.g)) && Busy(PcOf(Apply(s, e), e.g)) == Busy(PcOf(s, e.g))
    ensures !PcOf(s, e.g).Panicked?
  {
  }

  lemma PlainKeepsClients(s: State, e: Event)
    requires Enabled(s, e) && IsPlain(e)
    ensures SameClients(s, Apply(s, e)) && Apply(s, e).live == s.live
  {
  }

  lemma CallStep(h: Hub, d: Gid, a: Act)
    requires DeliveryInv(h, d) && CanAct(h, d, a) && (a.e.CallDispatch? || a.e.CallRegister?)
    ensures DeliveryInv(Perform(h, d, a), d)
  {
    HubStepProofs.StepInv(h.steps, a.e);
    StaysOneDispatcher(h.steps, d, a.e);
    if a.e.g != d { OtherStays(h.steps, a.e, d); }
    QuietStep(h, Perform(h, d, a), d);
  }

  /** Entering and leaving a once. */
  lemma OnceStep(h: Hub, d: Gid, a: Act)
    requires DeliveryInv(h, d) && CanAct(h, d, a) && (a.e.Once? || a.e.EndOnce?)
    ensures DeliveryInv(Perform(h, d, a), d)
  {
    HubStepProofs.StepInv(h.steps, a.e);
    StaysOneDispatcher(h.steps, d, a.e);
    if a.e.g != d { OtherStays(h.steps, a.e, d); } else { OnceKeepsBusy(h.steps, a.e); }
    OnceKeepsClients(h.steps, a.e);
    QuietStep(h, Perform(h, d, a), d);
  }

  lemma OnceKeepsBusy(s: State, e: Event)
    requires Inv(s) && Enabled(s, e) && (e.Once? || e.EndOnce?)
    ensures Todo(PcOf(Apply(s, e), e.g)) == Todo(PcOf(s, e.g)) && !PcOf(s, e.g).Panicked?
    ensures forall c | c in s.live && c in Busy(PcOf(s, e.g)) :: c in Busy(PcOf(Apply(s, e), e.g))
  {
    if e.EndOnce? || s.conns[PcOf(s, e.g).c].once.Done? { DroppedIsGone(s, e); }
  }

  lemma OnceKeepsClients(s: State, e: Event)
    requires Enabled(s, e) && (e.Once? || e.EndOnce?)
    ensures SameClients(s, Apply(s, e)) && Apply(s, e).live == s.live
  {
  }

  lemma LockStep(h: Hub, d: Gid, a: Act)
    requires DeliveryInv(h, d) && CanAct(h, d, a) && a.e.Lock?
    ensures DeliveryInv(Perform(h, d, a), d)
  {
    var t := Perform(h, d, a);
    HubStepProofs.StepInv(h.steps, a.e);
    StaysOneDispatcher(h.steps, d, a.e);
    if a.e.g != d { OtherStays(h.steps, a.e, d); }
    if PcOf(h.steps, a.e.g).RegisterWait? {
      NewBox(h, t, d, a);
    } else {
      QuietStep(h, t, d);
    }
  }

  /** A newly registered client starts here, with nothing queued. */
  lemma NewBox(h: Hub, t: Hub, d: Gid, a: Act)
    requires DeliveryInv(h, d) && CanAct(h, d, a) && a.e.Lock? && PcOf(h.steps, a.e.g).RegisterWait?
    requires t == Perform(h, d, a) && Inv(t.steps) && OneDispatcher(t.steps, d)
    ensures DeliveryInv(t, d)
  {
    var c := PcOf(h.steps, a.e.g).c;
    assert PcOk(h.steps, a.e.g, PcOf(h.steps, a.e.g));
    assert ConnOk(h.steps, c);
    NewBoxes(h, t, c);
    NewTimely(h, t, d, c);
  }

  lemma NewBoxes(h: Hub, t: Hub, c: Cid)
    requires BoxesOk(h) && c in h.steps.conns && !h.steps.conns[c].added && h.steps.conns[c].queue == 0
    requires t.log == h.log && t.boxes == h.boxes[c := Box([], [], [], |h.log|, |h.log|)]
    requires t.steps.conns == h.steps.conns[c := h.steps.conns[c].(added := true)]
    ensures BoxesOk(t)
  {
    assert h.log[|h.log|..|h.log|] == [];
    forall x | x in t.boxes ensures BoxOk(t, x) {
      if x != c { assert BoxOk(h, x); }
    }
  }

  lemma NewTimely(h: Hub, t: Hub, d: Gid, c: Cid)
    requires TimelyOk(h, d) && c in h.steps.conns && c !in h.boxes && t.log == h.log && t.offer == h.offer
    requires t.boxes == h.boxes[c := Box([], [], [], |h.log|, |h.log|)] && t.steps.live <= h.steps.live + {c}
    requires t.steps.conns == h.steps.conns[c := h.steps.conns[c].(added := true)]
    requires Todo(PcOf(t.steps, d)) == Todo(PcOf(h.steps, d)) && Busy(PcOf(t.steps, d)) == Busy(PcOf(h.steps, d))
    requires PcOf(t.steps, d).Panicked? == PcOf(h.steps, d).Panicked?
    ensures TimelyOk(t, d)
  {
    assert h.log[|h.log|..] == [];
    forall x | x in t.steps.live && !PcOf(t.steps, d).Panicked? && x !in Busy(PcOf(t.steps, d))
      ensures x in t.boxes && x in t.steps.conns && UpToDate(t, x)
    {
      if x != c { assert UpToDate(h, x); }
    }
    forall x | x in Todo(PcOf(t.steps, d)) ensures x in t.boxes && x in t.steps.conns && OneBehind(t, x) {
      assert OneBehind(h, x);
    }
  }

  /** The write pump takes the oldest message. */
  lemma ReceiveStep(h: Hub, d: Gid, a: Act)
    requires DeliveryInv(h, d) && CanAct(h, d, a) && a.e.Receive?
    ensures DeliveryInv(Perform(h, d, a), d)
  {
    var t := Perform(h, d, a);
    var c := a.e.c;
    HubStepProofs.StepInv(h.steps, a.e);
    StaysOneDispatcher(h.steps, d, a.e);
    ReceiveBoxes(h, t, c);
    KeepsTimely(h, t, d);
  }

  lemma ReceiveBoxes(h: Hub, t: Hub, c: Cid)
    requires BoxesOk(h) && Inv(h.steps) && Enabled(h.steps, Receive(c)) && t.log == h.log
    requires t.steps == Apply(h.steps, Receive(c)) && t.boxes == BoxesAfter(h, Receive(c))
    ensures BoxesOk(t) && c in h.boxes
  {
    assert ConnOk(h.steps, c);
    assert BoxOk(h, c);
    TakenKeeps(h.boxes[c]);
    forall x | x in t.boxes ensures BoxOk(t, x) {
      if x != c { assert BoxOk(h, x); }
    }
  }

  lemma TakenKeeps(b: Box)
    requires b.queue != []
    ensures Taken(b).received + Taken(b).queue == b.received + b.queue && |Taken(b).queue| == |b.queue| - 1
  {
  }

  /** A step that leaves log, registrations and the dispatcher's place alone, and moves no segment's end. */
  lemma KeepsTimely(h: Hub, t: Hub, d: Gid)
    requires TimelyOk(h, d) && t.log == h.log && t.offer == h.offer && t.steps.live == h.steps.live
    requires PcOf(t.steps, d) == PcOf(h.steps, d)
    requires t.boxes.Keys == h.boxes.Keys && t.steps.conns.Keys == h.steps.conns.Keys
    requires forall c {:trigger t.boxes[c]} | c in h.boxes && c in h.steps.conns ::
               t.boxes[c].end == h.boxes[c].end && t.steps.conns[c].citizen == h.steps.conns[c].citizen
    ensures TimelyOk(t, d)
  {
    forall c | c in t.steps.live && !PcOf(t.steps, d).Panicked? && c !in Busy(PcOf(t.steps, d))
      ensures c in t.boxes && c in t.steps.conns && UpToDate(t, c)
    {
      assert UpToDate(h, c);
    }
    forall c | c in Todo(PcOf(t.steps, d)) ensures c in t.boxes && c in t.steps.conns && OneBehind(t, c) {
      assert OneBehind(h, c);
    }
  }

  /** A dispatch takes its snapshot: its message enters the log, and the clients found are one behind. */
  lemma SnapshotStep(h: Hub, d: Gid, a: Act)
    requires DeliveryInv(h, d) && CanAct(h, d, a) && a.e.RLock?
    ensures DeliveryInv(Perform(h, d, a), d)
  {
    var t := Perform(h, d, a);
    HubStepProofs.StepInv(h.steps, a.e);
    StaysOneDispatcher(h.steps, d, a.e);
    assert Dispatches(PcOf(h.steps, a.e.g));
    assert a.e.g == d;
    if h.steps.closed {
      QuietStep(h, t, d);
    } else {
      var x := HubModel.Dispatched(PcOf(h.steps, d).citizen, h.offer);
      assert t.log == h.log + [x];
      forall c | c in t.boxes ensures BoxOk(t, c) {
        assert BoxOk(h, c);
        LogKeeps(h.log, x, h.boxes[c].joined, h.boxes[c].end);
      }
      SnapshotTimely(h, t, d, x);
    }
  }

  lemma SnapshotTimely(h: Hub, t: Hub, d: Gid, x: HubModel.Dispatched)
    requires TimelyOk(h, d) && !h.steps.closed && PcOf(h.steps, d).DispatchWait?
    requires x == HubModel.Dispatched(PcOf(h.steps, d).citizen, h.offer) && t.log == h.log + [x] && t.offer == h.offer
    requires t.boxes == h.boxes && t.steps.conns == h.steps.conns && t.steps.live == h.steps.live
    requires PcOf(t.steps, d).DispatchHold? && PcOf(t.steps, d).todo == Found(h.steps, PcOf(h.steps, d).citizen)
    ensures TimelyOk(t, d)
  {
    forall c | c in t.steps.live && c !in Busy(PcOf(t.steps, d))
      ensures c in t.boxes && c in t.steps.conns && UpToDate(t, c)
    {
      assert UpToDate(h, c);
      LogGrows(h.log, x, h.boxes[c].end, h.steps.conns[c].citizen);
    }
    forall c | c in Todo(PcOf(t.steps, d)) ensures c in t.boxes && c in t.steps.conns && OneBehind(t, c) {
      assert c in h.steps.live && UpToDate(h, c);
      assert t.log[h.boxes[c].end..|t.log| - 1] == h.log[h.boxes[c].end..];
    }
  }

  /** The dispatcher offers its message: queued, dropped for want of room, or a panic on a closed channel. */
  lemma OfferStep(h: Hub, d: Gid, a: Act)
    requires DeliveryInv(h, d) && CanAct(h, d, a) && a.e.Offer?
    ensures DeliveryInv(Perform(h, d, a), d)
  {
    var t := Perform(h, d, a);
    var c := a.e.c;
    HubStepProofs.StepInv(h.steps, a.e);
    StaysOneDispatcher(h.steps, d, a.e);
    assert Dispatches(PcOf(h.steps, a.e.g));
    assert a.e.g == d;
    assert c in Todo(PcOf(h.steps, d)) && OneBehind(h, c);
    var conn := h.steps.conns[c];
    if conn.closes == 0 && conn.queue < HubModel.SEND_BUFFER {
      OfferBoxes(h, t, d, c);
      OfferTimely(h, t, d, c);
    } else {
      QuietStep(h, t, d);
    }
  }

  lemma OfferBoxes(h: Hub, t: Hub, d: Gid, c: Cid)
    requires BoxesOk(h) && c in h.boxes && c in h.steps.conns && OneBehind(h, c) && t.log == h.log
    requires t.boxes == h.boxes[c := Queued(h.boxes[c], h.offer, |h.log|)]
    requires var conn := h.steps.conns[c]; t.steps.conns == h.steps.conns[c := conn.(queue := conn.queue + 1)]
    ensures BoxesOk(t)
  {
    assert BoxOk(h, c);
    SegmentCloses(h.log, h.boxes[c].joined, h.boxes[c].end, h.steps.conns[c].citizen, h.offer);
    QueuedKeeps(h.boxes[c], h.offer, |h.log|);
    forall x | x in t.boxes ensures BoxOk(t, x) {
      if x != c { assert BoxOk(h, x); }
    }
  }

  lemma QueuedKeeps(b: Box, payload: Payload, end: nat)
    requires b.received + b.queue == b.enqueued
    ensures Queued(b, payload, end).received + Queued(b, payload, end).queue == b.enqueued + [payload]
  {
  }

  lemma OfferTimely(h: Hub, t: Hub, d: Gid, c: Cid)
    requires TimelyOk(h, d) && t.log == h.log && t.offer == h.offer && t.steps.live == h.steps.live
    requires PcOf(h.steps, d).Sending? && c in Todo(PcOf(h.steps, d))
    requires PcOf(t.steps, d) == Sending(PcOf(h.steps, d).todo - {c}, PcOf(h.steps, d).since)
    requires c in h.boxes && c in h.steps.conns && t.boxes == h.boxes[c := Queued(h.boxes[c], h.offer, |h.log|)]
    requires t.steps.conns.Keys == h.steps.conns.Keys
    requires forall x {:trigger t.steps.conns[x]} | x in h.steps.conns ::
               t.steps.conns[x].citizen == h.steps.conns[x].citizen
    ensures TimelyOk(t, d)
  {
    forall x | x in t.steps.live && x !in Busy(PcOf(t.steps, d))
      ensures x in t.boxes && x in t.steps.conns && UpToDate(t, x)
    {
      if x == c { assert t.log[|t.log|..] == []; } else { assert UpToDate(h, x); }
    }
    forall x | x in Todo(PcOf(t.steps, d)) ensures x in t.boxes && x in t.steps.conns && OneBehind(t, x) {
      assert OneBehind(h, x);
    }
  }

  lemma ActInv(h: Hub, d: Gid, a: Act)
    requires DeliveryInv(h, d) && CanAct(h, d, a)
    ensures DeliveryInv(Perform(h, d, a), d)
  {
    match a.e
    case CallRegister(_, _, _) => CallStep(h, d, a);
    case CallDispatch(_, _) => CallStep(h, d, a);
    case Receive(_) => ReceiveStep(h, d, a);
    case Lock(_) => LockStep(h, d, a);
    case RLock(_) => SnapshotStep(h, d, a);
    case Offer(_, _) => OfferStep(h, d, a);
    case Once(_) => OnceStep(h, d, a);
    case EndOnce(_) => OnceStep(h, d, a);
    case _ => PlainStep(h, d, a);
  }

  // ---- runs ----

  ghost predicate ValidActs(h: Hub, d: Gid, acts: seq<Act>)
    decreases |acts|
  {
    acts == [] || (CanAct(h, d, acts[0]) && ValidActs(Perform(h, d, acts[0]), d, acts[1..]))
  }

  ghost function PerformAll(h: Hub, d: Gid, acts: seq<Act>): Hub
    requires ValidActs(h, d, acts)
    decreases |acts|
  {
    if acts == [] then h else PerformAll(Perform(h, d, acts[0]), d, acts[1..])
  }

  lemma {:induction false} ActsInv(h: Hub, d: Gid, acts: seq<Act>)
    requires DeliveryInv(h, d) && ValidActs(h, d, acts)
    ensures DeliveryInv(PerformAll(h, d, acts), d)
    decreases |acts|
  {
    if acts != [] {
      ActInv(h, d, acts[0]);
      ActsInv(Perform(h, d, acts[0]), d, acts[1..]);
    }
  }

  /** Delivery with every shutdown, registration and close interleaved with the one dispatcher's loop: what was queued
      for a client is the gap-free segment of its citizen's dispatches from its registration to some point; that point
      is the present as long as the client is registered and the dispatcher, not panicked, is not busy with it; at
      most 16 messages wait, and what its write pump has received is what came before them. */
  lemma InterleavedDelivery(d: Gid, offer: Payload, acts: seq<Act>, c: Cid)
    requires ValidActs(Start(offer), d, acts) && c in PerformAll(Start(offer), d, acts).boxes
    ensures var h := PerformAll(Start(offer), d, acts);
            var b := h.boxes[c];
            && c in h.steps.conns && b.joined <= b.end <= |h.log|
            && b.enqueued == HubModel.For(h.steps.conns[c].citizen, h.log[b.joined..b.end])
            && b.received + b.queue == b.enqueued && |b.queue| <= 16
            && (c in h.steps.live && !PcOf(h.steps, d).Panicked? && c !in Busy(PcOf(h.steps, d)) ==>
                  b.enqueued == HubModel.For(h.steps.conns[c].citizen, h.log[b.joined..]))
  {
    ActsInv(Start(offer), d, acts);
    DeliveredSoFar(PerformAll(Start(offer), d, acts), d, c);
  }

  lemma DeliveredSoFar(h: Hub, d: Gid, c: Cid)
    requires DeliveryInv(h, d) && c in h.boxes
    ensures var b := h.boxes[c];
            && c in h.steps.conns && b.joined <= b.end <= |h.log|
            && b.enqueued == HubModel.For(h.steps.conns[c].citizen, h.log[b.joined..b.end])
            && b.received + b.queue == b.enqueued && |b.queue| <= 16
            && (c in h.steps.live && !PcOf(h.steps, d).Panicked? && c !in Busy(PcOf(h.steps, d)) ==>
                  b.enqueued == HubModel.For(h.steps.conns[c].citizen, h.log[b.joined..]))
  {
    assert BoxOk(h, c);
    assert ConnOk(h.steps, c);
    if c in h.steps.live && !PcOf(h.steps, d).Panicked? && c !in Busy(PcOf(h.steps, d)) {
      assert UpToDate(h, c);
      OpenSegment(h.log, h.boxes[c].joined, h.boxes[c].end, h.steps.conns[c].citizen);
    }
  }

  lemma OpenSegment(log: seq<HubModel.Dispatched>, joined: nat, end: nat, citizen: Uuid)
    requires joined <= end <= |log| && HubModel.For(citizen, log[end..]) == []
    ensures HubModel.For(citizen, log[joined..]) == HubModel.For(citizen, log[joined..end])
  {
    assert log[joined..] == log[joined..end] + log[end..];
    ForAppend(citizen, log[joined..end], log[end..]);
  }
}
