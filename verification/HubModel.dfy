/** What the in-process hub delivers, with Dispatch taken as one step (internal/wsbus/hub.go, client.go). */
module HubModel {
  import opened Uuids
  import opened Messages

  const SEND_BUFFER: nat := 16

  /** One WebSocket connection. open says its send channel is not closed, pumping that its write pump still
      runs. The rest is history: what was put on the channel, what reached the socket, what a failed write
      swallowed, and the log positions of its registration and its end. */
  datatype Conn = Conn(
    citizen: Uuid,
    queue: seq<Payload>,
    open: bool,
    pumping: bool,
    enqueued: seq<Payload>,
    written: seq<Payload>,
    lost: seq<Payload>,
    joined: nat,
    left: nat)

  datatype Dispatched = Dispatched(citizen: Uuid, payload: Payload)

  /** live is the set of registered clients; log the messages dispatched while the hub was open. */
  datatype Hub<!C> = Hub(conns: map<C, Conn>, live: set<C>, closed: bool, log: seq<Dispatched>)

  function Empty<C>(): Hub<C> {
    Hub(map[], {}, false, [])
  }

  /** Client.Run: register, then start the pumps. A closed hub takes no registration. Registering again puts a client
      back in the index, whatever has become of its channel. */
  function Register<C>(h: Hub<C>, c: C, citizen: Uuid): Hub<C> {
    if c in h.conns then h.(live := if h.closed then h.live else h.live + {c})
    else
      h.(conns := h.conns[c := Conn(citizen, [], true, true, [], [], [], |h.log|, |h.log|)],
         live := if h.closed then h.live else h.live + {c})
  }

  function Unregister<C>(h: Hub<C>, c: C): Hub<C> {
    h.(live := h.live - {c})
  }

  function Ended(conn: Conn, now: nat): Conn {
    if conn.open then conn.(open := false, left := now) else conn
  }

  /** Client.shutdown: unregister and close the channel, the first time only. */
  function Shutdown<C>(h: Hub<C>, c: C): Hub<C>
    requires c in h.conns
  {
    if !h.conns[c].open then h
    else h.(conns := h.conns[c := Ended(h.conns[c], |h.log|)], live := h.live - {c})
  }

  predicate Full(conn: Conn) {
    |conn.queue| >= SEND_BUFFER
  }

  predicate Addressed<C>(h: Hub<C>, c: C, citizen: Uuid) {
    c in h.live && c in h.conns && h.conns[c].citizen == citizen
  }

  /** A message for a client: queued, or the client is dropped when its queue is full. */
  function Received(conn: Conn, payload: Payload, now: nat): Conn {
    if Full(conn) then Ended(conn, now)
    else conn.(queue := conn.queue + [payload], enqueued := conn.enqueued + [payload])
  }

  function Dispatch<C>(h: Hub<C>, citizen: Uuid, payload: Payload): Hub<C> {
    if h.closed then h
    else
      Hub(map c | c in h.conns ::
            if Addressed(h, c, citizen) then Received(h.conns[c], payload, |h.log|) else h.conns[c],
          set c | c in h.live && !(Addressed(h, c, citizen) && Full(h.conns[c])),
          false,
          h.log + [Dispatched(citizen, payload)])
  }

  /** One turn of Dispatch's loop, for one client of the snapshot. */
  function Offer<C>(h: Hub<C>, c: C, payload: Payload): Hub<C>
    requires c in h.conns
  {
    if Full(h.conns[c]) then Shutdown(h, c)
    else h.(conns := h.conns[c := Received(h.conns[c], payload, |h.log|)])
  }

  /** Dispatch's loop after the clients in `done`, before the message enters the log. */
  function Offered<C>(h: Hub<C>, done: set<C>, payload: Payload): Hub<C> {
    Hub(map c | c in h.conns :: if c in done then Received(h.conns[c], payload, |h.log|) else h.conns[c],
        (set c | c in h.live && !(c in done && c in h.conns && Full(h.conns[c]))),
        h.closed, h.log)
  }

  lemma OfferedNone<C>(h: Hub<C>, payload: Payload)
    requires h.live <= h.conns.Keys
    ensures Offered(h, {}, payload) == h
  {
  }

  lemma OfferOne<C>(h: Hub<C>, done: set<C>, c: C, payload: Payload)
    requires c in h.conns && h.conns[c].open && c !in done
    ensures Offer(Offered(h, done, payload), c, payload) == Offered(h, done + {c}, payload)
  {
  }

  lemma OfferedAll<C>(h: Hub<C>, done: set<C>, citizen: Uuid, payload: Payload)
    requires !h.closed && forall c :: c in done <==> Addressed(h, c, citizen)
    ensures Dispatch(h, citizen, payload)
            == Offered(h, done, payload).(log := h.log + [Dispatched(citizen, payload)])
  {
  }

  /** Hub.Close: every live client ends and no more are taken. */
  function Close<C>(h: Hub<C>): Hub<C> {
    if h.closed then h
    else
      Hub(map c | c in h.conns :: if c in h.live then Ended(h.conns[c], |h.log|) else h.conns[c],
          {}, true, h.log)
  }

  /** Close's loop after the clients in `done`. */
  function Ending<C>(h: Hub<C>, done: set<C>): Hub<C> {
    Hub(map c | c in h.conns :: if c in done then Ended(h.conns[c], |h.log|) else h.conns[c], {}, true, h.log)
  }

  lemma EndedNone<C>(h: Hub<C>)
    ensures Ending(h, {}) == h.(live := {}, closed := true)
  {
  }

  lemma EndingAgain<C>(h: Hub<C>, done: set<C>)
    ensures Ending(Ending(h, {}), done) == Ending(h, done)
  {
  }

  lemma EndedAll<C>(h: Hub<C>)
    requires !h.closed
    ensures Ending(h, h.live) == Close(h)
  {
  }

  lemma EndOne<C>(h: Hub<C>, done: set<C>, c: C)
    requires c in h.conns && c !in done
    ensures Shutdown(Ending(h, done), c) == Ending(h, done + {c})
  {
  }

  predicate CanWrite<C>(h: Hub<C>, c: C) {
    c in h.conns && h.conns[c].pumping && h.conns[c].queue != []
  }

  /** The write pump ends with the message it could not write. */
  function PumpFailed<C>(h: Hub<C>, c: C): Hub<C>
    requires CanWrite(h, c)
  {
    var conn := h.conns[c];
    h.(conns := h.conns[c := conn.(queue := conn.queue[1..], lost := [conn.queue[0]], pumping := false)])
  }

  /** One turn of the write pump: the oldest message reaches the socket, or the pump ends with it. */
  function Write<C>(h: Hub<C>, c: C, ok: bool): Hub<C>
    requires CanWrite(h, c)
  {
    var conn := h.conns[c];
    if ok then
      h.(conns := h.conns[c := conn.(queue := conn.queue[1..], written := conn.written + [conn.queue[0]])])
    else Shutdown(PumpFailed(h, c), c)
  }

  function PumpStopped<C>(h: Hub<C>, c: C): Hub<C>
    requires c in h.conns
  {
    h.(conns := h.conns[c := h.conns[c].(pumping := false)])
  }

  /** The write pump ends on a failed ping or on a closed and drained channel. */
  function StopPump<C>(h: Hub<C>, c: C): Hub<C>
    requires c in h.conns
  {
    Shutdown(PumpStopped(h, c), c)
  }

  datatype Event<!C> =
    | DoRegister(c: C, citizen: Uuid)
    | DoDispatch(citizen: Uuid, payload: Payload)
    | DoShutdown(c: C)
    | DoWrite(c: C, ok: bool)
    | DoStopPump(c: C)
    | DoClose

  predicate Enabled<C>(h: Hub<C>, e: Event<C>) {
    match e
    case DoRegister(c, _) => c in h.conns ==> c in h.live || h.closed
    case DoShutdown(c) => c in h.conns
    case DoWrite(c, _) => CanWrite(h, c)
    case DoStopPump(c) => c in h.conns && h.conns[c].pumping
    case _ => true
  }

  function Apply<C>(h: Hub<C>, e: Event<C>): Hub<C>
    requires Enabled(h, e)
  {
    match e
    case DoRegister(c, citizen) => Register(h, c, citizen)
    case DoDispatch(citizen, payload) => Dispatch(h, citizen, payload)
    case DoShutdown(c) => Shutdown(h, c)
    case DoWrite(c, ok) => Write(h, c, ok)
    case DoStopPump(c) => StopPump(h, c)
    case DoClose => Close(h)
  }

  // ---- what a client gets ----

  /** The messages of a log that are for one citizen, in order. */
  function For(citizen: Uuid, log: seq<Dispatched>): seq<Payload> {
    if log == [] then []
    else
      For(citizen, log[..|log| - 1]) +
      (if log[|log| - 1].citizen == citizen then [log[|log| - 1].payload] else [])
  }

  /** The part of the log a client was registered for. */
  function Segment<C>(h: Hub<C>, c: C): seq<Dispatched>
    requires c in h.conns && h.conns[c].joined <= h.conns[c].left <= |h.log|
  {
    h.log[h.conns[c].joined..if c in h.live then |h.log| else h.conns[c].left]
  }

  ghost predicate ConnOk<C>(h: Hub<C>, c: C)
    requires c in h.conns
  {
    var conn := h.conns[c];
    && |conn.queue| <= SEND_BUFFER
    && conn.written + conn.lost + conn.queue == conn.enqueued
    && |conn.lost| <= 1 && (conn.lost != [] ==> !conn.pumping)
    && conn.joined <= conn.left <= |h.log|
    && conn.enqueued == For(conn.citizen, Segment(h, c))
    && (c in h.live ==> conn.open)
    && (conn.open && c !in h.live ==> h.closed && conn.left == |h.log|)
  }

  ghost predicate Inv<C>(h: Hub<C>) {
    && h.live <= h.conns.Keys
    && (h.closed ==> h.live == {})
    && forall c {:trigger ConnOk(h, c)} | c in h.conns :: ConnOk(h, c)
  }

  lemma ForExtend(citizen: Uuid, log: seq<Dispatched>, d: Dispatched)
    ensures For(citizen, log + [d]) == For(citizen, log) + if d.citizen == citizen then [d.payload] else []
  {
    assert (log + [d])[..|log|] == log;
  }

  lemma RegisterInv<C>(h: Hub<C>, c: C, citizen: Uuid)
    requires Inv(h) && (c in h.conns ==> c in h.live || h.closed)
    ensures Inv(Register(h, c, citizen))
  {
    var t := Register(h, c, citizen);
    forall x | x in t.conns ensures ConnOk(t, x) {
      if x in h.conns { assert ConnOk(h, x); }
    }
  }

  /** Run registers a client once. Registering it again is harmless exactly while it is registered or the hub is closed:
      a client that has ended would be back in the index with a closed channel, for the next Dispatch to send on. */
  lemma RegisterAgainIff<C>(h: Hub<C>, c: C, citizen: Uuid)
    requires Inv(h) && c in h.conns
    ensures Inv(Register(h, c, citizen)) <==> c in h.live || h.closed
    ensures !(c in h.live || h.closed) ==>
              c in Register(h, c, citizen).live && !Register(h, c, citizen).conns[c].open
  {
    assert ConnOk(h, c);
    if c in h.live || h.closed {
      RegisterInv(h, c, citizen);
    } else {
      assert !ConnOk(Register(h, c, citizen), c);
    }
  }

  lemma ShutdownInv<C>(h: Hub<C>, c: C)
    requires Inv(h) && c in h.conns
    ensures Inv(Shutdown(h, c))
  {
    var t := Shutdown(h, c);
    forall x | x in t.conns ensures ConnOk(t, x) {
      assert ConnOk(h, x);
      assert Segment(t, x) == Segment(h, x);
    }
  }

  lemma DispatchConn<C>(h: Hub<C>, citizen: Uuid, payload: Payload, x: C)
    requires Inv(h) && !h.closed && x in h.conns
    ensures ConnOk(Dispatch(h, citizen, payload), x)
  {
    var t := Dispatch(h, citizen, payload);
    assert ConnOk(h, x);
    DispatchSegment(h, citizen, payload, x);
    if Addressed(h, x, citizen) && !Full(h.conns[x]) {
      ReceivedQueue(h.conns[x], payload);
    }
  }

  lemma ReceivedQueue(conn: Conn, payload: Payload)
    requires conn.written + conn.lost + conn.queue == conn.enqueued
    ensures conn.written + conn.lost + (conn.queue + [payload]) == conn.enqueued + [payload]
  {
  }

  /** A dispatch lengthens the segment of the clients that stay registered, by the message if it is theirs. */
  lemma DispatchSegment<C>(h: Hub<C>, citizen: Uuid, payload: Payload, x: C)
    requires !h.closed && x in h.conns && ConnOk(h, x)
    ensures var t := Dispatch(h, citizen, payload);
            && t.conns[x].joined <= t.conns[x].left <= |t.log|
            && For(h.conns[x].citizen, Segment(t, x))
               == For(h.conns[x].citizen, Segment(h, x))
                  + if Addressed(h, x, citizen) && !Full(h.conns[x]) then [payload] else []
  {
    var t := Dispatch(h, citizen, payload);
    var d := Dispatched(citizen, payload);
    assert ConnOk(h, x);
    var from := h.conns[x].joined;
    assert t.conns[x].joined == from;
    if x in t.live {
      SliceGrows(h.log, d, from);
      ForExtend(h.conns[x].citizen, h.log[from..], d);
    } else {
      assert t.conns[x].left == if x in h.live then |h.log| else h.conns[x].left;
      SliceStays(h.log, d, from, t.conns[x].left);
    }
  }

  lemma SliceGrows<T>(log: seq<T>, d: T, from: nat)
    requires from <= |log|
    ensures (log + [d])[from..|log + [d]|] == log[from..] + [d] && log[from..] == log[from..|log|]
  {
  }

  lemma SliceStays<T>(log: seq<T>, d: T, from: nat, to: nat)
    requires from <= to <= |log|
    ensures (log + [d])[from..to] == log[from..to]
  {
  }

  lemma CloseInv<C>(h: Hub<C>)
    requires Inv(h)
    ensures Inv(Close(h))
  {
    var t := Close(h);
    forall x | x in t.conns ensures ConnOk(t, x) {
      assert ConnOk(h, x);
      assert Segment(t, x) == Segment(h, x);
    }
  }

  lemma WriteInv<C>(h: Hub<C>, c: C, ok: bool)
    requires Inv(h) && CanWrite(h, c)
    ensures Inv(Write(h, c, ok))
  {
    assert ConnOk(h, c);
    var next := Popped(h.conns[c], ok);
    PumpInv(h, c, next);
    if !ok {
      ShutdownInv(h.(conns := h.conns[c := next]), c);
    }
  }

  lemma Popped(conn: Conn, ok: bool) returns (next: Conn)
    requires conn.queue != [] && conn.lost == []
    requires conn.written + conn.lost + conn.queue == conn.enqueued
    ensures next == if ok then conn.(queue := conn.queue[1..], written := conn.written + [conn.queue[0]])
                    else conn.(queue := conn.queue[1..], lost := [conn.queue[0]], pumping := false)
    ensures next.written + next.lost + next.queue == next.enqueued
  {
    next := if ok then conn.(queue := conn.queue[1..], written := conn.written + [conn.queue[0]])
            else conn.(queue := conn.queue[1..], lost := [conn.queue[0]], pumping := false);
    assert conn.queue == [conn.queue[0]] + conn.queue[1..];
  }

  lemma PumpInv<C>(h: Hub<C>, c: C, next: Conn)
    requires Inv(h) && c in h.conns
    requires var conn := h.conns[c];
             && next.citizen == conn.citizen && next.open == conn.open && next.enqueued == conn.enqueued
             && next.joined == conn.joined && next.left == conn.left && |next.queue| <= |conn.queue|
             && next.written + next.lost + next.queue == next.enqueued
             && |next.lost| <= 1 && (next.lost != [] ==> !next.pumping)
    ensures Inv(h.(conns := h.conns[c := next]))
  {
    var t := h.(conns := h.conns[c := next]);
    forall x | x in t.conns ensures ConnOk(t, x) {
      assert ConnOk(h, x);
    }
  }

  lemma StepInv<C>(h: Hub<C>, e: Event<C>)
    requires Inv(h) && Enabled(h, e)
    ensures Inv(Apply(h, e))
  {
    match e
    case DoRegister(c, citizen) => RegisterInv(h, c, citizen);
    case DoDispatch(citizen, payload) =>
      if !h.closed {
        forall x | x in Dispatch(h, citizen, payload).conns ensures ConnOk(Dispatch(h, citizen, payload), x) {
          DispatchConn(h, citizen, payload, x);
        }
      }
    case DoShutdown(c) => ShutdownInv(h, c);
    case DoWrite(c, ok) => WriteInv(h, c, ok);
    case DoStopPump(c) =>
      assert ConnOk(h, c);
      PumpInv(h, c, h.conns[c].(pumping := false));
      ShutdownInv(h.(conns := h.conns[c := h.conns[c].(pumping := false)]), c);
    case DoClose => CloseInv(h);
  }

  // ---- runs ----

  ghost predicate ValidRun<C>(h: Hub<C>, es: seq<Event<C>>)
    decreases |es|
  {
    es == [] || (Enabled(h, es[0]) && ValidRun(Apply(h, es[0]), es[1..]))
  }

  ghost function Run<C>(h: Hub<C>, es: seq<Event<C>>): Hub<C>
    requires ValidRun(h, es)
    decreases |es|
  {
    if es == [] then h else Run(Apply(h, es[0]), es[1..])
  }

  lemma {:induction false} RunInv<C>(h: Hub<C>, es: seq<Event<C>>)
    requires Inv(h) && ValidRun(h, es)
    ensures Inv(Run(h, es))
    decreases |es|
  {
    if es != [] {
      StepInv(h, es[0]);
      RunInv(Apply(h, es[0]), es[1..]);
    }
  }

  /** Delivery: in every run, what was queued for a client is the gap-free segment of its citizen's dispatch log from
      its registration to its end; at most 16 messages wait; what reached its socket is a prefix of it, followed
      by at most one message lost to a failed write and then the messages still waiting. */
  lemma Delivery<C>(es: seq<Event<C>>, c: C)
    requires ValidRun(Empty<C>(), es) && c in Run(Empty<C>(), es).conns
    ensures var h := Run(Empty<C>(), es);
            var conn := h.conns[c];
            && conn.joined <= conn.left <= |h.log|
            && conn.enqueued == For(conn.citizen, h.log[conn.joined..if c in h.live then |h.log| else conn.left])
            && |conn.queue| <= 16
            && conn.written + conn.lost + conn.queue == conn.enqueued
            && |conn.lost| <= 1 && (conn.pumping ==> conn.lost == [])
            && conn.written <= conn.enqueued
  {
    RunInv(Empty<C>(), es);
    assert ConnOk(Run(Empty<C>(), es), c);
  }

  /** What a dispatch does to each client: a registered one of the citizen is queued the message if fewer than 16 wait
      and is ended otherwise, its queue as it was; nothing else changes. */
  lemma DispatchTo<C>(h: Hub<C>, citizen: Uuid, payload: Payload, c: C)
    requires Inv(h) && c in h.conns
    ensures c in Dispatch(h, citizen, payload).conns
    ensures var conn, t := h.conns[c], Dispatch(h, citizen, payload);
            if c in h.live && conn.citizen == citizen then
              if |conn.queue| < 16 then
                && c in t.live
                && t.conns[c] == conn.(queue := conn.queue + [payload], enqueued := conn.enqueued + [payload])
              else
                && |conn.queue| == 16 && c !in t.live && !t.conns[c].open
                && t.conns[c].queue == conn.queue && t.conns[c].enqueued == conn.enqueued
            else t.conns[c] == conn && (c in t.live <==> c in h.live)
  {
    assert ConnOk(h, c);
  }

  lemma {:induction false} RunSplit<C>(h: Hub<C>, es: seq<Event<C>>, i: nat)
    requires i < |es| && ValidRun(h, es)
    ensures ValidRun(h, es[..i]) && ValidRun(h, es[..i + 1]) && Enabled(Run(h, es[..i]), es[i])
    ensures Run(h, es[..i + 1]) == Apply(Run(h, es[..i]), es[i])
    decreases |es|
  {
    if i == 0 {
      assert es[..1][1..] == [];
      assert ValidRun(Apply(h, es[0]), []);
    } else {
      RunSplit(Apply(h, es[0]), es[1..], i - 1);
      assert es[..i][1..] == es[1..][..i - 1] && es[..i + 1][1..] == es[1..][..i];
    }
  }

  /** Over runs: a dispatch ends a registered client exactly if the client is the citizen's and 16 messages wait. */
  lemma EndedByDispatchIff<C>(es: seq<Event<C>>, i: nat, c: C)
    requires ValidRun(Empty<C>(), es) && i < |es| && es[i].DoDispatch?
    ensures ValidRun(Empty<C>(), es[..i]) && ValidRun(Empty<C>(), es[..i + 1])
    ensures var h, t := Run(Empty<C>(), es[..i]), Run(Empty<C>(), es[..i + 1]);
            c in h.live ==> c in h.conns && (c !in t.live <==> h.conns[c].citizen == es[i].citizen
                                                               && |h.conns[c].queue| == 16)
  {
    RunSplit(Empty<C>(), es, i);
    var h := Run(Empty<C>(), es[..i]);
    RunInv(Empty<C>(), es[..i]);
    if c in h.live { DispatchTo(h, es[i].citizen, es[i].payload, c); }
  }

  /** A closed hub stays closed and empty whatever is called on it. */
  lemma {:induction false} ClosedStaysEmpty<C>(h: Hub<C>, es: seq<Event<C>>)
    requires h.closed && h.live == {} && ValidRun(h, es)
    ensures Run(h, es).closed && Run(h, es).live == {} && Run(h, es).log == h.log
    decreases |es|
  {
    if es != [] {
      ClosedStaysEmpty(Apply(h, es[0]), es[1..]);
    }
  }

  lemma EndedStep<C>(h: Hub<C>, e: Event<C>, c: C)
    requires Enabled(h, e) && c in h.conns && !h.conns[c].open && c !in h.live
    ensures var t := Apply(h, e);
            c in t.conns && !t.conns[c].open && c !in t.live && t.conns[c].enqueued == h.conns[c].enqueued
  {
  }

  /** A client, once ended, is never registered again, and what was queued for it never changes. */
  lemma {:induction false} EndedStaysEnded<C>(h: Hub<C>, es: seq<Event<C>>, c: C)
    requires ValidRun(h, es) && c in h.conns && !h.conns[c].open && c !in h.live
    ensures c in Run(h, es).conns && !Run(h, es).conns[c].open && c !in Run(h, es).live
    ensures Run(h, es).conns[c].enqueued == h.conns[c].enqueued
    decreases |es|
  {
    if es != [] {
      EndedStep(h, es[0], c);
      EndedStaysEnded(Apply(h, es[0]), es[1..], c);
    }
  }
}
