/** The hub's goroutines step by step: what its mutex, the clients' onces and their channels allow
    (internal/wsbus/hub.go, internal/wsbus/client.go).

    A step is one lock or unlock, one turn of a loop, one entry to or exit from a once, or one channel operation.
    A goroutine is whoever calls Run, Dispatch, Close or, from a pump, shutdown. */
module HubSteps {
  import opened Wrappers
  import opened Uuids
  import HubModel

  type Gid = nat
  type Cid = nat

  datatype Once = Fresh | RunningBy(g: Gid) | Done

  /** queue counts the messages waiting; closes, closer and closedAt are histories of close(c.send). `runner` is the
      goroutine in Run, `added` says Register has been through its critical section, `running` that it returned. */
  datatype Conn = Conn(
    citizen: Uuid,
    runner: Gid,
    added: bool,
    running: bool,
    queue: nat,
    once: Once,
    closes: nat,
    closer: Gid,
    closedAt: nat)

  /** Where shutdown was called from: a pump, Dispatch's loop or Close's loop. */
  datatype After =
    | Return
    | NextMessage(messageTodo: set<Cid>, since: nat)
    | NextClient(clientTodo: set<Cid>)

  datatype Stage = AtOnce | WaitLock | Removing | Closing | HangingUp

  datatype Pc =
    | Idle
    | RegisterWait(c: Cid)
    | RegisterHold(c: Cid)
    | DispatchWait(citizen: Uuid)
    | DispatchHold(todo: set<Cid>, since: nat)
    | Sending(todo: set<Cid>, since: nat)
    | CloseWait
    | CloseHold(todo: set<Cid>)
    | Ending(todo: set<Cid>)
    | Shutdown(c: Cid, stage: Stage, after: After)
    | Panicked(c: Cid)

  datatype Event =
    | CallRegister(g: Gid, c: Cid, citizen: Uuid)
    | CallDispatch(g: Gid, citizen: Uuid)
    | CallClose(g: Gid)
    | CallShutdown(g: Gid, c: Cid)
    | Receive(c: Cid)
    | Lock(g: Gid)
    | RLock(g: Gid)
    | Unlock(g: Gid)
    | Offer(g: Gid, c: Cid)
    | EndNext(g: Gid, c: Cid)
    | LoopDone(g: Gid)
    | Once(g: Gid)
    | CloseSend(g: Gid, c: Cid)
    | EndOnce(g: Gid)

  /** live is the flat set of registered clients (TwoLevel relates it to the nested maps); log is the history of all
      steps taken. */
  datatype State = State(
    conns: map<Cid, Conn>,
    live: set<Cid>,
    closed: bool,
    writer: Option<Gid>,
    readers: set<Gid>,
    at: map<Gid, Pc>,
    log: seq<Event>)

  const Init: State := State(map[], {}, false, None, {}, map[], [])

  function PcOf(s: State, g: Gid): Pc {
    if g in s.at then s.at[g] else Idle
  }

  predicate WantsWrite(p: Pc) {
    p.RegisterWait? || p.CloseWait? || (p.Shutdown? && p.stage.WaitLock?)
  }

  predicate HoldsWrite(p: Pc) {
    p.RegisterHold? || p.CloseHold? || (p.Shutdown? && p.stage.Removing?)
  }

  predicate Enabled(s: State, e: Event) {
    match e
    case CallRegister(g, c, _) => PcOf(s, g).Idle? && c !in s.conns
    case CallDispatch(g, _) => PcOf(s, g).Idle?
    case CallClose(g) => PcOf(s, g).Idle?
    case CallShutdown(g, c) => PcOf(s, g).Idle? && c in s.conns && s.conns[c].running
    case Receive(c) => c in s.conns && s.conns[c].queue > 0
    case Lock(g) =>
      WantsWrite(PcOf(s, g)) && s.writer.None? && s.readers == {} &&
      (PcOf(s, g).RegisterWait? ==> PcOf(s, g).c in s.conns)
    case RLock(g) => PcOf(s, g).DispatchWait? && s.writer.None?
    case Unlock(g) => HoldsWrite(PcOf(s, g)) || PcOf(s, g).DispatchHold?
    case Offer(g, c) => PcOf(s, g).Sending? && c in PcOf(s, g).todo && c in s.conns
    case EndNext(g, c) => PcOf(s, g).Ending? && c in PcOf(s, g).todo
    case LoopDone(g) => (PcOf(s, g).Sending? || PcOf(s, g).Ending?) && PcOf(s, g).todo == {}
    case Once(g) =>
      var p := PcOf(s, g);
      p.Shutdown? && p.stage.AtOnce? && p.c in s.conns && !s.conns[p.c].once.RunningBy?
    case CloseSend(g, c) =>
      var p := PcOf(s, g);
      p.Shutdown? && p.stage.Closing? && p.c == c && c in s.conns
    case EndOnce(g) =>
      var p := PcOf(s, g);
      p.Shutdown? && p.stage.HangingUp? && p.c in s.conns
  }

  function Goto(s: State, g: Gid, p: Pc): State {
    s.(at := s.at[g := p])
  }

  function Resume(after: After): Pc {
    match after
    case Return => Idle
    case NextMessage(todo, since) => Sending(todo, since)
    case NextClient(todo) => Ending(todo)
  }

  /** What the goroutine does under the write lock, on getting it. */
  function Locked(s: State, g: Gid): State
    requires WantsWrite(PcOf(s, g)) && (PcOf(s, g).RegisterWait? ==> PcOf(s, g).c in s.conns)
  {
    match PcOf(s, g)
    case RegisterWait(c) =>
      Goto(s, g, RegisterHold(c))
        .(live := if s.closed then s.live else s.live + {c},
          conns := s.conns[c := s.conns[c].(added := true)])
    case CloseWait =>
      if s.closed then Goto(s, g, CloseHold({}))
      else Goto(s, g, CloseHold(s.live)).(closed := true, live := {})
    case Shutdown(c, _, after) => Goto(s, g, Shutdown(c, Removing, after)).(live := s.live - {c})
  }

  function Found(s: State, citizen: Uuid): set<Cid> {
    if s.closed then {} else set c | c in s.live && c in s.conns && s.conns[c].citizen == citizen
  }

  function Unlocked(s: State, g: Gid): State
    requires HoldsWrite(PcOf(s, g)) || PcOf(s, g).DispatchHold?
  {
    match PcOf(s, g)
    case RegisterHold(c) =>
      Goto(s, g, Idle).(conns := if c in s.conns then s.conns[c := s.conns[c].(running := true)] else s.conns)
    case DispatchHold(todo, since) => Goto(s, g, Sending(todo, since))
    case CloseHold(todo) => Goto(s, g, Ending(todo))
    case Shutdown(c, _, after) => Goto(s, g, Shutdown(c, Closing, after))
  }

  /** select: a send on a closed channel panics, even with a default branch. */
  function Offered(s: State, g: Gid, c: Cid): State
    requires PcOf(s, g).Sending? && c in s.conns
  {
    var p := PcOf(s, g);
    var conn := s.conns[c];
    if conn.closes > 0 then Goto(s, g, Panicked(c))
    else if conn.queue < HubModel.SEND_BUFFER then
      Goto(s, g, Sending(p.todo - {c}, p.since)).(conns := s.conns[c := conn.(queue := conn.queue + 1)])
    else Goto(s, g, Shutdown(c, AtOnce, NextMessage(p.todo - {c}, p.since)))
  }

  function Acted(s: State, e: Event): State
    requires Enabled(s, e)
  {
    match e
    case CallRegister(g, c, citizen) =>
      Goto(s, g, RegisterWait(c))
        .(conns := s.conns[c := Conn(citizen, g, false, false, 0, Fresh, 0, 0, 0)])
    case CallDispatch(g, citizen) => Goto(s, g, DispatchWait(citizen))
    case CallClose(g) => Goto(s, g, CloseWait)
    case CallShutdown(g, c) => Goto(s, g, Shutdown(c, AtOnce, Return))
    case Receive(c) => s.(conns := s.conns[c := s.conns[c].(queue := s.conns[c].queue - 1)])
    case Lock(g) => Locked(s, g).(writer := Some(g))
    case RLock(g) =>
      Goto(s, g, DispatchHold(Found(s, PcOf(s, g).citizen), |s.log|)).(readers := s.readers + {g})
    case Unlock(g) =>
      if PcOf(s, g).DispatchHold? then Unlocked(s, g).(readers := s.readers - {g})
      else Unlocked(s, g).(writer := None)
    case Offer(g, c) => Offered(s, g, c)
    case EndNext(g, c) => Goto(s, g, Shutdown(c, AtOnce, NextClient(PcOf(s, g).todo - {c})))
    case LoopDone(g) => Goto(s, g, Idle)
    case Once(g) =>
      var p := PcOf(s, g);
      if s.conns[p.c].once.Done? then Goto(s, g, Resume(p.after))
      else
        Goto(s, g, Shutdown(p.c, WaitLock, p.after))
          .(conns := s.conns[p.c := s.conns[p.c].(once := RunningBy(g))])
    case CloseSend(g, c) =>
      Goto(s, g, Shutdown(c, HangingUp, PcOf(s, g).after))
        .(conns := s.conns[c := s.conns[c].(closes := s.conns[c].closes + 1, closer := g, closedAt := |s.log|)])
    case EndOnce(g) =>
      var p := PcOf(s, g);
      Goto(s, g, Resume(p.after)).(conns := s.conns[p.c := s.conns[p.c].(once := Done)])
  }

  function Apply(s: State, e: Event): State
    requires Enabled(s, e)
  {
    Acted(s, e).(log := s.log + [e])
  }

  function Actor(e: Event): Option<Gid> {
    if e.Receive? then None else Some(e.g)
  }

  // ---- runs ----

  ghost predicate ValidRun(s: State, es: seq<Event>)
    decreases |es|
  {
    es == [] || (Enabled(s, es[0]) && ValidRun(Apply(s, es[0]), es[1..]))
  }

  ghost function Run(s: State, es: seq<Event>): State
    requires ValidRun(s, es)
    decreases |es|
  {
    if es == [] then s else Run(Apply(s, es[0]), es[1..])
  }

  /** The log is the run. */
  lemma {:induction false} LogIsRun(s: State, es: seq<Event>)
    requires ValidRun(s, es)
    ensures Run(s, es).log == s.log + es
    decreases |es|
  {
    if es == [] {
      assert s.log + es == s.log;
    } else {
      LogIsRun(Apply(s, es[0]), es[1..]);
      Regroup(s.log, es);
    }
  }

  lemma Regroup(log: seq<Event>, es: seq<Event>)
    requires es != []
    ensures log + [es[0]] + es[1..] == log + es
  {
  }

  // ---- invariant ----

  ghost predicate InTodo(s: State, g: Gid, since: nat, c: Cid) {
    && c in s.conns && s.conns[c].added
    && (s.conns[c].closes > 0 ==> s.conns[c].closer != g && s.conns[c].closedAt > since)
  }

  /** A snapshot Dispatch took: none of its clients was closed then, and none has been closed by this goroutine. */
  ghost predicate SnapshotOk(s: State, g: Gid, todo: set<Cid>, since: nat) {
    && since < |s.log| && s.log[since] == RLock(g)
    && forall c {:trigger InTodo(s, g, since, c)} {:trigger c in todo} | c in todo :: InTodo(s, g, since, c)
  }

  ghost predicate AllAdded(s: State, todo: set<Cid>) {
    forall c {:trigger c in todo} | c in todo :: c in s.conns && s.conns[c].added
  }

  ghost predicate AfterOk(s: State, g: Gid, c: Cid, after: After) {
    match after
    case Return => true
    case NextMessage(todo, since) => c !in todo && SnapshotOk(s, g, todo, since)
    case NextClient(todo) => AllAdded(s, todo)
  }

  ghost predicate ShutdownOk(s: State, g: Gid, c: Cid, stage: Stage) {
    && c in s.conns && s.conns[c].added
    && (!stage.AtOnce? ==>
          && s.conns[c].once == RunningBy(g)
          && s.conns[c].closes == (if stage.HangingUp? then 1 else 0)
          && (!stage.WaitLock? ==> c !in s.live))
  }

  ghost predicate PcOk(s: State, g: Gid, p: Pc) {
    match p
    case RegisterWait(c) => c in s.conns && s.conns[c].runner == g && !s.conns[c].added
    case RegisterHold(c) => c in s.conns && s.conns[c].added
    case DispatchHold(todo, since) => SnapshotOk(s, g, todo, since)
    case Sending(todo, since) => SnapshotOk(s, g, todo, since)
    case CloseHold(todo) => AllAdded(s, todo)
    case Ending(todo) => AllAdded(s, todo)
    case Shutdown(c, stage, after) => ShutdownOk(s, g, c, stage) && AfterOk(s, g, c, after)
    case _ => true
  }

  ghost predicate InsideOnce(p: Pc, c: Cid) {
    p.Shutdown? && p.c == c && !p.stage.AtOnce?
  }

  ghost predicate ConnOk(s: State, c: Cid)
    requires c in s.conns
  {
    var conn := s.conns[c];
    && conn.queue <= HubModel.SEND_BUFFER
    && conn.closes <= 1
    && (conn.closes == 1 ==>
          c !in s.live && conn.closedAt < |s.log| && s.log[conn.closedAt] == CloseSend(conn.closer, c))
    && (!conn.added ==> c !in s.live && conn.once.Fresh? && conn.queue == 0)
    && (conn.running ==> conn.added)
    && match conn.once
       case Fresh => conn.closes == 0
       case RunningBy(g) => InsideOnce(PcOf(s, g), c)
       case Done => conn.closes == 1
  }

  ghost predicate LocksOk(s: State) {
    && (s.writer.Some? ==> s.readers == {})
    && (forall g: Gid {:trigger PcOf(s, g)} :: HoldsWrite(PcOf(s, g)) <==> s.writer == Some(g))
    && (forall g: Gid {:trigger PcOf(s, g)} :: PcOf(s, g).DispatchHold? <==> g in s.readers)
  }

  /** Every close in the history is the one recorded for its client. */
  ghost predicate LogOk(s: State) {
    forall j {:trigger s.log[j]} | 0 <= j < |s.log| && s.log[j].CloseSend? ::
      && s.log[j].c in s.conns
      && s.conns[s.log[j].c].closes > 0 && s.conns[s.log[j].c].closedAt == j && s.conns[s.log[j].c].closer == s.log[j].g
  }

  ghost predicate Inv(s: State) {
    && (s.closed ==> s.live == {}) && s.live <= s.conns.Keys
    && (forall g: Gid {:trigger PcOf(s, g)} :: PcOk(s, g, PcOf(s, g)))
    && (forall c {:trigger ConnOk(s, c)} | c in s.conns :: ConnOk(s, c))
    && LocksOk(s) && LogOk(s)
  }
}
