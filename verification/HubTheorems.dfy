/** What every interleaving of the hub's goroutines keeps. */
module HubTheorems {
  import opened Wrappers
  import opened Uuids
  import opened Sums
  import opened HubSteps
  import opened HubStepProofs

  ghost predicate Reachable(s: State) {
    exists es :: ValidRun(Init, es) && Run(Init, es) == s
  }

  lemma ReachableInv(s: State)
    requires Reachable(s)
    ensures Inv(s)
  {
    var es :| ValidRun(Init, es) && Run(Init, es) == s;
    RunInv(Init, es);
  }

  // ---- channels ----

  /** A client whose channel is closed is no longer registered, and its close happened once. */
  lemma ClosedIsUnregistered(s: State, c: Cid)
    requires Reachable(s) && c in s.conns
    ensures s.conns[c].closes <= 1
    ensures s.conns[c].closes == 1 ==> c !in s.live
    ensures s.conns[c].queue <= 16
  {
    ReachableInv(s);
    assert ConnOk(s, c);
  }

  /** No run closes the same channel twice, whoever calls shutdown and however often. */
  lemma ClosedAtMostOnce(es: seq<Event>, j: nat, k: nat)
    requires ValidRun(Init, es) && j < |es| && k < |es|
    requires es[j].CloseSend? && es[k].CloseSend? && es[j].c == es[k].c
    ensures j == k
  {
    RunInv(Init, es);
    LogIsRun(Init, es);
    var s := Run(Init, es);
    assert s.log == es;
    assert s.log[j].CloseSend? && s.log[k].CloseSend?;
  }

  /** The goroutine's loop is about to offer a message to a client of its snapshot. */
  predicate AboutToSend(s: State, g: Gid, c: Cid) {
    PcOf(s, g).Sending? && c in PcOf(s, g).todo
  }

  /** Some other goroutine closed the client's channel after step `since`. */
  ghost predicate ClosedByAnother(log: seq<Event>, g: Gid, c: Cid, since: nat) {
    exists h: Gid, j {:trigger CloseSend(h, c), log[j]} :: since < j < |log| && h != g && log[j] == CloseSend(h, c)
  }

  /** Under the write lock a client is registered on an open hub and removed by its shutdown; Close empties the index
      and goes on to end everyone who was in it. */
  lemma LockTakesEffect(s: State, g: Gid)
    requires Enabled(s, Lock(g))
    ensures var p, t := PcOf(s, g), Apply(s, Lock(g));
            && (p.RegisterWait? ==> t.live == if s.closed then s.live else s.live + {p.c})
            && (p.Shutdown? ==> t.live == s.live - {p.c})
            && (p.CloseWait? && !s.closed ==> t.closed && t.live == {} && PcOf(t, g) == CloseHold(s.live))
  {
  }

  lemma {:induction false} RunSplit(s: State, es: seq<Event>, i: nat)
    requires i < |es| && ValidRun(s, es)
    ensures ValidRun(s, es[..i]) && ValidRun(s, es[..i + 1]) && Enabled(Run(s, es[..i]), es[i])
    ensures Run(s, es[..i + 1]) == Apply(Run(s, es[..i]), es[i])
    decreases |es|
  {
    if i == 0 {
      assert es[..1][1..] == [];
      assert ValidRun(Apply(s, es[0]), []);
    } else {
      RunSplit(Apply(s, es[0]), es[1..], i - 1);
      assert es[..i][1..] == es[1..][..i - 1] && es[..i + 1][1..] == es[1..][..i];
    }
  }

  /** The goroutine's Dispatch is shutting this client down. */
  predicate Drops(p: Pc, c: Cid) {
    p.Shutdown? && p.c == c && p.after.NextMessage?
  }

  lemma DropStarts(s: State, e: Event, g: Gid, c: Cid)
    requires Inv(s) && Enabled(s, e) && !Drops(PcOf(s, g), c) && Drops(PcOf(Apply(s, e), g), c)
    ensures e == Offer(g, c) && s.conns[c].closes == 0 && s.conns[c].queue == 16
  {
    assert PcOk(s, g, PcOf(s, g));
    if e.Offer? { assert ConnOk(s, e.c); }
  }

  /** A Dispatch drops a client only after an offer of its own that met 16 waiting messages on an open channel. */
  lemma {:induction false} DroppedWasFull(es: seq<Event>, g: Gid, c: Cid) returns (j: nat)
    requires ValidRun(Init, es) && Drops(PcOf(Run(Init, es), g), c)
    ensures j < |es| && es[j] == Offer(g, c) && ValidRun(Init, es[..j])
    ensures var s := Run(Init, es[..j]); c in s.conns && s.conns[c].closes == 0 && s.conns[c].queue == 16
    decreases |es|
  {
    assert PcOf(Init, g).Idle?;
    assert es != [];
    var k := |es| - 1;
    RunSplit(Init, es, k);
    assert es[..k + 1] == es;
    RunInv(Init, es[..k]);
    if Drops(PcOf(Run(Init, es[..k]), g), c) {
      j := DroppedWasFull(es[..k], g, c);
      assert es[..k][..j] == es[..j];
    } else {
      DropStarts(Run(Init, es[..k]), es[k], g, c);
      j := k;
    }
  }

  /** With room on an open channel an offer queues one message and goes on to the next client. */
  lemma OfferQueues(s: State, g: Gid, c: Cid)
    requires Inv(s) && Enabled(s, Offer(g, c)) && s.conns[c].closes == 0 && s.conns[c].queue < 16
    ensures var t := Apply(s, Offer(g, c));
            && t.conns == s.conns[c := s.conns[c].(queue := s.conns[c].queue + 1)] && t.live == s.live
            && PcOf(t, g) == PcOf(s, g).(todo := PcOf(s, g).todo - {c})
  {
  }

  /** The snapshot of a sending goroutine was taken by its RLock, at the step it remembers. */
  lemma SnapshotWasTaken(es: seq<Event>, g: Gid)
    requires ValidRun(Init, es) && PcOf(Run(Init, es), g).Sending?
    ensures var since := PcOf(Run(Init, es), g).since; since < |es| && es[since] == RLock(g)
  {
    RunInv(Init, es);
    LogIsRun(Init, es);
    var s := Run(Init, es);
    assert PcOk(s, g, PcOf(s, g));
  }

  /** Exactly when Dispatch's send panics: after any run, the send of a goroutine meets a closed channel if and only
      if a different goroutine closed that channel after this Dispatch took its snapshot. */
  lemma SendPanicsIff(es: seq<Event>, g: Gid, c: Cid)
    requires ValidRun(Init, es) && AboutToSend(Run(Init, es), g, c)
    ensures Enabled(Run(Init, es), Offer(g, c))
    ensures var s := Run(Init, es);
            PcOf(Apply(s, Offer(g, c)), g).Panicked? <==> ClosedByAnother(es, g, c, PcOf(s, g).since)
  {
    RunInv(Init, es);
    LogIsRun(Init, es);
    assert Init.log + es == es;
    SendPanics(Run(Init, es), g, c);
  }

  lemma SendPanics(s: State, g: Gid, c: Cid)
    requires Inv(s) && AboutToSend(s, g, c)
    ensures Enabled(s, Offer(g, c))
    ensures PcOf(Apply(s, Offer(g, c)), g).Panicked? <==> ClosedByAnother(s.log, g, c, PcOf(s, g).since)
  {
    assert PcOk(s, g, PcOf(s, g));
    assert InTodo(s, g, PcOf(s, g).since, c) && ConnOk(s, c);
    ClosedIff(s, g, c, PcOf(s, g).since);
  }

  lemma ClosedIff(s: State, g: Gid, c: Cid, since: nat)
    requires c in s.conns && LogOk(s) && ConnOk(s, c) && InTodo(s, g, since, c)
    ensures s.conns[c].closes > 0 <==> ClosedByAnother(s.log, g, c, since)
  {
    if s.conns[c].closes > 0 {
      assert s.log[s.conns[c].closedAt] == CloseSend(s.conns[c].closer, c);
    }
  }

  function Joining(citizen: Uuid): seq<Event> {
    [CallRegister(0, 7, citizen), Lock(0), Unlock(0)]
  }

  function Snapping(citizen: Uuid): seq<Event> {
    [CallDispatch(1, citizen), RLock(1), Unlock(1)]
  }

  const ENTERING: seq<Event> := [CallShutdown(0, 7), Once(0)]

  const LEAVING: seq<Event> := [Lock(0), Unlock(0), CloseSend(0, 7)]

  function Joined(citizen: Uuid): State {
    State(map[7 := Conn(citizen, 0, true, true, 0, Fresh, 0, 0, 0)], {7}, false, None, {}, map[0 := Idle],
          Joining(citizen))
  }

  function Snapped(citizen: Uuid): State {
    Joined(citizen).(at := map[0 := Idle, 1 := Sending({7}, 4)], log := Joining(citizen) + Snapping(citizen))
  }

  function Gone(citizen: Uuid): State {
    State(map[7 := Conn(citizen, 0, true, true, 0, RunningBy(0), 1, 0, 10)], {}, false, None, {},
          map[0 := Shutdown(7, HangingUp, Return), 1 := Sending({7}, 4)],
          Joining(citizen) + Snapping(citizen) + ENTERING + LEAVING)
  }

  lemma Prepend(s: State, e: Event, es: seq<Event>, last: State)
    requires Enabled(s, e) && ValidRun(Apply(s, e), es) && Run(Apply(s, e), es) == last
    ensures ValidRun(s, [e] + es) && Run(s, [e] + es) == last
  {
    assert ([e] + es)[1..] == es;
  }

  lemma JoiningRuns(citizen: Uuid, es: seq<Event>, last: State)
    requires ValidRun(Joined(citizen), es) && Run(Joined(citizen), es) == last
    ensures ValidRun(Init, Joining(citizen) + es) && Run(Init, Joining(citizen) + es) == last
  {
    var a := Apply(Init, CallRegister(0, 7, citizen));
    var b := Apply(a, Lock(0));
    assert Apply(b, Unlock(0)) == Joined(citizen);
    Prepend(b, Unlock(0), es, last);
    Prepend(a, Lock(0), [Unlock(0)] + es, last);
    Prepend(Init, CallRegister(0, 7, citizen), [Lock(0)] + ([Unlock(0)] + es), last);
    RegroupThree(CallRegister(0, 7, citizen), Lock(0), Unlock(0), es);
  }

  lemma RegroupThree(x: Event, y: Event, z: Event, es: seq<Event>)
    ensures [x] + ([y] + ([z] + es)) == [x, y, z] + es
  {
  }

  lemma SnappingSteps(citizen: Uuid)
    ensures var s := Joined(citizen);
            && Enabled(s, CallDispatch(1, citizen)) && Enabled(Apply(s, CallDispatch(1, citizen)), RLock(1))
            && Enabled(Apply(Apply(s, CallDispatch(1, citizen)), RLock(1)), Unlock(1))
            && Apply(Apply(Apply(s, CallDispatch(1, citizen)), RLock(1)), Unlock(1)) == Snapped(citizen)
  {
    assert Found(Apply(Joined(citizen), CallDispatch(1, citizen)), citizen) == {7};
  }

  lemma SnappingRuns(citizen: Uuid, es: seq<Event>, last: State)
    requires ValidRun(Snapped(citizen), es) && Run(Snapped(citizen), es) == last
    ensures ValidRun(Joined(citizen), Snapping(citizen) + es)
    ensures Run(Joined(citizen), Snapping(citizen) + es) == last
  {
    var s := Joined(citizen);
    var a := Apply(s, CallDispatch(1, citizen));
    SnappingSteps(citizen);
    var b := Apply(a, RLock(1));
    Prepend(b, Unlock(1), es, last);
    Prepend(a, RLock(1), [Unlock(1)] + es, last);
    Prepend(s, CallDispatch(1, citizen), [RLock(1)] + ([Unlock(1)] + es), last);
    RegroupThree(CallDispatch(1, citizen), RLock(1), Unlock(1), es);
  }

  /** The client's read pump is inside its once and waits for the hub's mutex. */
  function Waiting(citizen: Uuid): State {
    Joined(citizen).(conns := map[7 := Conn(citizen, 0, true, true, 0, RunningBy(0), 0, 0, 0)],
                     at := map[0 := Shutdown(7, WaitLock, Return), 1 := Sending({7}, 4)],
                     log := Joining(citizen) + Snapping(citizen) + ENTERING)
  }

  lemma EnteringSteps(citizen: Uuid)
    ensures var s := Snapped(citizen);
            && Enabled(s, CallShutdown(0, 7)) && Enabled(Apply(s, CallShutdown(0, 7)), Once(0))
            && Apply(Apply(s, CallShutdown(0, 7)), Once(0)) == Waiting(citizen)
  {
  }

  lemma EnteringRuns(citizen: Uuid, es: seq<Event>, last: State)
    requires ValidRun(Waiting(citizen), es) && Run(Waiting(citizen), es) == last
    ensures ValidRun(Snapped(citizen), ENTERING + es) && Run(Snapped(citizen), ENTERING + es) == last
  {
    EnteringSteps(citizen);
    var s := Snapped(citizen);
    var a := Apply(s, CallShutdown(0, 7));
    Prepend(a, Once(0), es, last);
    Prepend(s, CallShutdown(0, 7), [Once(0)] + es, last);
    assert [CallShutdown(0, 7)] + ([Once(0)] + es) == ENTERING + es;
  }

  /** It has removed the client from the index and is about to close the channel. */
  function Freed(citizen: Uuid): State {
    Waiting(citizen).(live := {}, at := map[0 := Shutdown(7, Closing, Return), 1 := Sending({7}, 4)],
                      log := Waiting(citizen).log + [Lock(0), Unlock(0)])
  }

  lemma RemovingSteps(citizen: Uuid)
    ensures var s := Waiting(citizen);
            && Enabled(s, Lock(0)) && Enabled(Apply(s, Lock(0)), Unlock(0))
            && Apply(Apply(s, Lock(0)), Unlock(0)) == Freed(citizen)
  {
    var s := Waiting(citizen);
    assert Apply(s, Lock(0)) == s.(live := {}, writer := Some(0), log := s.log + [Lock(0)],
                                   at := map[0 := Shutdown(7, Removing, Return), 1 := Sending({7}, 4)]);
  }

  lemma ClosingStep(citizen: Uuid)
    ensures Enabled(Freed(citizen), CloseSend(0, 7)) && Apply(Freed(citizen), CloseSend(0, 7)) == Gone(citizen)
  {
  }

  lemma LeavingRuns(citizen: Uuid)
    ensures ValidRun(Waiting(citizen), LEAVING) && Run(Waiting(citizen), LEAVING) == Gone(citizen)
  {
    RemovingSteps(citizen);
    ClosingStep(citizen);
    var s := Waiting(citizen);
    var a := Apply(s, Lock(0));
    var b := Apply(a, Unlock(0));
    var c := Gone(citizen);
    Prepend(b, CloseSend(0, 7), [], c);
    Prepend(a, Unlock(0), [CloseSend(0, 7)], c);
    Prepend(s, Lock(0), [Unlock(0), CloseSend(0, 7)], c);
  }

  /** It does happen: a client registers, a Dispatch takes its snapshot, the client's pump shuts it down, and the
      Dispatch sends. */
  lemma SendCanPanic(citizen: Uuid)
    ensures var es := Joining(citizen) + (Snapping(citizen) + (ENTERING + LEAVING));
            && ValidRun(Init, es) && Enabled(Run(Init, es), Offer(1, 7))
            && PcOf(Apply(Run(Init, es), Offer(1, 7)), 1) == Panicked(7)
  {
    LeavingRuns(citizen);
    EnteringRuns(citizen, LEAVING, Gone(citizen));
    SnappingRuns(citizen, ENTERING + LEAVING, Gone(citizen));
    JoiningRuns(citizen, Snapping(citizen) + (ENTERING + LEAVING), Gone(citizen));
  }

  // ---- locks ----

  predicate HoldsLock(s: State, g: Gid) {
    s.writer == Some(g) || g in s.readers
  }

  predicate WaitsForOnce(s: State, g: Gid) {
    var p := PcOf(s, g);
    p.Shutdown? && p.stage.AtOnce? && p.c in s.conns && s.conns[p.c].once.RunningBy?
  }

  /** A goroutine may be made to wait by another. A reader may also have to wait for waiting writers, which
      sync.RWMutex prefers. */
  predicate WaitsFor(s: State, g: Gid, h: Gid) {
    var p := PcOf(s, g);
    || (WantsWrite(p) && HoldsLock(s, h))
    || (p.DispatchWait? && (s.writer == Some(h) || WantsWrite(PcOf(s, h))))
    || (WaitsForOnce(s, g) && s.conns[p.c].once.g == h)
  }

  ghost predicate Blocked(s: State, g: Gid) {
    exists h: Gid {:trigger WaitsFor(s, g, h)} :: WaitsFor(s, g, h)
  }

  /** Waiting for a once comes before waiting for the mutex, a reader's wait before a writer's, and holders wait for
      nothing. */
  function Rank(p: Pc): nat {
    if p.Shutdown? && p.stage.AtOnce? then 3
    else if p.DispatchWait? then 2
    else if WantsWrite(p) then 1
    else 0
  }

  /** No goroutine that holds the hub's mutex, to read or to write, waits for a client's once. */
  lemma NoOnceUnderLock(s: State, g: Gid)
    requires Reachable(s) && HoldsLock(s, g)
    ensures !PcOf(s, g).Shutdown? || !PcOf(s, g).stage.AtOnce?
    ensures !Blocked(s, g)
  {
    ReachableInv(s);
    assert HoldsWrite(PcOf(s, g)) <==> s.writer == Some(g);
    assert PcOf(s, g).DispatchHold? <==> g in s.readers;
  }

  /** Waiting has no cycle: whoever is waited for has the lower rank. */
  lemma WaitingIsAcyclic(s: State, g: Gid, h: Gid)
    requires Reachable(s) && WaitsFor(s, g, h)
    ensures Rank(PcOf(s, h)) < Rank(PcOf(s, g))
  {
    ReachableInv(s);
    assert HoldsWrite(PcOf(s, h)) <==> s.writer == Some(h);
    assert PcOf(s, h).DispatchHold? <==> h in s.readers;
    if WaitsForOnce(s, g) {
      assert ConnOk(s, PcOf(s, g).c);
    }
  }

  predicate Halted(p: Pc) {
    p.Idle? || p.Panicked?
  }

  /** A goroutine inside a hub call that waits for nobody can take its next step. */
  lemma UnblockedSteps(s: State, g: Gid) returns (e: Event)
    requires Reachable(s) && !Halted(PcOf(s, g)) && !Blocked(s, g)
    ensures Enabled(s, e) && Actor(e) == Some(g) && !IsCall(e)
  {
    ReachableInv(s);
    var p := PcOf(s, g);
    assert PcOk(s, g, p);
    NobodyInTheWay(s, g);
    match p
    case RegisterWait(_) => e := Lock(g);
    case CloseWait => e := Lock(g);
    case DispatchWait(_) => e := RLock(g);
    case RegisterHold(_) => e := Unlock(g);
    case CloseHold(_) => e := Unlock(g);
    case DispatchHold(_, _) => e := Unlock(g);
    case Sending(todo, since) =>
      if todo == {} {
        e := LoopDone(g);
      } else {
        var c :| c in todo;
        assert InTodo(s, g, since, c);
        e := Offer(g, c);
      }
    case Ending(todo) =>
      if todo == {} {
        e := LoopDone(g);
      } else {
        var c :| c in todo;
        e := EndNext(g, c);
      }
    case Shutdown(c, stage, _) =>
      e := match stage
           case AtOnce => Once(g)
           case WaitLock => Lock(g)
           case Removing => Unlock(g)
           case Closing => CloseSend(g, c)
           case HangingUp => EndOnce(g);
  }

  lemma NobodyInTheWay(s: State, g: Gid)
    requires !Blocked(s, g)
    ensures WantsWrite(PcOf(s, g)) ==> s.writer.None? && s.readers == {}
    ensures PcOf(s, g).DispatchWait? ==> s.writer.None?
    ensures !WaitsForOnce(s, g)
  {
    if s.writer.Some? { assert !WaitsFor(s, g, s.writer.value); }
    if s.readers != {} {
      var h :| h in s.readers;
      assert !WaitsFor(s, g, h);
    }
    assert !WaitsForOnce(s, g) || WaitsFor(s, g, s.conns[PcOf(s, g).c].once.g);
  }

  predicate IsCall(e: Event) {
    e.CallRegister? || e.CallDispatch? || e.CallClose? || e.CallShutdown? || e.Receive?
  }

  /** Each goroutine of the chain waits for the next. */
  ghost predicate WaitChain(s: State, gs: seq<Gid>) {
    forall i {:trigger gs[i]} | 0 <= i < |gs| - 1 :: WaitsFor(s, gs[i], gs[i + 1])
  }

  /** The hub never deadlocks: from any waiting goroutine, at most three waits lead to another that can step. */
  lemma {:induction false} NeverDeadlocked(s: State, g: Gid) returns (gs: seq<Gid>, e: Event)
    requires Reachable(s) && Blocked(s, g)
    ensures 2 <= |gs| <= Rank(PcOf(s, g)) + 1 && gs[0] == g && WaitChain(s, gs)
    ensures Enabled(s, e) && Actor(e) == Some(gs[|gs| - 1]) && gs[|gs| - 1] != g && !IsCall(e)
    ensures Rank(PcOf(s, gs[|gs| - 1])) < Rank(PcOf(s, g))
    decreases Rank(PcOf(s, g))
  {
    var h: Gid :| WaitsFor(s, g, h);
    WaitingIsAcyclic(s, g, h);
    if Blocked(s, h) {
      var rest;
      rest, e := NeverDeadlocked(s, h);
      gs := [g] + rest;
      forall i | 0 <= i < |gs| - 1 ensures WaitsFor(s, gs[i], gs[i + 1]) {
        if i > 0 { assert WaitsFor(s, rest[i - 1], rest[i]); }
      }
    } else {
      WaitedForIsBusy(s, g, h);
      e := UnblockedSteps(s, h);
      gs := [g, h];
    }
  }

  lemma WaitedForIsBusy(s: State, g: Gid, h: Gid)
    requires Reachable(s) && WaitsFor(s, g, h)
    ensures !Halted(PcOf(s, h))
  {
    ReachableInv(s);
    assert HoldsWrite(PcOf(s, h)) <==> s.writer == Some(h);
    assert PcOf(s, h).DispatchHold? <==> h in s.readers;
    if WaitsForOnce(s, g) {
      assert ConnOk(s, PcOf(s, g).c);
    }
  }

  // ---- every call ends ----

  const PER_CLIENT: nat := 6

  function AfterSteps(after: After): nat {
    match after
    case Return => 0
    case NextMessage(todo, _) => PER_CLIENT * |todo| + 1
    case NextClient(todo) => PER_CLIENT * |todo| + 1
  }

  function StageSteps(stage: Stage): nat {
    match stage
    case AtOnce => 5
    case WaitLock => 4
    case Removing => 3
    case Closing => 2
    case HangingUp => 1
  }

  /** How many steps a goroutine has left in its call at most, with n clients in all. */
  function StepsLeft(n: nat, p: Pc): nat {
    match p
    case RegisterWait(_) => 2
    case RegisterHold(_) => 1
    case DispatchWait(_) => PER_CLIENT * n + 3
    case DispatchHold(todo, _) => PER_CLIENT * |todo| + 2
    case Sending(todo, _) => PER_CLIENT * |todo| + 1
    case CloseWait => PER_CLIENT * n + 3
    case CloseHold(todo) => PER_CLIENT * |todo| + 2
    case Ending(todo) => PER_CLIENT * |todo| + 1
    case Shutdown(_, stage, after) => StageSteps(stage) + AfterSteps(after)
    case _ => 0
  }

  ghost function Left(s: State): Gid -> int {
    (g: Gid) => StepsLeft(|s.conns|, PcOf(s, g))
  }

  /** The steps all goroutines together have left. */
  ghost function Work(s: State): int {
    Sum(s.at.Keys, Left(s))
  }

  lemma Fewer(small: set<Cid>, big: set<Cid>)
    requires small <= big
    ensures |small| <= |big|
    decreases |small|
  {
    if small != {} {
      var x :| x in small;
      Fewer(small - {x}, big - {x});
    }
  }

  lemma SameClients(s: State, e: Event)
    requires Inv(s) && Enabled(s, e) && !IsCall(e)
    ensures Apply(s, e).conns.Keys == s.conns.Keys && |Apply(s, e).conns| == |s.conns|
  {
    assert PcOk(s, e.g, PcOf(s, e.g));
    var t := Apply(s, e);
    assert |t.conns.Keys| == |t.conns| && |s.conns.Keys| == |s.conns|;
  }

  lemma SameGoroutines(s: State, e: Event)
    requires Enabled(s, e) && !IsCall(e)
    ensures e.g in s.at && Apply(s, e).at.Keys == s.at.Keys
    ensures forall h | h in s.at && h != e.g :: PcOf(Apply(s, e), h) == PcOf(s, h)
  {
  }

  /** Each step of a call leaves its goroutine fewer. */
  lemma StepShortens(s: State, e: Event)
    requires Inv(s) && Enabled(s, e) && !IsCall(e)
    ensures StepsLeft(|s.conns|, PcOf(Apply(s, e), e.g)) < StepsLeft(|s.conns|, PcOf(s, e.g))
  {
    match e
    case RLock(g) => RLockShortens(s, g);
    case Lock(g) => LockShortens(s, g);
    case Offer(g, c) => OfferShortens(s, g, c);
    case EndNext(_, c) => TakeOne(PcOf(s, e.g).todo, c);
    case LoopDone(_) =>
    case _ => StageShortens(s, e);
  }

  lemma StageShortens(s: State, e: Event)
    requires Enabled(s, e) && (e.Unlock? || e.Once? || e.CloseSend? || e.EndOnce?)
    ensures StepsLeft(|s.conns|, PcOf(Apply(s, e), e.g)) < StepsLeft(|s.conns|, PcOf(s, e.g))
  {
  }

  lemma TakeOne(todo: set<Cid>, c: Cid)
    requires c in todo
    ensures |todo - {c}| == |todo| - 1
  {
  }

  lemma RLockShortens(s: State, g: Gid)
    requires Inv(s) && Enabled(s, RLock(g))
    ensures StepsLeft(|s.conns|, PcOf(Apply(s, RLock(g)), g)) < StepsLeft(|s.conns|, PcOf(s, g))
  {
    Fewer(Found(s, PcOf(s, g).citizen), s.conns.Keys);
    assert |s.conns.Keys| == |s.conns|;
  }

  lemma LockShortens(s: State, g: Gid)
    requires Inv(s) && Enabled(s, Lock(g))
    ensures StepsLeft(|s.conns|, PcOf(Apply(s, Lock(g)), g)) < StepsLeft(|s.conns|, PcOf(s, g))
  {
    Fewer(s.live, s.conns.Keys);
    assert |s.conns.Keys| == |s.conns|;
  }

  lemma OfferShortens(s: State, g: Gid, c: Cid)
    requires Enabled(s, Offer(g, c))
    ensures StepsLeft(|s.conns|, PcOf(Apply(s, Offer(g, c)), g)) < StepsLeft(|s.conns|, PcOf(s, g))
  {
    TakeOne(PcOf(s, g).todo, c);
  }

  /** The steps left go down with every step of a call, so calls end, whatever the scheduler does. */
  lemma StepLowersWork(s: State, e: Event)
    requires Inv(s) && Enabled(s, e) && !IsCall(e)
    ensures Work(Apply(s, e)) < Work(s)
  {
    SameClients(s, e);
    SameGoroutines(s, e);
    StepShortens(s, e);
    SumDrop(s.at.Keys, {e.g}, Left(s), Left(Apply(s, e)));
  }

  /** With no further calls a run takes at most Work steps. */
  lemma {:induction false} CallsEnd(s: State, es: seq<Event>)
    requires Inv(s) && ValidRun(s, es) && forall e | e in es :: !IsCall(e)
    ensures |es| + Work(Run(s, es)) <= Work(s) && Work(Run(s, es)) >= 0
    decreases |es|
  {
    if es == [] {
      SumNonNegative(s.at.Keys, Left(s));
    } else {
      assert es[0] in es;
      StepLowersWork(s, es[0]);
      StepInv(s, es[0]);
      CallsEnd(Apply(s, es[0]), es[1..]);
    }
  }

  /** When no step of a call is left to take, no goroutine is inside a call: each has returned or panicked. */
  lemma StuckMeansDone(s: State, g: Gid)
    requires Reachable(s) && forall e | Enabled(s, e) :: IsCall(e)
    ensures Halted(PcOf(s, g))
  {
    if !Halted(PcOf(s, g)) {
      var e;
      if Blocked(s, g) {
        var gs;
        gs, e := NeverDeadlocked(s, g);
      } else {
        e := UnblockedSteps(s, g);
      }
    }
  }
}
