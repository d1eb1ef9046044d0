/** Every step of the hub's goroutines keeps HubSteps.Inv. */
module HubStepProofs {
  import opened Wrappers
  import opened HubSteps

  // ---- what a step of one goroutine leaves to the others ----

  ghost predicate ConnKept(s: State, t: State, g: Gid, c: Cid)
    requires c in s.conns && c in t.conns
  {
    var a, b := s.conns[c], t.conns[c];
    && b.runner == a.runner && (a.added ==> b.added)
    && (!a.added && a.runner != g ==> !b.added)
    && (a.once.RunningBy? && a.once.g != g ==>
          b.once == a.once && b.closes == a.closes && (c !in s.live ==> c !in t.live))
    && (b.closes > 0 ==> (b.closer == a.closer && b.closedAt == a.closedAt && a.closes > 0)
                         || (b.closer == g && b.closedAt == |s.log|))
  }

  /** What other goroutines see of a step by g: their own places are untouched, and clients change only so far. */
  ghost predicate Kept(s: State, t: State, g: Gid) {
    && s.conns.Keys <= t.conns.Keys
    && s.log <= t.log
    && (forall c {:trigger s.conns[c]} {:trigger t.conns[c]} | c in s.conns :: ConnKept(s, t, g, c))
  }

  lemma SnapshotKept(s: State, t: State, g: Gid, h: Gid, todo: set<Cid>, since: nat)
    requires Kept(s, t, g) && g != h && SnapshotOk(s, h, todo, since)
    ensures SnapshotOk(t, h, todo, since)
  {
    forall c | c in todo ensures InTodo(t, h, since, c) {
      assert InTodo(s, h, since, c);
      assert ConnKept(s, t, g, c);
    }
  }

  lemma PcKept(s: State, t: State, g: Gid, h: Gid)
    requires Kept(s, t, g) && g != h && PcOk(s, h, PcOf(s, h))
    ensures PcOk(t, h, PcOf(s, h))
  {
    match PcOf(s, h)
    case RegisterWait(c) => assert ConnKept(s, t, g, c);
    case DispatchHold(todo, since) => SnapshotKept(s, t, g, h, todo, since);
    case Sending(todo, since) => SnapshotKept(s, t, g, h, todo, since);
    case Shutdown(c, stage, after) =>
      assert ConnKept(s, t, g, c);
      if after.NextMessage? { SnapshotKept(s, t, g, h, after.messageTodo, after.since); }
    case _ =>
  }

  /** A goroutine's own snapshot survives a step of its own that closes none of its clients. */
  lemma SnapshotStays(s: State, t: State, g: Gid, todo: set<Cid>, since: nat)
    requires SnapshotOk(s, g, todo, since) && s.log <= t.log && s.conns.Keys <= t.conns.Keys
    requires forall c {:trigger s.conns[c]} | c in todo && c in s.conns ::
               t.conns[c].added == s.conns[c].added && t.conns[c].closes == s.conns[c].closes
               && t.conns[c].closer == s.conns[c].closer && t.conns[c].closedAt == s.conns[c].closedAt
    ensures SnapshotOk(t, g, todo, since)
  {
    forall c | c in todo ensures InTodo(t, g, since, c) {
      assert InTodo(s, g, since, c);
    }
  }

  // ---- the frame of a step ----

  ghost predicate Moves(s: State, t: State, g: Gid, e: Event) {
    && t.log == s.log + [e]
    && forall h: Gid {:trigger PcOf(t, h)} {:trigger PcOf(s, h)} | h != g :: PcOf(t, h) == PcOf(s, h)
  }

  /** Clients other than c are as they were, and g is inside no once of theirs that it has left. */
  ghost predicate OnlyConn(s: State, t: State, g: Gid, c: Cid) {
    && s.conns.Keys <= t.conns.Keys && t.conns.Keys <= s.conns.Keys + {c}
    && (forall x {:trigger t.conns[x]} {:trigger s.conns[x]} | x in s.conns && x != c :: t.conns[x] == s.conns[x])
    && (forall x {:trigger x in t.live} | x in t.live && x != c :: x in s.live)
    && (forall x {:trigger InsideOnce(PcOf(s, g), x)} | InsideOnce(PcOf(s, g), x) && x != c ::
          InsideOnce(PcOf(t, g), x))
  }

  lemma ConnStays(s: State, t: State, g: Gid, e: Event, c: Cid, x: Cid)
    requires Moves(s, t, g, e) && OnlyConn(s, t, g, c) && x != c && x in s.conns && ConnOk(s, x)
    ensures ConnOk(t, x)
  {
    assert t.conns[x] == s.conns[x];
    if s.conns[x].once.RunningBy? {
      assert InsideOnce(PcOf(s, s.conns[x].once.g), x);
    }
  }

  lemma LogStays(s: State, t: State, e: Event)
    requires LogOk(s) && t.log == s.log + [e] && !e.CloseSend?
    requires forall c {:trigger t.conns[c]} {:trigger s.conns[c]} | c in s.conns && s.conns[c].closes > 0 ::
               c in t.conns && t.conns[c].closes == s.conns[c].closes
               && t.conns[c].closer == s.conns[c].closer && t.conns[c].closedAt == s.conns[c].closedAt
    ensures LogOk(t)
  {
    forall j | 0 <= j < |t.log| && t.log[j].CloseSend?
      ensures && t.log[j].c in t.conns && t.conns[t.log[j].c].closes > 0
              && t.conns[t.log[j].c].closedAt == j && t.conns[t.log[j].c].closer == t.log[j].g
    {
      assert j < |s.log| && s.log[j] == t.log[j];
    }
  }

  lemma OnlyConnKept(s: State, t: State, g: Gid, e: Event, c: Cid)
    requires Moves(s, t, g, e) && OnlyConn(s, t, g, c) && (c in s.conns ==> ConnKept(s, t, g, c))
    ensures Kept(s, t, g)
  {
    forall x | x in s.conns ensures ConnKept(s, t, g, x) {
      if x != c { assert t.conns[x] == s.conns[x]; }
    }
  }

  /** Puts the pieces of a step together. */
  lemma Assemble(s: State, t: State, g: Gid, e: Event, c: Cid)
    requires Inv(s) && Moves(s, t, g, e) && OnlyConn(s, t, g, c) && (c in s.conns ==> ConnKept(s, t, g, c))
    requires PcOk(t, g, PcOf(t, g)) && (c in t.conns ==> ConnOk(t, c))
    requires LocksOk(t) && LogOk(t) && (t.closed ==> t.live == {}) && t.live <= t.conns.Keys
    ensures Inv(t)
  {
    OnlyConnKept(s, t, g, e, c);
    forall h: Gid ensures PcOk(t, h, PcOf(t, h)) {
      if h != g {
        assert PcOk(s, h, PcOf(s, h));
        PcKept(s, t, g, h);
      }
    }
    forall x | x in t.conns ensures ConnOk(t, x) {
      if x != c {
        assert ConnOk(s, x);
        ConnStays(s, t, g, e, c, x);
      }
    }
  }

  lemma LocksStay(s: State, t: State, g: Gid, e: Event)
    requires LocksOk(s) && Moves(s, t, g, e) && t.writer == s.writer && t.readers == s.readers
    requires HoldsWrite(PcOf(t, g)) == HoldsWrite(PcOf(s, g))
    requires PcOf(t, g).DispatchHold? == PcOf(s, g).DispatchHold?
    ensures LocksOk(t)
  {
    forall h: Gid ensures HoldsWrite(PcOf(t, h)) <==> t.writer == Some(h) {
      assert HoldsWrite(PcOf(s, h)) <==> s.writer == Some(h);
    }
    forall h: Gid ensures PcOf(t, h).DispatchHold? <==> h in t.readers {
      assert PcOf(s, h).DispatchHold? <==> h in s.readers;
    }
  }

  // ---- steps that change no client ----

  /** A step that changes neither the clients nor who is registered. */
  lemma QuietInv(s: State, t: State, g: Gid, e: Event)
    requires Inv(s) && Moves(s, t, g, e) && !e.CloseSend?
    requires t.conns == s.conns && t.live == s.live && t.closed == s.closed && LocksOk(t)
    requires PcOk(t, g, PcOf(t, g))
    requires forall x {:trigger InsideOnce(PcOf(s, g), x)} | InsideOnce(PcOf(s, g), x) :: InsideOnce(PcOf(t, g), x)
    ensures Inv(t)
  {
    var c: Cid := 0;
    LogStays(s, t, e);
    if c in t.conns {
      assert ConnOk(s, c);
      if s.conns[c].once.RunningBy? { assert InsideOnce(PcOf(s, s.conns[c].once.g), c); }
    }
    Assemble(s, t, g, e, c);
  }

  lemma SnapshotAgain(s: State, t: State, g: Gid, todo: set<Cid>, rest: set<Cid>, since: nat)
    requires SnapshotOk(s, g, todo, since) && s.log <= t.log && t.conns == s.conns && rest <= todo
    ensures SnapshotOk(t, g, rest, since)
  {
    forall c | c in rest ensures InTodo(t, g, since, c) {
      assert InTodo(s, g, since, c);
    }
  }

  lemma CallInv(s: State, e: Event)
    requires Inv(s) && Enabled(s, e) && (e.CallDispatch? || e.CallClose? || e.CallShutdown?)
    ensures Inv(Apply(s, e))
  {
    var t := Apply(s, e);
    LocksStay(s, t, e.g, e);
    if e.CallShutdown? { assert ConnOk(s, e.c); }
    QuietInv(s, t, e.g, e);
  }

  lemma LoopInv(s: State, e: Event)
    requires Inv(s) && Enabled(s, e) && (e.EndNext? || e.LoopDone?)
    ensures Inv(Apply(s, e))
  {
    var t := Apply(s, e);
    LocksStay(s, t, e.g, e);
    assert PcOk(s, e.g, PcOf(s, e.g));
    QuietInv(s, t, e.g, e);
  }

  /** A client registered when the snapshot is taken is not closed. */
  lemma RLockInv(s: State, g: Gid)
    requires Inv(s) && Enabled(s, RLock(g))
    ensures Inv(Apply(s, RLock(g)))
  {
    var t := Apply(s, RLock(g));
    var todo := PcOf(t, g).todo;
    forall c | c in todo ensures InTodo(t, g, |s.log|, c) {
      assert ConnOk(s, c);
    }
    assert LocksOk(t) by {
      forall h: Gid ensures HoldsWrite(PcOf(t, h)) <==> t.writer == Some(h) {
        assert HoldsWrite(PcOf(s, h)) <==> s.writer == Some(h);
      }
      forall h: Gid ensures PcOf(t, h).DispatchHold? <==> h in t.readers {
        assert PcOf(s, h).DispatchHold? <==> h in s.readers;
      }
    }
    QuietInv(s, t, g, RLock(g));
  }

  lemma UnlockLocks(s: State, g: Gid)
    requires Inv(s) && Enabled(s, Unlock(g))
    ensures LocksOk(Apply(s, Unlock(g)))
  {
    var t := Apply(s, Unlock(g));
    forall h: Gid ensures HoldsWrite(PcOf(t, h)) <==> t.writer == Some(h) {
      assert HoldsWrite(PcOf(s, h)) <==> s.writer == Some(h);
      assert HoldsWrite(PcOf(s, g)) <==> s.writer == Some(g);
      assert PcOf(s, h).DispatchHold? <==> h in s.readers;
    }
    forall h: Gid ensures PcOf(t, h).DispatchHold? <==> h in t.readers {
      assert PcOf(s, h).DispatchHold? <==> h in s.readers;
    }
  }

  lemma RegisteredInv(s: State, g: Gid, c: Cid)
    requires Inv(s) && PcOf(s, g) == RegisterHold(c)
    ensures Inv(Apply(s, Unlock(g)))
  {
    var t := Apply(s, Unlock(g));
    UnlockLocks(s, g);
    assert PcOk(s, g, PcOf(s, g)) && ConnOk(s, c);
    LogStays(s, t, Unlock(g));
    if s.conns[c].once.RunningBy? { assert InsideOnce(PcOf(s, s.conns[c].once.g), c); }
    Assemble(s, t, g, Unlock(g), c);
  }

  lemma UnlockInv(s: State, g: Gid)
    requires Inv(s) && Enabled(s, Unlock(g)) && !PcOf(s, g).RegisterHold?
    ensures Inv(Apply(s, Unlock(g)))
  {
    var t := Apply(s, Unlock(g));
    var p := PcOf(s, g);
    UnlockLocks(s, g);
    assert PcOk(s, g, p);
    match p {
      case DispatchHold(todo, since) => SnapshotAgain(s, t, g, todo, todo, since);
      case Shutdown(c, stage, after) =>
        if after.NextMessage? { SnapshotAgain(s, t, g, after.messageTodo, after.messageTodo, after.since); }
      case CloseHold(todo) =>
    }
    QuietInv(s, t, g, Unlock(g));
  }

  // ---- steps that change one client ----

  lemma RegisterInv(s: State, e: Event)
    requires Inv(s) && Enabled(s, e) && e.CallRegister?
    ensures Inv(Apply(s, e))
  {
    var t := Apply(s, e);
    LocksStay(s, t, e.g, e);
    LogStays(s, t, e);
    Assemble(s, t, e.g, e, e.c);
  }

  lemma OfferInv(s: State, g: Gid, c: Cid)
    requires Inv(s) && Enabled(s, Offer(g, c))
    ensures Inv(Apply(s, Offer(g, c)))
  {
    var e := Offer(g, c);
    var t := Apply(s, e);
    var p := PcOf(s, g);
    assert PcOk(s, g, p);
    assert InTodo(s, g, p.since, c);
    assert ConnOk(s, c);
    LocksStay(s, t, g, e);
    if s.conns[c].closes > 0 {
      QuietInv(s, t, g, e);
    } else if s.conns[c].queue < HubModel.SEND_BUFFER {
      LogStays(s, t, e);
      forall x | x in p.todo - {c} ensures InTodo(t, g, p.since, x) { assert InTodo(s, g, p.since, x); }
      if s.conns[c].once.RunningBy? { assert InsideOnce(PcOf(s, s.conns[c].once.g), c); }
      Assemble(s, t, g, e, c);
    } else {
      SnapshotAgain(s, t, g, p.todo, p.todo - {c}, p.since);
      QuietInv(s, t, g, e);
    }
  }

  /** Entering a once nobody has been through. */
  lemma EnterOnce(s: State, g: Gid)
    requires Inv(s) && Enabled(s, Once(g)) && s.conns[PcOf(s, g).c].once.Fresh?
    ensures Inv(Apply(s, Once(g)))
  {
    var e := Once(g);
    var t := Apply(s, e);
    var p := PcOf(s, g);
    assert PcOk(s, g, p);
    assert ConnOk(s, p.c);
    LocksStay(s, t, g, e);
    LogStays(s, t, e);
    if p.after.NextMessage? { SnapshotStays(s, t, g, p.after.messageTodo, p.after.since); }
    Assemble(s, t, g, e, p.c);
  }

  lemma OnceInv(s: State, g: Gid)
    requires Inv(s) && Enabled(s, Once(g))
    ensures Inv(Apply(s, Once(g)))
  {
    var e := Once(g);
    var t := Apply(s, e);
    var p := PcOf(s, g);
    if s.conns[p.c].once.Done? {
      assert PcOk(s, g, p);
      LocksStay(s, t, g, e);
      if p.after.NextMessage? { SnapshotAgain(s, t, g, p.after.messageTodo, p.after.messageTodo, p.after.since); }
      QuietInv(s, t, g, e);
    } else {
      EnterOnce(s, g);
    }
  }

  /** Leaving the once: its channel has been closed and its client is registered nowhere. */
  lemma EndOnceConn(s: State, g: Gid)
    requires Inv(s) && Enabled(s, EndOnce(g))
    ensures var t, c := Apply(s, EndOnce(g)), PcOf(s, g).c;
            OnlyConn(s, t, g, c) && ConnKept(s, t, g, c) && ConnOk(t, c)
  {
    assert PcOk(s, g, PcOf(s, g));
    assert ConnOk(s, PcOf(s, g).c);
  }

  lemma EndOncePc(s: State, g: Gid)
    requires Enabled(s, EndOnce(g)) && PcOk(s, g, PcOf(s, g))
    ensures var t := Apply(s, EndOnce(g)); PcOk(t, g, PcOf(t, g))
  {
    var t := Apply(s, EndOnce(g));
    var p := PcOf(s, g);
    if p.after.NextMessage? { SnapshotStays(s, t, g, p.after.messageTodo, p.after.since); }
  }

  lemma EndOnceInv(s: State, g: Gid)
    requires Inv(s) && Enabled(s, EndOnce(g))
    ensures Inv(Apply(s, EndOnce(g)))
  {
    var e := EndOnce(g);
    var t := Apply(s, e);
    assert PcOk(s, g, PcOf(s, g));
    EndOnceConn(s, g);
    EndOncePc(s, g);
    LocksStay(s, t, g, e);
    LogStays(s, t, e);
    Assemble(s, t, g, e, PcOf(s, g).c);
  }

  /** Only the goroutine inside the once closes the channel, and it has not been closed before. */
  lemma CloseSendInv(s: State, g: Gid, c: Cid)
    requires Inv(s) && Enabled(s, CloseSend(g, c))
    ensures Inv(Apply(s, CloseSend(g, c)))
  {
    var e := CloseSend(g, c);
    var t := Apply(s, e);
    var p := PcOf(s, g);
    assert PcOk(s, g, p);
    assert ConnOk(s, c);
    LocksStay(s, t, g, e);
    forall j | 0 <= j < |t.log| && t.log[j].CloseSend?
      ensures && t.log[j].c in t.conns && t.conns[t.log[j].c].closes > 0
              && t.conns[t.log[j].c].closedAt == j && t.conns[t.log[j].c].closer == t.log[j].g
    {
      if j < |s.log| { assert s.log[j] == t.log[j]; }
    }
    if p.after.NextMessage? { SnapshotStays(s, t, g, p.after.messageTodo, p.after.since); }
    Assemble(s, t, g, e, c);
  }

  lemma KeptByReceive(s: State, c: Cid, g: Gid)
    requires Enabled(s, Receive(c))
    ensures Kept(s, Apply(s, Receive(c)), g)
  {
    var t := Apply(s, Receive(c));
    forall x | x in s.conns ensures ConnKept(s, t, g, x) {
      assert x != c ==> t.conns[x] == s.conns[x];
    }
  }

  lemma ReceiveInv(s: State, c: Cid)
    requires Inv(s) && Enabled(s, Receive(c))
    ensures Inv(Apply(s, Receive(c)))
  {
    var e := Receive(c);
    var t := Apply(s, e);
    assert ConnOk(s, c);
    LogStays(s, t, e);
    forall g: Gid ensures PcOk(t, g, PcOf(t, g)) {
      assert PcOk(s, g, PcOf(s, g));
      KeptByReceive(s, c, g + 1);
      PcKept(s, t, g + 1, g);
    }
    forall x | x in t.conns ensures ConnOk(t, x) {
      assert ConnOk(s, x);
      ConnAfterReceive(s, c, x);
    }
    LocksAfterReceive(s, c);
  }

  lemma ConnAfterReceive(s: State, c: Cid, x: Cid)
    requires Enabled(s, Receive(c)) && x in s.conns && ConnOk(s, x)
    ensures ConnOk(Apply(s, Receive(c)), x)
  {
    if s.conns[x].once.RunningBy? { assert InsideOnce(PcOf(s, s.conns[x].once.g), x); }
  }

  lemma LocksAfterReceive(s: State, c: Cid)
    requires Enabled(s, Receive(c)) && LocksOk(s)
    ensures LocksOk(Apply(s, Receive(c)))
  {
    var t := Apply(s, Receive(c));
    forall h: Gid ensures HoldsWrite(PcOf(t, h)) <==> t.writer == Some(h) {
      assert HoldsWrite(PcOf(s, h)) <==> s.writer == Some(h);
    }
    forall h: Gid ensures PcOf(t, h).DispatchHold? <==> h in t.readers {
      assert PcOf(s, h).DispatchHold? <==> h in s.readers;
    }
  }

  // ---- the write lock ----

  lemma LockLocks(s: State, g: Gid)
    requires Inv(s) && Enabled(s, Lock(g))
    ensures LocksOk(Apply(s, Lock(g)))
  {
    var t := Apply(s, Lock(g));
    forall h: Gid ensures HoldsWrite(PcOf(t, h)) <==> t.writer == Some(h) {
      assert HoldsWrite(PcOf(s, h)) <==> s.writer == Some(h);
    }
    forall h: Gid ensures PcOf(t, h).DispatchHold? <==> h in t.readers {
      assert PcOf(s, h).DispatchHold? <==> h in s.readers;
    }
  }

  lemma RegisterLockInv(s: State, g: Gid, c: Cid)
    requires Inv(s) && Enabled(s, Lock(g)) && PcOf(s, g) == RegisterWait(c)
    ensures Inv(Apply(s, Lock(g)))
  {
    var t := Apply(s, Lock(g));
    assert PcOk(s, g, PcOf(s, g)) && ConnOk(s, c);
    LockLocks(s, g);
    LogStays(s, t, Lock(g));
    Assemble(s, t, g, Lock(g), c);
  }

  lemma RemoveLockInv(s: State, g: Gid)
    requires Inv(s) && Enabled(s, Lock(g)) && PcOf(s, g).Shutdown?
    ensures Inv(Apply(s, Lock(g)))
  {
    var t := Apply(s, Lock(g));
    var p := PcOf(s, g);
    assert PcOk(s, g, p) && ConnOk(s, p.c);
    LockLocks(s, g);
    LogStays(s, t, Lock(g));
    if p.after.NextMessage? { SnapshotStays(s, t, g, p.after.messageTodo, p.after.since); }
    Assemble(s, t, g, Lock(g), p.c);
  }

  lemma CloseLockInv(s: State, g: Gid)
    requires Inv(s) && Enabled(s, Lock(g)) && PcOf(s, g).CloseWait?
    ensures Inv(Apply(s, Lock(g)))
  {
    var t := Apply(s, Lock(g));
    LockLocks(s, g);
    LogStays(s, t, Lock(g));
    LiveAreAdded(s);
    var c: Cid := 0;
    if c in s.conns {
      assert ConnOk(s, c);
      if s.conns[c].once.RunningBy? { assert InsideOnce(PcOf(s, s.conns[c].once.g), c); }
    }
    Assemble(s, t, g, Lock(g), c);
  }

  lemma LockInv(s: State, g: Gid)
    requires Inv(s) && Enabled(s, Lock(g))
    ensures Inv(Apply(s, Lock(g)))
  {
    match PcOf(s, g)
    case RegisterWait(c) => RegisterLockInv(s, g, c);
    case Shutdown(_, _, _) => RemoveLockInv(s, g);
    case CloseWait => CloseLockInv(s, g);
  }

  lemma LiveAreAdded(s: State)
    requires Inv(s)
    ensures AllAdded(s, s.live)
  {
    forall c | c in s.live ensures s.conns[c].added { assert ConnOk(s, c); }
  }

  lemma StepInv(s: State, e: Event)
    requires Inv(s) && Enabled(s, e)
    ensures Inv(Apply(s, e))
  {
    match e
    case CallRegister(_, _, _) => RegisterInv(s, e);
    case Receive(c) => ReceiveInv(s, c);
    case Lock(g) => LockInv(s, g);
    case RLock(g) => RLockInv(s, g);
    case Unlock(g) => if PcOf(s, g).RegisterHold? { RegisteredInv(s, g, PcOf(s, g).c); } else { UnlockInv(s, g); }
    case Offer(g, c) => OfferInv(s, g, c);
    case Once(g) => OnceInv(s, g);
    case CloseSend(g, c) => CloseSendInv(s, g, c);
    case EndOnce(g) => EndOnceInv(s, g);
    case EndNext(_, _) => LoopInv(s, e);
    case LoopDone(_) => LoopInv(s, e);
    case _ => CallInv(s, e);
  }

  lemma {:induction false} RunInv(s: State, es: seq<Event>)
    requires Inv(s) && ValidRun(s, es)
    ensures Inv(Run(s, es))
    decreases |es|
  {
    if es != [] {
      StepInv(s, es[0]);
      RunInv(Apply(s, es[0]), es[1..]);
    }
  }
}
