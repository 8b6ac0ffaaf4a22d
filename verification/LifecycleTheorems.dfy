/** Safety of the connection life cycle over whole runs, in every interleaving of the threads. */
module LifecycleTheorems {
  import EL = EventLoops
  import opened Options
  import opened Poller
  import opened Connections
  import opened Lifecycle
  import opened LifecycleInvariant
  import opened LifecycleSteps

  // ----------------------------------------------------------------- one step

  lemma FunctorKeepsInv(s: State, l: nat)
    requires Inv(s) && Enabled(s, RunFunctor(l))
    ensures Inv(Apply(s, RunFunctor(l)))
  {
    match s.loops[l].batch[s.loops[l].next]
    case DrainTimers => RunDrainKeepsInv(s, l);
    case Establish(c) => RunEstablishKeepsInv(s, l, c);
    case Destroy(c) => RunDestroyKeepsInv(s, l, c);
    case RemoveConn(c) => RunRemoveKeepsInv(s, l, c);
  }

  /** Every step that does not abort keeps everything in order. */
  lemma StepKeepsInv(s: State, a: Action)
    requires Inv(s) && Enabled(s, a) && !Apply(s, a).aborted
    ensures Inv(Apply(s, a))
  {
    match a
    case Wake(t) => MoveKeepsInv(s, EL.Wake(t));
    case PollReturn(l, delivered, events) => PollReturnKeepsInv(s, l, delivered, events);
    case ReadWakeup(l) => MoveKeepsInv(s, EL.ReadWakeup(l));
    case Accept(fd) => AcceptKeepsInv(s, fd);
    case Dispatch(l, io) => DispatchKeepsInv(s, l, io);
    case DoneEvent(l) => DoneEventKeepsInv(s, l);
    case TimerReadable(l) => TimerReadableKeepsInv(s, l);
    case Swap(l) => MoveKeepsInv(s, EL.Swap(l));
    case RunFunctor(l) => FunctorKeepsInv(s, l);
    case Fire(l, c) => FireKeepsInv(s, l, c);
    case EndBatch(l) => MoveKeepsInv(s, EL.EndBatch(l));
    case Free(c) => FreeKeepsInv(s, c);
  }

  /** handleClose is reached on a connection that is closed already and not shielded by a pending
      keep-alive timer. */
  predicate ClosesTwice(s: State, a: Action)
    requires Enabled(s, a)
  {
    match a
    case Fire(_, c) => s.conns[c].core.state == Disconnected
    case Dispatch(l, io) =>
      var e := s.active[l][0];
      var core := s.conns[e.c].core;
      var parsed := !e.close && !e.error && e.read && io.bytes > 0;
      var kept := (core.alive || (parsed && io.keepAlive)) && !core.timeout;
      && core.state == Disconnected && !kept
      && (e.close || e.error || (e.read && io.bytes <= 0) || io.write.bytes <= 0 || io.write.left == 0)
    case _ => false
  }

  /** In good order the server aborts in exactly one situation: closing a connection twice. */
  lemma AbortsIff(s: State, a: Action)
    requires Inv(s) && Enabled(s, a)
    ensures Apply(s, a).aborted <==> ClosesTwice(s, a)
  {
    match a
    case Dispatch(l, io) => DispatchAbortsIff(s, l, io);
    case Fire(l, c) => FireAbortsIff(s, l, c);
    case RunFunctor(l) => FunctorKeepsInv(s, l);
    case Free(c) => UnheldIsDestroyed(s, c);
    case _ =>
  }

  lemma FireAbortsIff(s: State, l: nat, c: nat)
    requires Inv(s) && Enabled(s, Fire(l, c))
    ensures FireTimer(s, l, c).aborted <==> s.conns[c].core.state == Disconnected
  {
    assert ConnOk(s, c) && LoopOk(s, l);
    DisableAllCleanIff(s.polls[l], c, s.conns[c].core.chan);
  }

  lemma CloseAbortsIff(p: Poll<nat>, c: nat, core: Core, stage: nat)
    requires InOrder(p, c, core, stage)
    ensures HandleClose(p, c, core).aborted <==> core.state == Disconnected && !(core.alive && !core.timeout)
  {
    DisableAllCleanIff(p, c, core.chan);
  }

  lemma WriteAbortsIff(p: Poll<nat>, c: nat, core: Core, stage: nat, w: WriteResult)
    requires InOrder(p, c, core, stage)
    ensures HandleWrite(p, c, core, w).aborted <==>
      core.state == Disconnected && !(core.alive && !core.timeout) && (w.bytes <= 0 || w.left == 0)
  {
    CloseAbortsIff(p, c, core, stage);
    EnableCleanIff(p, c, core.chan, ReadEvent);
    EnableCleanIff(p, c, core.chan, WriteEvent);
  }

  lemma ReadAbortsIff(p: Poll<nat>, c: nat, core: Core, stage: nat, r: ReadResult)
    requires InOrder(p, c, core, stage)
    ensures HandleRead(p, c, core, r).aborted <==>
      && core.state == Disconnected
      && !((core.alive || (r.bytes > 0 && r.keepAlive)) && !core.timeout)
      && (r.bytes <= 0 || r.write.bytes <= 0 || r.write.left == 0)
  {
    CloseAbortsIff(p, c, core, stage);
    WriteAbortsIff(p, c, core, stage, r.write);
    WriteAbortsIff(p, c, core.(alive := true), stage, r.write);
  }

  lemma DispatchAbortsIff(s: State, l: nat, io: ReadResult)
    requires Inv(s) && Enabled(s, Dispatch(l, io))
    ensures CallHandler(s, l, io).aborted <==> ClosesTwice(s, Dispatch(l, io))
  {
    var e := s.active[l][0];
    assert LoopOk(s, l) && EventOk(s, l, e) && ConnOk(s, e.c);
    var p, core, stage := s.polls[l], s.conns[e.c].core, Stage(s.conns[e.c]);
    assert CallHandler(s, l, io).aborted == Handle(p, e, core, io).aborted;
    if e.close || e.error {
      CloseAbortsIff(p, e.c, core, stage);
    } else if e.read {
      ReadAbortsIff(p, e.c, core, stage, io);
    } else {
      WriteAbortsIff(p, e.c, core, stage, io.write);
    }
  }

  // --------------------------------------------------------------------- runs

  ghost predicate Initial(s: State) {
    && Shaped(s) && !s.troubled && !s.aborted
    && EL.Initial(s.loops)
    && (forall l :: 0 <= l < |s.loops| ==> s.polls[l] == Poll(map[], map[]) && s.active[l] == [])
    && s.conns == [] && s.mapped == {} && s.timers == {} && s.open == {}
    && s.nextLoop == 1 && s.unsent == {}
  }

  ghost predicate IsRun(s: State, acts: seq<Action>)
    decreases |acts|
  {
    acts == [] || (Enabled(s, acts[0]) && IsRun(Apply(s, acts[0]), acts[1..]))
  }

  ghost function After(s: State, acts: seq<Action>): State
    requires IsRun(s, acts)
    decreases |acts|
  {
    if acts == [] then s else After(Apply(s, acts[0]), acts[1..])
  }

  lemma InitialInv(s: State)
    requires Initial(s)
    ensures Inv(s)
  {
    EL.InitialInv(s.loops);
    forall l | 0 <= l < |s.loops|
      ensures LoopOk(s, l)
    {
      assert s.loops[l] == EL.Fresh<Functor>();
    }
  }

  lemma {:induction false} RunKeepsInv(s: State, acts: seq<Action>)
    requires Inv(s) && IsRun(s, acts) && !After(s, acts).aborted
    ensures Inv(After(s, acts))
    decreases |acts|
  {
    if acts != [] {
      var t := Apply(s, acts[0]);
      assert t.aborted ==> |acts| == 1;
      StepKeepsInv(s, acts[0]);
      RunKeepsInv(t, acts[1..]);
    }
  }

  /** The states the server can be in: after any run that has not aborted. */
  ghost predicate Reachable(s: State) {
    exists s0: State, acts: seq<Action> ::
      Initial(s0) && IsRun(s0, acts) && s == After(s0, acts) && !s.aborted
  }

  lemma ReachableInv(s: State)
    requires Reachable(s)
    ensures Inv(s)
  {
    var s0: State, acts: seq<Action> :|
      Initial(s0) && IsRun(s0, acts) && s == After(s0, acts) && !s.aborted;
    InitialInv(s0);
    RunKeepsInv(s0, acts);
  }

  lemma {:induction false} RunSnoc(s: State, acts: seq<Action>, a: Action)
    requires IsRun(s, acts) && Enabled(After(s, acts), a)
    ensures IsRun(s, acts + [a]) && After(s, acts + [a]) == Apply(After(s, acts), a)
    decreases |acts|
  {
    if acts == [] {
      assert acts + [a] == [a] && [a][1..] == [];
    } else {
      RunSnoc(Apply(s, acts[0]), acts[1..], a);
      assert (acts + [a])[1..] == acts[1..] + [a];
    }
  }

  lemma ReachableStep(s: State, a: Action)
    requires Reachable(s) && Enabled(s, a) && !Apply(s, a).aborted
    ensures Reachable(Apply(s, a))
  {
    var s0: State, acts: seq<Action> :|
      Initial(s0) && IsRun(s0, acts) && s == After(s0, acts) && !s.aborted;
    RunSnoc(s0, acts, a);
  }

  lemma InitialIsReachable(s: State)
    requires Initial(s)
    ensures Reachable(s)
  {
    assert IsRun(s, []) && After(s, []) == s;
  }

  // ----------------------------------------------------------------- theorems

  /** From newConnection until connectDestroyed has run, some shared pointer holds the connection. */
  lemma HeldUntilDestroyed(s: State, c: nat)
    requires Reachable(s) && c < |s.conns| && Destroyed !in s.conns[c].log
    ensures Shaped(s) && Held(s, c) && !s.conns[c].freed
  {
    ReachableInv(s);
    assert ConnOk(s, c);
    assert LIFE[..4] == LIFE && LIFE[3] == Destroyed;
    CountHas(s.loops[s.conns[c].loop], Destroy(c));
  }

  /** The connection a step works on, if any. */
  function Subject(s: State, a: Action): Option<nat>
    requires Enabled(s, a)
  {
    match a
    case Dispatch(l, _) => Some(s.active[l][0].c)
    case Fire(_, c) => Some(c)
    case RunFunctor(l) =>
      var f := s.loops[l].batch[s.loops[l].next];
      if f == DrainTimers then None else Some(f.c)
    case _ => None
  }

  /** The model's guards on Dispatch and RunFunctor never hold a loop up: whatever handler is next in
      the event under way can be called, for anything the kernel may report, and whatever functor is
      next in the batch can run. */
  lemma NothingIsBlocked(s: State, l: nat)
    requires Reachable(s) && l < |s.loops|
    ensures l < |s.active|
    ensures s.active[l] != [] && Idle(s, l) && HasHandler(s.active[l][0]) ==>
              var c := s.active[l][0].c;
              c < |s.conns| &&
              forall io: ReadResult :: CanReport(s.conns[c].core, io.write) ==> Enabled(s, Dispatch(l, io))
    ensures EL.Enabled(s.loops, EL.Begin(l)) ==> Enabled(s, RunFunctor(l))
  {
    ReachableInv(s);
    if s.active[l] != [] && Idle(s, l) && HasHandler(s.active[l][0]) {
      HeadIsKnown(s, l);
      var c := s.active[l][0].c;
      forall io: ReadResult | CanReport(s.conns[c].core, io.write)
        ensures Enabled(s, Dispatch(l, io))
      {
        CanDispatch(s, l, io);
      }
    }
    if EL.Enabled(s.loops, EL.Begin(l)) {
      CanRunFunctor(s, l);
    }
  }

  lemma HeadIsKnown(s: State, l: nat)
    requires Inv(s) && l < |s.loops| && s.active[l] != []
    ensures s.active[l][0].c < |s.conns| && s.conns[s.active[l][0].c].loop == l && l > 0
    ensures s.loops[l].phase == EL.Handling
  {
    assert LoopOk(s, l);
    assert EventOk(s, l, s.active[l][0]);
  }

  lemma CanDispatch(s: State, l: nat, io: ReadResult)
    requires Shaped(s) && !s.aborted && 0 < l < |s.loops| && s.loops[l].phase == EL.Handling && Idle(s, l)
    requires s.active[l] != [] && HasHandler(s.active[l][0])
    requires s.active[l][0].c < |s.conns| && s.conns[s.active[l][0].c].loop == l
    requires CanReport(s.conns[s.active[l][0].c].core, io.write)
    ensures Enabled(s, Dispatch(l, io))
  {
  }

  lemma CanRunFunctor(s: State, l: nat)
    requires Inv(s) && EL.Enabled(s.loops, EL.Begin(l))
    ensures Enabled(s, RunFunctor(l))
  {
    var f := s.loops[l].batch[s.loops[l].next];
    assert LoopOk(s, l);
    assert Has(s.loops[l], f) && Placed(s, l, f);
  }

  /** No handler and no functor, also not the one bound to a raw pointer, ever works on a connection
      that nothing holds. */
  lemma WorksOnLiveObjects(s: State, a: Action)
    requires Reachable(s) && Enabled(s, a) && Subject(s, a).Some?
    ensures Subject(s, a).value < |s.conns| && Held(s, Subject(s, a).value) && !s.conns[Subject(s, a).value].freed
  {
    ReachableInv(s);
    var c := Subject(s, a).value;
    match a
    case Dispatch(l, _) =>
      assert LoopOk(s, l) && EventOk(s, l, s.active[l][0]);
      EarlyIsHeld(s, c);
    case Fire(_, _) =>
      assert ConnOk(s, c);
    case RunFunctor(l) =>
      UpcomingStage(s, l, s.loops[l].batch[s.loops[l].next]);
      EarlyIsHeld(s, c);
  }

  lemma EarlyIsHeld(s: State, c: nat)
    requires Inv(s) && c < |s.conns| && Stage(s.conns[c]) <= 3
    ensures Held(s, c) && !s.conns[c].freed
  {
    assert ConnOk(s, c);
    CountHas(s.loops[s.conns[c].loop], Destroy(c));
  }

  /** Established, closed, unmapped, destroyed: in this order and at most once each; and when the
      object is gone, all four have happened and it was disconnected. */
  lemma LifeIsOrdered(s: State, c: nat)
    requires Reachable(s) && c < |s.conns|
    ensures s.conns[c].log <= [Established, Closed, Unmapped, Destroyed]
    ensures s.conns[c].freed ==> s.conns[c].log == [Established, Closed, Unmapped, Destroyed]
    ensures s.conns[c].freed ==> s.conns[c].core.state == Disconnected
    ensures Shaped(s) && (!Held(s, c) ==> s.conns[c].core.state == Disconnected)
  {
    ReachableInv(s);
    assert ConnOk(s, c);
    assert LIFE[..4] == LIFE;
    if !Held(s, c) {
      UnheldIsDestroyed(s, c);
    }
  }

  /** A channel leaves its loop's map only while that loop runs functors, never while it handles
      events. */
  lemma RemovedOutsideHandling(s: State, a: Action, l: nat, fd: int)
    requires Reachable(s) && Enabled(s, a)
    requires l < |s.polls| && l < |Apply(s, a).polls|
    requires fd in s.polls[l].channels && fd !in Apply(s, a).polls[l].channels
    ensures s.loops[l].phase == EL.Running
  {
    ReachableInv(s);
    match a
    case RunFunctor(m) =>
      var f := s.loops[m].batch[s.loops[m].next];
      if f != DrainTimers {
        UpcomingStage(s, m, f);
      }
    case Dispatch(m, io) => DispatchKeepsChannels(s, m, io);
    case Fire(m, c) =>
    case _ =>
  }

  lemma DispatchKeepsChannels(s: State, l: nat, io: ReadResult)
    requires Inv(s) && Enabled(s, Dispatch(l, io))
    ensures forall m, fd :: 0 <= m < |s.polls| && fd in s.polls[m].channels ==>
              fd in CallHandler(s, l, io).polls[m].channels
  {
    var e := s.active[l][0];
    var h := Handle(s.polls[l], e, s.conns[e.c].core, io);
    assert forall fd :: fd in s.polls[l].channels ==> fd in h.poll.channels;
  }

  /** An fd number is handed out again only after the channel that had it left its loop's map: no
      map entry ever survives the close of its fd, and a channel that registers as new never finds
      its fd taken. */
  lemma FdsAreReusedSafely(s: State, a: Action)
    requires Reachable(s) && Enabled(s, a)
    ensures a.Free? ==> s.conns[a.c].core.chan.fd !in s.polls[s.conns[a.c].loop].channels
    ensures a.Accept? ==> forall l :: 0 <= l < |s.polls| ==> a.fd !in s.polls[l].channels
    ensures forall c :: 0 <= c < |s.conns| && s.conns[c].log == [] ==>
              s.conns[c].core.chan.fd !in s.polls[s.conns[c].loop].channels
  {
    ReachableInv(s);
    match a {
      case Free(c) =>
        UnheldIsDestroyed(s, c);
        assert ConnOk(s, c);
        NewFdIsFree(s, c);
      case Accept(fd) =>
        forall l | 0 <= l < |s.polls|
          ensures fd !in s.polls[l].channels
        {
          if fd in s.polls[l].channels {
            OwnerIsOpen(s, l, fd);
          }
        }
      case _ =>
    }
    forall c | 0 <= c < |s.conns| && s.conns[c].log == []
      ensures s.conns[c].core.chan.fd !in s.polls[s.conns[c].loop].channels
    {
      assert ConnOk(s, c);
      NewFdIsFree(s, c);
    }
  }

  lemma OwnerIsOpen(s: State, l: nat, fd: int)
    requires Inv(s) && l < |s.loops| && fd in s.polls[l].channels
    ensures fd in s.open
  {
    ChannelOwner(s, l, fd);
    assert ConnOk(s, s.polls[l].channels[fd]);
  }

  /** The books of every poller agree in every reachable state, and the poller never reported an
      error: the server obeys the call discipline. */
  lemma ServerIsDisciplined(s: State, c: nat)
    requires Reachable(s) && c < |s.conns|
    ensures !s.troubled && Shaped(s)
    ensures Consistent(s.polls[s.conns[c].loop]) && Agrees(s.polls[s.conns[c].loop], c, s.conns[c].core.chan)
  {
    ReachableInv(s);
    assert ConnOk(s, c) && LoopOk(s, s.conns[c].loop);
  }

  /** No connection leaks: a new one and a closed one have the functor that takes them further still
      to run, pending or in the rest of the batch; an open keep-alive one has its timer in the heap. */
  lemma NothingIsForgotten(s: State, c: nat)
    requires Reachable(s) && c < |s.conns|
    ensures Shaped(s)
    ensures forall l :: 0 <= l < |s.loops| ==> s.loops[l].next <= |s.loops[l].batch|
    ensures s.conns[c].log == [] ==> Establish(c) in EL.Todo(s.loops[s.conns[c].loop])
    ensures s.conns[c].log == [Established] && s.conns[c].core.alive ==> c in s.timers
    ensures s.conns[c].log == [Established, Closed] ==> RemoveConn(c) in EL.Todo(s.loops[0])
    ensures s.conns[c].log == [Established, Closed, Unmapped] ==> Destroy(c) in EL.Todo(s.loops[s.conns[c].loop])
  {
    ReachableInv(s);
    assert ConnOk(s, c);
    forall l | 0 <= l < |s.loops| ensures s.loops[l].next <= |s.loops[l].batch| {
      assert EL.Fifo(s.loops[l]);
    }
  }

  /** The functor queues of the running server are conserved and never lose a wakeup. */
  lemma QueuesAreSound(s: State, l: nat)
    requires Reachable(s) && l < |s.loops|
    ensures EL.Fifo(s.loops[l]) && EL.Awaited(s.loops, l)
  {
    ReachableInv(s);
  }
}
