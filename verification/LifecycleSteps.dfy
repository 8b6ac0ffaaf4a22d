/** Each step of the server keeps the invariant. */
module LifecycleSteps {
  import EL = EventLoops
  import opened Poller
  import opened Connections
  import opened Lifecycle
  import opened LifecycleInvariant

  /** The next handler would enable the channel of a connection that is closed already. */
  predicate Rearms(s: State, a: Action)
    requires Enabled(s, a)
  {
    && a.Dispatch?
    && var e := s.active[a.l][0];
       var core := s.conns[e.c].core;
       !e.close && !e.error && if e.read then ReadRearms(core, a.io) else WriteRearms(core, a.io.write)
  }

  /** No step ever does: an event under way belongs to an open connection, or to one that its close
      has shut for writing, and then the handler's write reports nothing sent. */
  lemma NoStepRearms(s: State, a: Action)
    requires Inv(s) && Enabled(s, a)
    ensures !Rearms(s, a)
  {
    if a.Dispatch? {
      var e := s.active[a.l][0];
      var core := s.conns[e.c].core;
      assert LoopOk(s, a.l) && EventOk(s, a.l, e) && ConnOk(s, e.c);
      if core.state == Disconnected {
        ShutNeverRearms(core, a.io);
      }
    }
  }

  // ------------------------------------------------------ handlers and timers

  /** The part of a handler's result that concerns the timer heap. */
  predicate TimersOk(inHeap: bool, stage: nat, e: Effect<nat>) {
    && (e.core.timeout ==> e.core.alive)
    && (inHeap ==> e.core.alive && !e.core.timeout)
    && (!e.closed && stage == 1 && e.core.alive ==> inHeap)
  }

  /** `u` is `s` while a handler of `c` runs: events or timers have been advanced already. */
  ghost predicate MidHandler(s: State, u: State, l: nat, c: nat) {
    && Inv(s) && 0 < l < |s.loops| && c < |s.conns| && s.conns[c].loop == l
    && 1 <= Stage(s.conns[c]) <= 3
    && Idle(s, l) && s.loops[l].phase != EL.Polling
    && u == s.(active := u.active, timers := u.timers) && |u.active| == |s.active|
    && (forall j :: j != c ==> (j in u.timers <==> j in s.timers))
    && (forall m, e :: 0 <= m < |s.loops| && e in u.active[m] ==> EventOk(s, m, e))
    && (forall m :: 0 <= m < |s.loops| && u.active[m] != [] ==> s.loops[m].phase == EL.Handling && m > 0)
  }

  /** What Fine and TimersOk leave to check about the recorded connection. */
  ghost predicate Recordable(s: State, u: State, l: nat, c: nat, e: Effect<nat>)
    requires MidHandler(s, u, l, c)
  {
    var stage := Stage(s.conns[c]);
    && !e.aborted && !e.troubled
    && Consistent(e.poll) && Agrees(e.poll, c, e.core.chan) && OthersAgree(s.polls[l], e.poll, c)
    && e.core.chan.fd == s.conns[c].core.chan.fd && e.poll.channels == s.polls[l].channels
    && (if e.closed then stage == 1 && CoreAt(2, e.core) else CoreAt(stage, e.core))
    && TimersOk(e.timer || c in u.timers, stage, e)
    && (e.closed || stage >= 2 ==> e.core.shut || u.active[l] == [])
  }

  lemma RecordShape(s: State, u: State, l: nat, c: nat, e: Effect<nat>)
    requires MidHandler(s, u, l, c) && Recordable(s, u, l, c, e)
    ensures
      var t := Record(u, l, c, e);
      && t == u.(polls := s.polls[l := e.poll], conns := t.conns, timers := t.timers, loops := t.loops)
      && t.conns == s.conns[c := t.conns[c]]
      && t.conns[c] == s.conns[c].(core := e.core, log := s.conns[c].log + if e.closed then [Closed] else [])
      && t.loops == (if e.closed then Push(s.loops, l, 0, RemoveConn(c)) else s.loops)
      && (c in t.timers <==> e.timer || c in u.timers)
      && (forall j :: j != c ==> (j in t.timers <==> j in s.timers))
  {
  }

  lemma RecordWork(s: State, u: State, l: nat, c: nat, e: Effect<nat>)
    requires MidHandler(s, u, l, c) && Recordable(s, u, l, c, e)
    ensures EL.Inv(Record(u, l, c, e).loops) && WorkAbout(s, Record(u, l, c, e), c)
    ensures forall m :: 0 <= m < |s.loops| ==> Record(u, l, c, e).loops[m].phase == s.loops[m].phase
  {
    var t := Record(u, l, c, e);
    if e.closed {
      assert t.loops == Push(s.loops, l, 0, RemoveConn(c));
      PushStep(s.loops, l, 0, RemoveConn(c));
      PushIsAbout(s, t, c, l, 0, RemoveConn(c));
    } else {
      SameLoopsAreAbout(s, t, c);
    }
  }

  lemma RecordCounts(s: State, u: State, l: nat, c: nat, e: Effect<nat>)
    requires MidHandler(s, u, l, c) && Recordable(s, u, l, c, e)
    requires WorkAbout(s, Record(u, l, c, e), c)
    ensures
      var t := Record(u, l, c, e);
      && Count(t.loops[l], Establish(c)) == Count(s.loops[l], Establish(c))
      && Count(t.loops[l], Destroy(c)) == Count(s.loops[l], Destroy(c))
      && Count(t.loops[0], RemoveConn(c)) == Count(s.loops[0], RemoveConn(c)) + One(e.closed)
  {
    if e.closed {
      PushStep(s.loops, l, 0, RemoveConn(c));
    }
  }

  lemma RecordTouches(s: State, u: State, l: nat, c: nat, e: Effect<nat>)
    requires MidHandler(s, u, l, c) && Recordable(s, u, l, c, e)
    ensures Touches(s, Record(u, l, c, e), c)
    ensures NeighboursAgree(s, e.poll, c) && PollOk(Record(u, l, c, e), l)
  {
    var t := Record(u, l, c, e);
    RecordShape(s, u, l, c, e);
    RecordWork(s, u, l, c, e);
    NeighboursStay(s, e.poll, c);
    RecordPollOk(s, u, l, c, e);
    HandlerTouches(s, t, l, c, e.poll);
  }

  lemma HandlerTouches(s: State, t: State, l: nat, c: nat, p: Poll<nat>)
    requires Shaped(s) && Shaped(t) && c < |s.conns| && s.conns[c].loop == l && |t.loops| == |s.loops|
    requires |t.conns| == |s.conns| && t.conns == s.conns[c := t.conns[c]] && t.polls == s.polls[l := p]
    requires t.conns[c].loop == l && t.conns[c].core.chan.fd == s.conns[c].core.chan.fd
    requires t.conns[c].freed == s.conns[c].freed
    requires t.mapped == s.mapped && t.open == s.open && 1 <= Stage(t.conns[c]) <= 3
    requires Stage(t.conns[c]) >= 2 ==> t.conns[c].core.shut || t.active[l] == []
    requires forall j :: j != c ==> (j in t.timers <==> j in s.timers)
    requires WorkAbout(s, t, c) && forall m :: 0 <= m < |s.loops| ==> t.loops[m].phase == s.loops[m].phase
    requires forall m, e :: 0 <= m < |s.loops| && e in t.active[m] ==> EventOk(s, m, e)
    requires forall m :: 0 <= m < |s.loops| && t.active[m] != [] ==> s.loops[m].phase == EL.Handling && m > 0
    ensures Touches(s, t, c)
  {
  }

  lemma RecordPollOk(s: State, u: State, l: nat, c: nat, e: Effect<nat>)
    requires MidHandler(s, u, l, c) && Recordable(s, u, l, c, e)
    ensures PollOk(Record(u, l, c, e), l)
  {
    assert LoopOk(s, l);
    var t := Record(u, l, c, e);
    forall fd | fd in e.poll.channels
      ensures var d := e.poll.channels[fd];
        d < |t.conns| && t.conns[d].loop == l && t.conns[d].core.chan.fd == fd
    {
      assert fd in s.polls[l].channels;
    }
  }

  lemma NeighboursStay(s: State, q: Poll<nat>, c: nat)
    requires Inv(s) && c < |s.conns| && OthersAgree(s.polls[s.conns[c].loop], q, c)
    ensures NeighboursAgree(s, q, c)
  {
    forall j | 0 <= j < |s.conns| && j != c && s.conns[j].loop == s.conns[c].loop
      ensures Agrees(q, j, s.conns[j].core.chan)
    {
      assert ConnOk(s, j);
    }
  }

  lemma ActiveIsOk(s: State)
    requires Inv(s)
    ensures forall m, e :: 0 <= m < |s.loops| && e in s.active[m] ==> EventOk(s, m, e)
    ensures forall m :: 0 <= m < |s.loops| && s.active[m] != [] ==> s.loops[m].phase == EL.Handling && m > 0
  {
    forall m, e | 0 <= m < |s.loops| && e in s.active[m]
      ensures EventOk(s, m, e)
    {
      assert LoopOk(s, m);
    }
    forall m | 0 <= m < |s.loops| && s.active[m] != []
      ensures s.loops[m].phase == EL.Handling && m > 0
    {
      assert LoopOk(s, m);
    }
  }

  lemma RecordKeepsInv(s: State, u: State, l: nat, c: nat, e: Effect<nat>)
    requires MidHandler(s, u, l, c) && Recordable(s, u, l, c, e)
    ensures Inv(Record(u, l, c, e))
  {
    var t := Record(u, l, c, e);
    RecordShape(s, u, l, c, e);
    RecordTouches(s, u, l, c, e);
    RecordWork(s, u, l, c, e);
    RecordCounts(s, u, l, c, e);
    assert ConnOk(s, c);
    LogGrows(s.conns[c].log);
    TouchKeepsInv(s, t, c);
  }

  lemma FireKeepsInv(s: State, l: nat, c: nat)
    requires Inv(s) && Enabled(s, Fire(l, c)) && !FireTimer(s, l, c).aborted
    ensures Inv(FireTimer(s, l, c))
  {
    assert ConnOk(s, c) && LoopOk(s, l);
    var core, stage := s.conns[c].core, Stage(s.conns[c]);
    var e := CloseLongConnection(s.polls[l], c, core);
    assert stage == 1;
    CloseOutcome(s.polls[l], c, core.(timeout := true), stage);
    var u := s.(timers := s.timers - {c});
    assert MidHandler(s, u, l, c) by { MidHandlerFire(s, u, l, c); }
    RecordKeepsInv(s, u, l, c, e);
  }

  lemma MidHandlerFire(s: State, u: State, l: nat, c: nat)
    requires Inv(s) && Enabled(s, Fire(l, c)) && u == s.(timers := s.timers - {c})
    requires 1 <= Stage(s.conns[c]) <= 3
    ensures MidHandler(s, u, l, c)
  {
    ActiveIsOk(s);
  }

  lemma DispatchKeepsInv(s: State, l: nat, io: ReadResult)
    requires Inv(s) && Enabled(s, Dispatch(l, io))
    requires !CallHandler(s, l, io).aborted
    ensures Inv(CallHandler(s, l, io))
  {
    var ev := s.active[l][0];
    var c := ev.c;
    assert LoopOk(s, l) && EventOk(s, l, ev);
    assert ConnOk(s, c);
    var e := Handle(s.polls[l], ev, s.conns[c].core, io);
    NoStepRearms(s, Dispatch(l, io));
    HandlerIsFine(s.polls[l], ev, s.conns[c].core, Stage(s.conns[c]), io);
    var u := s.(active := s.active[l := [Called(ev)] + s.active[l][1..]]);
    MidHandlerDispatch(s, u, l);
    RecordKeepsInv(s, u, l, c, e);
    UnsentIsHistory(Record(u, l, c, e), Unsent(s.unsent, ev, io));
  }

  lemma HandlerIsFine(p: Poll<nat>, ev: Event, core: Core, stage: nat, io: ReadResult)
    requires InOrder(p, ev.c, core, stage)
    requires ev.close || ev.error || if ev.read then !ReadRearms(core, io) else !WriteRearms(core, io.write)
    ensures var e := Handle(p, ev, core, io); !e.aborted ==> Fine(p, ev.c, core, stage, e)
  {
    if ev.close || ev.error {
      CloseOutcome(p, ev.c, core, stage);
    } else if ev.read {
      ReadOutcomeFine(p, ev.c, core, stage, io);
    } else {
      WriteOutcomeFine(p, ev.c, core, stage, io.write);
    }
  }

  lemma UnsentIsHistory(s: State, unsent: set<nat>)
    requires Inv(s)
    ensures Inv(s.(unsent := unsent))
  {
    var t := s.(unsent := unsent);
    forall c | 0 <= c < |t.conns|
      ensures ConnOk(t, c)
    {
      assert ConnOk(s, c);
      FrameConn(s, t, c);
    }
    forall l | 0 <= l < |t.loops|
      ensures LoopOk(t, l)
    {
      assert LoopOk(s, l);
      assert forall f :: Has(t.loops[l], f) ==> Placed(s, l, f) && Placed(t, l, f);
      assert forall e :: e in t.active[l] ==> EventOk(s, l, e) && EventOk(t, l, e);
    }
  }

  lemma MidHandlerDispatch(s: State, u: State, l: nat)
    requires Inv(s) && 0 < l < |s.loops| && s.loops[l].phase == EL.Handling && Idle(s, l) && s.active[l] != []
    requires u == s.(active := s.active[l := [Called(s.active[l][0])] + s.active[l][1..]])
    ensures MidHandler(s, u, l, s.active[l][0].c)
  {
    ActiveIsOk(s);
    var head := s.active[l][0];
    assert head in s.active[l];
    forall e | e in u.active[l]
      ensures EventOk(s, l, e)
    {
      if e != Called(head) {
        assert e in s.active[l][1..];
        assert e in s.active[l];
      }
    }
  }

  lemma LogGrows(log: seq<Life>)
    requires |log| < 4 && log == LIFE[..|log|]
    ensures log + [LIFE[|log|]] == LIFE[..|log| + 1]
  {
  }

  // -------------------------------------------------------- functors about nothing

  /** Work changed only in drains. */
  lemma DrainWorkKeepsInv(s: State, t: State)
    requires Inv(s) && t == s.(loops := t.loops) && EL.Inv(t.loops) && WorkAbout(s, t, |s.conns|)
    requires forall m :: 0 <= m < |s.loops| ==> t.loops[m].phase == s.loops[m].phase
    ensures Inv(t)
  {
    forall j | 0 <= j < |t.conns|
      ensures ConnOk(t, j)
    {
      assert ConnOk(s, j);
      WorkCounts(s, t, |s.conns|, j, s.conns[j].loop);
      FrameConn(s, t, j);
    }
    forall m | 0 <= m < |t.loops|
      ensures LoopOk(t, m)
    {
      assert LoopOk(s, m);
      forall f | Has(t.loops[m], f)
        ensures Placed(t, m, f)
      {
        assert Has(s.loops[m], f) ==> Placed(s, m, f);
      }
    }
  }

  lemma TimerReadableKeepsInv(s: State, l: nat)
    requires Inv(s) && Enabled(s, TimerReadable(l))
    ensures Inv(QueueDrain(s, l))
  {
    var t := QueueDrain(s, l);
    PushStep(s.loops, l, l, DrainTimers);
    PushIsAbout(s, t, |s.conns|, l, l, DrainTimers);
    DrainWorkKeepsInv(s, t);
  }

  lemma RunDrainKeepsInv(s: State, l: nat)
    requires Inv(s) && EL.Enabled(s.loops, EL.Begin(l)) && s.loops[l].batch[s.loops[l].next] == DrainTimers
    ensures Inv(Run(s, l, DrainTimers))
  {
    var t := Run(s, l, DrainTimers);
    BeginStep(s.loops, l);
    BeginIsAbout(s, t, |s.conns|, l);
    DrainWorkKeepsInv(s, t);
  }

  // --------------------------------------------------------------- new connections

  lemma NoStrangers(s: State, m: nat, f: Functor)
    requires Inv(s) && m < |s.loops| && f != DrainTimers && f.c >= |s.conns|
    ensures s.loops[m].next <= |s.loops[m].batch| && Count(s.loops[m], f) == 0
  {
    assert EL.Fifo(s.loops[m]);
    assert LoopOk(s, m);
    CountHas(s.loops[m], f);
    assert Has(s.loops[m], f) ==> Placed(s, m, f);
  }

  lemma AcceptedIsOk(s: State, fd: int)
    requires Inv(s) && Enabled(s, Accept(fd))
    ensures Shaped(NewConnection(s, fd)) && ConnOk(NewConnection(s, fd), |s.conns|)
  {
    var t, c, l := NewConnection(s, fd), |s.conns|, s.nextLoop;
    AcceptShape(s, fd);
    AcceptCounts(s, t, l, c);
    assert LoopOk(s, l);
    NewcomerIsOk(s, t, c, l, fd);
  }

  lemma AcceptShape(s: State, fd: int)
    requires Enabled(s, Accept(fd))
    ensures
      var t, c, l := NewConnection(s, fd), |s.conns|, s.nextLoop;
      && Shaped(t) && |t.loops| == |s.loops|
      && t.conns == s.conns + [Conn(l, Core(Connecting, false, false, false, Chan(fd, KNew, NoneEvent)), [], false)]
      && t.polls == s.polls && c in t.mapped && t.timers == s.timers && fd in t.open
      && t.loops == Push(s.loops, 0, l, Establish(c))
  {
  }

  lemma NewcomerIsOk(s: State, t: State, c: nat, l: nat, fd: int)
    requires Shaped(s) && Shaped(t) && 0 < l < |t.loops| && |t.loops| == |s.loops| && c == |s.conns|
    requires t.conns == s.conns + [Conn(l, Core(Connecting, false, false, false, Chan(fd, KNew, NoneEvent)), [], false)]
    requires t.polls == s.polls && PollOk(s, l)
    requires c in t.mapped && c !in t.timers && fd in t.open
    requires t.loops[0].next <= |t.loops[0].batch| && t.loops[l].next <= |t.loops[l].batch|
    requires Count(t.loops[l], Establish(c)) == 1 && Count(t.loops[l], Destroy(c)) == 0
    requires Count(t.loops[0], RemoveConn(c)) == 0
    ensures ConnOk(t, c)
  {
    assert t.conns[c].log == LIFE[..0];
    assert !Mapped(t.polls[l], c, fd);
  }

  /** The functor queued for the new connection is the only one about it. */
  lemma AcceptCounts(s: State, t: State, l: nat, c: nat)
    requires Inv(s) && c == |s.conns| && 0 < l < |s.loops| && EL.Enabled(s.loops, EL.Push(0, l, Establish(c)))
    requires t.loops == Push(s.loops, 0, l, Establish(c))
    ensures t.loops[0].next <= |t.loops[0].batch| && t.loops[l].next <= |t.loops[l].batch|
    ensures Count(t.loops[l], Establish(c)) == 1 && Count(t.loops[l], Destroy(c)) == 0
    ensures Count(t.loops[0], RemoveConn(c)) == 0
  {
    PushStep(s.loops, 0, l, Establish(c));
    NoStrangers(s, l, Establish(c));
    NoStrangers(s, 0, RemoveConn(c));
    NoStrangers(s, l, Destroy(c));
    assert EL.Fifo(t.loops[0]) && EL.Fifo(t.loops[l]);
  }

  lemma AcceptFrame(s: State, fd: int, j: nat)
    requires Inv(s) && Enabled(s, Accept(fd)) && j < |s.conns|
    requires Shaped(NewConnection(s, fd)) && WorkAbout(s, NewConnection(s, fd), |s.conns|)
    ensures ConnOk(NewConnection(s, fd), j)
  {
    assert ConnOk(s, j);
    WorkCounts(s, NewConnection(s, fd), |s.conns|, j, s.conns[j].loop);
    FrameConn(s, NewConnection(s, fd), j);
  }

  lemma AcceptFdsDiffer(s: State, fd: int)
    requires Inv(s) && Enabled(s, Accept(fd))
    ensures FdsDiffer(NewConnection(s, fd))
  {
    forall j | 0 <= j < |s.conns| && !s.conns[j].freed
      ensures s.conns[j].core.chan.fd != fd
    {
      assert ConnOk(s, j);
    }
  }

  lemma AcceptConnsOk(s: State, fd: int)
    requires Inv(s) && Enabled(s, Accept(fd)) && Shaped(NewConnection(s, fd))
    ensures forall j :: 0 <= j < |s.conns| ==> ConnOk(NewConnection(s, fd), j)
  {
    PushIsAbout(s, NewConnection(s, fd), |s.conns|, 0, s.nextLoop, Establish(|s.conns|));
    forall j | 0 <= j < |s.conns|
      ensures ConnOk(NewConnection(s, fd), j)
    {
      AcceptFrame(s, fd, j);
    }
  }

  lemma AcceptKeepsInv(s: State, fd: int)
    requires Inv(s) && Enabled(s, Accept(fd))
    ensures Inv(NewConnection(s, fd))
  {
    var t := NewConnection(s, fd);
    AcceptedIsOk(s, fd);
    AcceptConnsOk(s, fd);
    EL.StepKeepsInv(s.loops, EL.Push(0, s.nextLoop, Establish(|s.conns|)));
    AcceptFdsDiffer(s, fd);
    forall m | 0 <= m < |t.loops|
      ensures LoopOk(t, m)
    {
      AcceptLoopOk(s, fd, m);
    }
  }

  lemma AcceptLoopOk(s: State, fd: int, m: nat)
    requires Inv(s) && Enabled(s, Accept(fd)) && m < |s.loops|
    ensures Shaped(NewConnection(s, fd)) && LoopOk(NewConnection(s, fd), m)
  {
    var t, c, l := NewConnection(s, fd), |s.conns|, s.nextLoop;
    PushStep(s.loops, 0, l, Establish(c));
    assert LoopOk(s, m);
    forall f | Has(t.loops[m], f)
      ensures Placed(t, m, f)
    {
      assert Has(s.loops[m], f) ==> Placed(s, m, f);
    }
    forall e | e in t.active[m]
      ensures EventOk(t, m, e)
    {
      assert EventOk(s, m, e);
    }
  }

  // ---------------------------------------------------------- establish and destroy

  /** The functor about to run on `l`. */
  predicate Upcoming(s: State, l: nat, f: Functor) {
    EL.Enabled(s.loops, EL.Begin(l)) && s.loops[l].batch[s.loops[l].next] == f
  }

  /** What is known of a connection whose functor is reached. */
  lemma UpcomingStage(s: State, l: nat, f: Functor)
    requires Inv(s) && Upcoming(s, l, f) && f != DrainTimers
    ensures Placed(s, l, f)
    ensures f.Establish? ==> Stage(s.conns[f.c]) == 0
    ensures f.RemoveConn? ==> Stage(s.conns[f.c]) == 2
    ensures f.Destroy? ==> Stage(s.conns[f.c]) == 3
  {
    BeginStep(s.loops, l);
    assert LoopOk(s, l);
    assert Count(s.loops[l], f) > 0;
    assert ConnOk(s, f.c);
  }

  /** Whatever a loop's map holds is a live connection that is registered under its own fd. */
  lemma ChannelOwner(s: State, l: nat, fd: int)
    requires Inv(s) && l < |s.loops| && fd in s.polls[l].channels
    ensures
      var d := s.polls[l].channels[fd];
      && d < |s.conns| && s.conns[d].loop == l && s.conns[d].core.chan.fd == fd
      && 1 <= Stage(s.conns[d]) <= 3 && !s.conns[d].freed
  {
    assert LoopOk(s, l);
    assert ConnOk(s, s.polls[l].channels[fd]);
  }

  /** The fd of a connection that is not registered is not in its loop's map: the kNew branch of
      updateChannel never finds it there. */
  lemma NewFdIsFree(s: State, c: nat)
    requires Inv(s) && c < |s.conns| && !s.conns[c].freed && s.conns[c].core.chan.index == KNew
    ensures s.conns[c].core.chan.fd !in s.polls[s.conns[c].loop].channels
  {
    assert ConnOk(s, c);
    if s.conns[c].core.chan.fd in s.polls[s.conns[c].loop].channels {
      ChannelOwner(s, s.conns[c].loop, s.conns[c].core.chan.fd);
    }
  }

  /** The result of running Establish or Destroy is in order. */
  ghost predicate Registered(s: State, l: nat, c: nat, e: Effect<nat>)
    requires Shaped(s) && c < |s.conns| && l < |s.loops|
  {
    var stage := Stage(s.conns[c]);
    && !e.aborted && !e.troubled && !e.closed && !e.timer && stage < 4
    && Consistent(e.poll) && Agrees(e.poll, c, e.core.chan) && OthersAgree(s.polls[l], e.poll, c)
    && e.core.chan.fd == s.conns[c].core.chan.fd
    && e.core.alive == s.conns[c].core.alive && e.core.timeout == s.conns[c].core.timeout
    && CoreAt(stage + 1, e.core)
  }

  lemma EstablishEffect(s: State, l: nat, c: nat)
    requires Inv(s) && Upcoming(s, l, Establish(c))
    ensures Placed(s, l, Establish(c)) && Stage(s.conns[c]) == 0
    ensures
      var e := ConnectEstablished(s.polls[l], c, s.conns[c].core);
      Registered(s, l, c, e) && e.poll.channels == s.polls[l].channels[s.conns[c].core.chan.fd := c]
  {
    UpcomingStage(s, l, Establish(c));
    var core := s.conns[c].core;
    assert ConnOk(s, c) && LoopOk(s, l);
    NewFdIsFree(s, c);
    EnableCleanIff(s.polls[l], c, core.chan, ReadEvent);
    OthersStay(s.polls[l], c, core.chan, ReadEvent);
  }

  lemma DestroyEffect(s: State, l: nat, c: nat)
    requires Inv(s) && Upcoming(s, l, Destroy(c))
    ensures Placed(s, l, Destroy(c)) && Stage(s.conns[c]) == 3
    ensures
      var e := ConnectDestroyed(s.polls[l], c, s.conns[c].core);
      Registered(s, l, c, e) && e.poll.channels == s.polls[l].channels - {s.conns[c].core.chan.fd}
  {
    UpcomingStage(s, l, Destroy(c));
    var core := s.conns[c].core;
    assert ConnOk(s, c) && LoopOk(s, l);
    RemoveCleanIff(s.polls[l], c, core.chan);
    OthersStay(s.polls[l], c, core.chan, NoneEvent);
  }

  /** Establish or Destroy, with its effect, is what loop `l` is about to run. */
  ghost predicate RegisteringStep(s: State, l: nat, c: nat, f: Functor, e: Effect<nat>) {
    && Inv(s) && Upcoming(s, l, f) && f != DrainTimers && f.c == c
    && c < |s.conns| && s.conns[c].loop == l && Registered(s, l, c, e)
    && (|| (f == Establish(c) && Stage(s.conns[c]) == 0 && e.poll.channels == s.polls[l].channels[e.core.chan.fd := c])
        || (f == Destroy(c) && Stage(s.conns[c]) == 3 && e.poll.channels == s.polls[l].channels - {e.core.chan.fd}))
  }

  function AfterRegistering(s: State, l: nat, c: nat, e: Effect<nat>): State
    requires Shaped(s) && EL.Enabled(s.loops, EL.Begin(l)) && c < |s.conns| && Stage(s.conns[c]) < 4
  {
    Registering(Moved(s, EL.Begin(l)), l, c, e, LIFE[Stage(s.conns[c])])
  }

  lemma RegisteringTouches(s: State, l: nat, c: nat, f: Functor, e: Effect<nat>)
    requires RegisteringStep(s, l, c, f, e)
    ensures Touches(s, AfterRegistering(s, l, c, e), c)
  {
    var t := AfterRegistering(s, l, c, e);
    BeginStep(s.loops, l);
    BeginIsAbout(s, t, c, l);
    ActiveIsOk(s);
  }

  lemma RegisteringConnOk(s: State, l: nat, c: nat, f: Functor, e: Effect<nat>)
    requires RegisteringStep(s, l, c, f, e) && Shaped(AfterRegistering(s, l, c, e))
    ensures ConnOk(AfterRegistering(s, l, c, e), c)
  {
    assert ConnOk(s, c);
    BeginStep(s.loops, l);
    var t := AfterRegistering(s, l, c, e);
    assert EL.Fifo(t.loops[0]) && EL.Fifo(t.loops[l]);
    LogGrows(s.conns[c].log);
  }

  lemma RegisteringPollOk(s: State, l: nat, c: nat, f: Functor, e: Effect<nat>)
    requires RegisteringStep(s, l, c, f, e) && Shaped(AfterRegistering(s, l, c, e))
    ensures PollOk(AfterRegistering(s, l, c, e), l)
  {
    assert LoopOk(s, l);
  }

  lemma RegisteringKeepsInv(s: State, l: nat, c: nat, f: Functor, e: Effect<nat>)
    requires RegisteringStep(s, l, c, f, e)
    ensures Inv(AfterRegistering(s, l, c, e))
  {
    RegisteringTouches(s, l, c, f, e);
    RegisteringConnOk(s, l, c, f, e);
    RegisteringPollOk(s, l, c, f, e);
    NeighboursStay(s, e.poll, c);
    EL.StepKeepsInv(s.loops, EL.Begin(l));
    TouchKeepsInv(s, AfterRegistering(s, l, c, e), c);
  }

  lemma RunEstablishKeepsInv(s: State, l: nat, c: nat)
    requires Inv(s) && Upcoming(s, l, Establish(c)) && c < |s.conns|
    ensures Inv(Run(s, l, Establish(c)))
  {
    EstablishEffect(s, l, c);
    RegisteringKeepsInv(s, l, c, Establish(c), ConnectEstablished(s.polls[l], c, s.conns[c].core));
  }

  lemma RunDestroyKeepsInv(s: State, l: nat, c: nat)
    requires Inv(s) && Upcoming(s, l, Destroy(c)) && c < |s.conns|
    ensures Inv(Run(s, l, Destroy(c)))
  {
    DestroyEffect(s, l, c);
    RegisteringKeepsInv(s, l, c, Destroy(c), ConnectDestroyed(s.polls[l], c, s.conns[c].core));
  }

  // -------------------------------------------------------------- removal

  lemma RemovalWork(s: State, t: State, c: nat)
    requires Shaped(s) && EL.Inv(s.loops) && Upcoming(s, 0, RemoveConn(c)) && c < |s.conns|
    requires t == Run(s, 0, RemoveConn(c))
    ensures EL.Inv(t.loops) && WorkAbout(s, t, c)
    ensures forall m :: 0 <= m < |s.loops| ==> t.loops[m].phase == s.loops[m].phase
  {
    var u, l := Moved(s, EL.Begin(0)), s.conns[c].loop;
    BeginStep(s.loops, 0);
    BeginIsAbout(s, u, c, 0);
    PushStep(u.loops, 0, l, Destroy(c));
    PushIsAbout(u, t, c, 0, l, Destroy(c));
    AboutTwice(s, u, t, c);
  }

  lemma RemovalCount(s: State, t: State, c: nat, m: nat, g: Functor)
    requires Shaped(s) && EL.Inv(s.loops) && Upcoming(s, 0, RemoveConn(c)) && c < |s.conns| && m < |s.loops|
    requires t == Run(s, 0, RemoveConn(c))
    ensures EL.Fifo(s.loops[m]) && EL.Fifo(t.loops[m])
    ensures Count(s.loops[m], g) + One(m == s.conns[c].loop && g == Destroy(c))
         == Count(t.loops[m], g) + One(m == 0 && g == RemoveConn(c))
  {
    var u := Moved(s, EL.Begin(0));
    EL.StepKeepsInv(s.loops, EL.Begin(0));
    BeginCount(s.loops, 0, m, g);
    PushCount(u.loops, 0, s.conns[c].loop, Destroy(c), m, g);
  }

  lemma RemovalConnOk(s: State, t: State, c: nat)
    requires Inv(s) && Upcoming(s, 0, RemoveConn(c)) && c < |s.conns| && Stage(s.conns[c]) == 2
    requires t == Run(s, 0, RemoveConn(c)) && Shaped(t)
    ensures ConnOk(t, c)
  {
    var l := s.conns[c].loop;
    assert ConnOk(s, c);
    RemovalCount(s, t, c, l, Establish(c));
    RemovalCount(s, t, c, l, Destroy(c));
    RemovalCount(s, t, c, 0, RemoveConn(c));
    LogGrows(s.conns[c].log);
  }

  lemma RemovalShape(s: State, t: State, c: nat)
    requires Shaped(s) && Upcoming(s, 0, RemoveConn(c)) && c < |s.conns| && t == Run(s, 0, RemoveConn(c))
    ensures Shaped(t)
    ensures t == s.(mapped := s.mapped - {c}, loops := t.loops, aborted := false,
                    conns := s.conns[c := s.conns[c].(log := s.conns[c].log + [Unmapped])])
  {
  }

  lemma RemovalTouches(s: State, t: State, c: nat, k: Conn)
    requires Shaped(s) && Shaped(t) && c < |s.conns| && WorkAbout(s, t, c)
    requires t == s.(mapped := s.mapped - {c}, loops := t.loops, aborted := t.aborted, conns := s.conns[c := k])
    requires k == s.conns[c].(log := k.log) && Stage(s.conns[c]) == 2 && Stage(k) == 3
    requires forall m :: 0 <= m < |s.loops| ==> t.loops[m].phase == s.loops[m].phase
    requires forall m, e :: 0 <= m < |s.loops| && e in s.active[m] ==> EventOk(s, m, e)
    requires forall m :: 0 <= m < |s.loops| && s.active[m] != [] ==> s.loops[m].phase == EL.Handling && m > 0
    ensures Touches(s, t, c)
  {
  }

  lemma RunRemoveKeepsInv(s: State, l: nat, c: nat)
    requires Inv(s) && Upcoming(s, l, RemoveConn(c)) && c < |s.conns|
    ensures Inv(Run(s, l, RemoveConn(c)))
  {
    UpcomingStage(s, l, RemoveConn(c));
    var t, m := Run(s, l, RemoveConn(c)), s.conns[c].loop;
    RemovalShape(s, t, c);
    RemovalWork(s, t, c);
    ActiveIsOk(s);
    RemovalTouches(s, t, c, t.conns[c]);
    RemovalConnOk(s, t, c);
    assert LoopOk(s, m);
    NeighboursStay(s, s.polls[m], c);
    TouchKeepsInv(s, t, c);
  }

  // -------------------------------------------------------------- destruction

  /** A connection nothing refers to has been destroyed: it is disconnected and out of the poller. */
  lemma UnheldIsDestroyed(s: State, c: nat)
    requires Inv(s) && c < |s.conns| && !Held(s, c)
    ensures Stage(s.conns[c]) == 4 && s.conns[c].core.state == Disconnected
  {
    assert ConnOk(s, c);
    CountHas(s.loops[s.conns[c].loop], Destroy(c));
  }

  lemma FreeKeepsInv(s: State, c: nat)
    requires Inv(s) && Enabled(s, Free(c))
    ensures Inv(Destruct(s, c))
  {
    UnheldIsDestroyed(s, c);
    var t, l, fd := Destruct(s, c), s.conns[c].loop, s.conns[c].core.chan.fd;
    assert ConnOk(s, c) && LoopOk(s, l);
    NewFdIsFree(s, c);
    assert fd !in s.polls[l].kernel;
    assert t.polls[l] == s.polls[l];
    SameLoopsAreAbout(s, t, c);
    ActiveIsOk(s);
    NeighboursStay(s, s.polls[l], c);
    FreeTouches(s, c);
    TouchKeepsInv(s, t, c);
  }

  lemma FreeTouches(s: State, c: nat)
    requires Inv(s) && Enabled(s, Free(c)) && Stage(s.conns[c]) == 4
    requires WorkAbout(s, Destruct(s, c), c)
    ensures Touches(s, Destruct(s, c), c)
  {
    ActiveIsOk(s);
    assert FdsDiffer(s);
  }
}
