/** What the server's books say exactly: which fds are open, what each connection is registered for,
    and which loop it went to.  All of it holds in every reachable state of every interleaving. */
module LifecycleBooks {
  import EL = EventLoops
  import opened Poller
  import opened Connections
  import opened Lifecycle
  import opened LifecycleInvariant
  import opened LifecycleSteps
  import opened LifecycleTheorems

  // ---------------------------------------------------------------- invariants

  predicate Owns(s: State, c: nat, fd: int) {
    c < |s.conns| && !s.conns[c].freed && s.conns[c].core.chan.fd == fd
  }

  /** Every open fd belongs to a connection object that is still there. */
  ghost predicate FdsOwned(s: State) {
    forall fd :: fd in s.open ==> exists c :: Owns(s, c, fd)
  }

  /** What an established connection waits for. */
  function Awaits(s: State, c: nat): Interest { if c in s.unsent then WriteEvent else ReadEvent }

  predicate MaskOk(s: State, c: nat)
    requires c < |s.conns|
  {
    && (Stage(s.conns[c]) == 0 ==> c !in s.unsent)
    && (Stage(s.conns[c]) == 1 ==> s.conns[c].core.chan.events == Awaits(s, c))
  }

  ghost predicate MasksOk(s: State) {
    && (forall c :: 0 <= c < |s.conns| ==> MaskOk(s, c))
    && (forall c :: c in s.unsent ==> c < |s.conns|)
  }

  /** The I/O loop of the `c`-th connection, when they go round. */
  function LoopFor(s: State, c: nat): nat
    requires |s.loops| >= 2
  {
    1 + c % (|s.loops| - 1)
  }

  predicate RoundRobin(s: State) {
    && |s.loops| >= 2
    && s.nextLoop == LoopFor(s, |s.conns|)
    && (forall c :: 0 <= c < |s.conns| ==> s.conns[c].loop == LoopFor(s, c))
  }

  ghost predicate Books(s: State) { FdsOwned(s) && MasksOk(s) && RoundRobin(s) }

  // --------------------------------------------------------- what steps change

  /** `t` has the connections of `s`, with their loops and fds, and frees only `freed`. */
  predicate SameObjects(s: State, t: State, freed: set<nat>) {
    && |t.loops| == |s.loops| && |t.conns| == |s.conns| && t.nextLoop == s.nextLoop
    && (forall j :: 0 <= j < |s.conns| ==>
          && t.conns[j].loop == s.conns[j].loop && t.conns[j].core.chan.fd == s.conns[j].core.chan.fd
          && t.conns[j].freed == (s.conns[j].freed || j in freed))
  }

  /** `t` has every connection of `s` but `c` unchanged. */
  predicate OnlyTouches(s: State, t: State, c: nat) {
    && |s.conns| <= |t.conns|
    && (forall j :: 0 <= j < |s.conns| && j != c ==>
          t.conns[j] == s.conns[j] && (j in t.unsent <==> j in s.unsent))
  }

  lemma CloseKeepsFd(p: Poll<nat>, c: nat, core: Core)
    ensures HandleClose(p, c, core).core.chan.fd == core.chan.fd
  {
  }

  lemma WriteKeepsFd(p: Poll<nat>, c: nat, core: Core, w: WriteResult)
    ensures HandleWrite(p, c, core, w).core.chan.fd == core.chan.fd
  {
    CloseKeepsFd(p, c, core);
  }

  lemma HandlersKeepFd(p: Poll<nat>, e: Event, core: Core, io: ReadResult)
    ensures Handle(p, e, core, io).core.chan.fd == core.chan.fd
  {
    CloseKeepsFd(p, e.c, core);
    WriteKeepsFd(p, e.c, core, io.write);
    if io.bytes > 0 {
      ReadIsWrite(p, e.c, core, io);
      WriteKeepsFd(p, e.c, core.(alive := core.alive || io.keepAlive), io.write);
    }
  }

  lemma RecordKeepsObjects(s: State, l: nat, c: nat, e: Effect<nat>)
    requires Shaped(s) && 0 < l < |s.loops| && c < |s.conns| && s.conns[c].loop == l
    requires Idle(s, l) && s.loops[l].phase != EL.Polling && e.core.chan.fd == s.conns[c].core.chan.fd
    ensures SameObjects(s, Record(s, l, c, e), {}) && Record(s, l, c, e).open == s.open
    ensures OnlyTouches(s, Record(s, l, c, e), c)
  {
  }

  lemma DispatchKeepsObjects(s: State, l: nat, io: ReadResult)
    requires Enabled(s, Dispatch(l, io))
    ensures SameObjects(s, CallHandler(s, l, io), {}) && CallHandler(s, l, io).open == s.open
    ensures OnlyTouches(s, CallHandler(s, l, io), s.active[l][0].c)
  {
    var e := s.active[l][0];
    HandlersKeepFd(s.polls[l], e, s.conns[e.c].core, io);
    RecordKeepsObjects(s.(active := s.active[l := [Called(e)] + s.active[l][1..]]), l, e.c,
                       Handle(s.polls[l], e, s.conns[e.c].core, io));
  }

  lemma FireKeepsObjects(s: State, l: nat, c: nat)
    requires Enabled(s, Fire(l, c))
    ensures SameObjects(s, FireTimer(s, l, c), {}) && FireTimer(s, l, c).open == s.open
    ensures OnlyTouches(s, FireTimer(s, l, c), c)
  {
    RecordKeepsObjects(s.(timers := s.timers - {c}), l, c, CloseLongConnection(s.polls[l], c, s.conns[c].core));
  }

  lemma RegisteringKeepsObjects(s: State, l: nat, c: nat, e: Effect<nat>, event: Life)
    requires Shaped(s) && c < |s.conns| && e.core.chan.fd == s.conns[c].core.chan.fd
    ensures var t := Registering(s, l, c, e, event); SameObjects(s, t, {}) && t.open == s.open
    ensures OnlyTouches(s, Registering(s, l, c, e, event), c)
  {
  }

  lemma FunctorKeepsObjects(s: State, l: nat)
    requires Enabled(s, RunFunctor(l))
    ensures SameObjects(s, Apply(s, RunFunctor(l)), {}) && Apply(s, RunFunctor(l)).open == s.open
    ensures
      var f := s.loops[l].batch[s.loops[l].next];
      OnlyTouches(s, Apply(s, RunFunctor(l)), if f == DrainTimers then |s.conns| else f.c)
  {
    var s1 := Moved(s, EL.Begin(l));
    match s.loops[l].batch[s.loops[l].next]
    case DrainTimers =>
    case RemoveConn(c) =>
    case Establish(c) =>
      RegisteringKeepsObjects(s1, l, c, ConnectEstablished(s.polls[s.conns[c].loop], c, s.conns[c].core), Established);
    case Destroy(c) =>
      RegisteringKeepsObjects(s1, l, c, ConnectDestroyed(s.polls[s.conns[c].loop], c, s.conns[c].core), Destroyed);
  }

  lemma StepKeepsObjects(s: State, a: Action)
    requires Enabled(s, a) && !a.Accept?
    ensures SameObjects(s, Apply(s, a), if a.Free? then {a.c} else {})
    ensures Apply(s, a).open == if a.Free? then s.open - {s.conns[a.c].core.chan.fd} else s.open
  {
    match a
    case Dispatch(l, io) => DispatchKeepsObjects(s, l, io);
    case Fire(l, c) => FireKeepsObjects(s, l, c);
    case RunFunctor(l) => FunctorKeepsObjects(s, l);
    case _ =>
  }

  lemma RoundRobinStep(s: State, a: Action)
    requires Inv(s) && Enabled(s, a) && RoundRobin(s)
    ensures RoundRobin(Apply(s, a))
  {
    if a.Accept? {
      NextInTurn(|s.conns|, |s.loops| - 1);
    } else {
      StepKeepsObjects(s, a);
    }
  }

  lemma NextInTurn(c: nat, n: nat)
    requires n > 0
    ensures (c + 1) % n == if c % n + 1 < n then c % n + 1 else 0
  {
    var q, r := c / n, c % n;
    if r + 1 < n {
      QuotientIs(c + 1, n, q, r + 1);
    } else {
      assert q * n + n == (q + 1) * n;
      QuotientIs(c + 1, n, q + 1, 0);
    }
  }

  lemma QuotientIs(c: nat, n: nat, q: nat, r: nat)
    requires n > 0 && r < n && c == q * n + r
    ensures c % n == r
  {
    var d := q - c / n;
    Distribute(q, c / n, n);
    assert d * n == c % n - r;
    SmallMultiple(d, n);
  }

  lemma Distribute(a: int, b: int, n: int)
    ensures (a - b) * n == a * n - b * n
  {
  }

  lemma SmallMultiple(d: int, n: int)
    requires n > 0 && -n < d * n < n
    ensures d == 0
  {
  }

  lemma FdsOwnedStep(s: State, a: Action)
    requires Inv(s) && Enabled(s, a) && FdsOwned(s)
    ensures FdsOwned(Apply(s, a))
  {
    var t := Apply(s, a);
    if !a.Accept? {
      StepKeepsObjects(s, a);
    }
    forall fd | fd in t.open
      ensures exists c :: Owns(t, c, fd)
    {
      if a.Accept? && fd == a.fd {
        assert Owns(t, |s.conns|, fd);
      } else {
        var c :| Owns(s, c, fd);
        assert Owns(t, c, fd);
      }
    }
  }

  // ------------------------------------------------------------ what is awaited

  /** How a handler leaves the interest of an open connection: a write that sent something decides,
      and anything else leaves it alone. */
  lemma InterestAfter(p: Poll<nat>, e: Event, c: Core, io: ReadResult)
    requires c.state == Connected
    ensures
      var h := Handle(p, e, c, io);
      var sends := !e.close && !e.error && (e.read ==> io.bytes > 0) && io.write.bytes > 0;
      && (h.core.state == Connected && !h.closed && !h.aborted ==>
            h.core.chan.events ==
              if !sends then c.chan.events else if io.write.left > 0 then WriteEvent else ReadEvent)
  {
  }

  lemma DispatchMask(s: State, l: nat, io: ReadResult)
    requires Inv(s) && MasksOk(s) && Enabled(s, Dispatch(l, io)) && !CallHandler(s, l, io).aborted
    ensures s.active[l][0].c < |s.conns| && MaskOk(CallHandler(s, l, io), s.active[l][0].c)
  {
    var e, t := s.active[l][0], CallHandler(s, l, io);
    assert LoopOk(s, l) && EventOk(s, l, e) && ConnOk(s, e.c) && MaskOk(s, e.c);
    var h := Handle(s.polls[l], e, s.conns[e.c].core, io);
    assert t.conns[e.c].core == h.core;
    assert t.conns[e.c].log == s.conns[e.c].log + if h.closed then [Closed] else [];
    DispatchKeepsInv(s, l, io);
    assert ConnOk(t, e.c);
    if Stage(t.conns[e.c]) == 1 {
      InterestAfter(s.polls[l], e, s.conns[e.c].core, io);
    }
  }

  /** The connection a step works on, or none. */
  function Worked(s: State, a: Action): nat
    requires Enabled(s, a)
  {
    match a
    case Dispatch(l, _) => s.active[l][0].c
    case Fire(_, c) => c
    case RunFunctor(l) =>
      var f := s.loops[l].batch[s.loops[l].next];
      if f == DrainTimers then |s.conns| else f.c
    case _ => |s.conns|
  }

  lemma OthersStayAsTheyAre(s: State, a: Action)
    requires Enabled(s, a)
    ensures a.Free? ==> forall j :: 0 <= j < |s.conns| ==>
              Apply(s, a).conns[j] == s.conns[j].(freed := Apply(s, a).conns[j].freed)
    ensures !a.Free? ==> OnlyTouches(s, Apply(s, a), Worked(s, a))
    ensures a.Free? ==> Apply(s, a).unsent == s.unsent
  {
    match a
    case Dispatch(l, io) => DispatchKeepsObjects(s, l, io);
    case Fire(l, c) => FireKeepsObjects(s, l, c);
    case RunFunctor(l) => FunctorKeepsObjects(s, l);
    case _ =>
  }

  lemma FunctorMask(s: State, l: nat)
    requires Inv(s) && MasksOk(s) && Enabled(s, RunFunctor(l)) && !Apply(s, RunFunctor(l)).aborted
    requires s.loops[l].batch[s.loops[l].next] != DrainTimers
    ensures
      var c := s.loops[l].batch[s.loops[l].next].c;
      c < |Apply(s, RunFunctor(l)).conns| && MaskOk(Apply(s, RunFunctor(l)), c)
  {
    var f := s.loops[l].batch[s.loops[l].next];
    UpcomingStage(s, l, f);
    assert ConnOk(s, f.c) && MaskOk(s, f.c);
  }

  lemma FireMask(s: State, l: nat, c: nat)
    requires Inv(s) && MasksOk(s) && Enabled(s, Fire(l, c)) && !FireTimer(s, l, c).aborted
    ensures MaskOk(FireTimer(s, l, c), c)
  {
    assert ConnOk(s, c);
    var t := FireTimer(s, l, c);
    assert Stage(t.conns[c]) == Stage(s.conns[c]) + 1;
  }

  lemma WorkedMask(s: State, a: Action)
    requires Inv(s) && Enabled(s, a) && MasksOk(s) && !Apply(s, a).aborted && Worked(s, a) < |s.conns|
    ensures Worked(s, a) < |Apply(s, a).conns| && MaskOk(Apply(s, a), Worked(s, a))
  {
    match a
    case Dispatch(l, io) => DispatchMask(s, l, io);
    case Fire(l, c) => FireMask(s, l, c);
    case RunFunctor(l) => FunctorMask(s, l);
    case _ =>
  }

  lemma MasksOkStep(s: State, a: Action)
    requires Inv(s) && Enabled(s, a) && MasksOk(s) && !Apply(s, a).aborted
    ensures MasksOk(Apply(s, a))
  {
    var t := Apply(s, a);
    OthersStayAsTheyAre(s, a);
    if !a.Accept? {
      StepKeepsObjects(s, a);
    }
    WorkedExists(s, a);
    forall c | 0 <= c < |t.conns|
      ensures MaskOk(t, c)
    {
      if c == |s.conns| {
        assert c !in s.unsent;
      } else if c == Worked(s, a) {
        WorkedMask(s, a);
      } else {
        assert MaskOk(s, c);
      }
    }
    forall c | c in t.unsent
      ensures c < |t.conns|
    {
      assert c in s.unsent || c == Worked(s, a);
    }
  }

  lemma WorkedExists(s: State, a: Action)
    requires Inv(s) && Enabled(s, a)
    ensures Worked(s, a) <= |s.conns| && (a.Dispatch? ==> Worked(s, a) < |s.conns|)
    ensures forall c :: c in Apply(s, a).unsent ==> c in s.unsent || c == Worked(s, a)
  {
  }

  // --------------------------------------------------------------------- runs

  lemma BooksStep(s: State, a: Action)
    requires Inv(s) && Enabled(s, a) && Books(s) && !Apply(s, a).aborted
    ensures Books(Apply(s, a))
  {
    FdsOwnedStep(s, a);
    MasksOkStep(s, a);
    RoundRobinStep(s, a);
  }

  lemma {:induction false} RunKeepsBooks(s: State, acts: seq<Action>)
    requires Inv(s) && Books(s) && IsRun(s, acts) && !After(s, acts).aborted
    ensures Books(After(s, acts))
    decreases |acts|
  {
    if acts != [] {
      var t := Apply(s, acts[0]);
      assert t.aborted ==> |acts| == 1;
      StepKeepsInv(s, acts[0]);
      BooksStep(s, acts[0]);
      RunKeepsBooks(t, acts[1..]);
    }
  }

  lemma ReachableBooks(s: State)
    requires Reachable(s)
    ensures Inv(s) && Books(s)
  {
    var s0: State, acts: seq<Action> :| Initial(s0) && IsRun(s0, acts) && s == After(s0, acts) && !s.aborted;
    InitialInv(s0);
    assert Books(s0);
    RunKeepsInv(s0, acts);
    RunKeepsBooks(s0, acts);
  }

  // ----------------------------------------------------------------- theorems

  /** The open fds are exactly those of the connection objects that still exist: none leaks, and none
      is closed early. */
  lemma OpenFdsAreExact(s: State, fd: int)
    requires Reachable(s)
    ensures fd in s.open <==> exists c :: Owns(s, c, fd)
  {
    ReachableBooks(s);
    if c :| Owns(s, c, fd) {
      assert ConnOk(s, c);
    }
  }

  /** So when an object goes, its fd number can be handed out again at once. */
  lemma FreedFdCanBeAccepted(s: State, c: nat)
    requires Reachable(s) && Enabled(s, Free(c)) && s.loops[0].phase == EL.Handling && Idle(s, 0)
    ensures
      var t := Apply(s, Free(c));
      Reachable(t) && Enabled(t, Accept(s.conns[c].core.chan.fd))
  {
    ReachableInv(s);
    UnheldIsDestroyed(s, c);
    ReachableStep(s, Free(c));
  }

  /** An established connection is registered with its loop's poller, for writing exactly while the
      last write that sent something left output, and for reading otherwise. */
  lemma RegisteredForWhatIsLeft(s: State, c: nat)
    requires Reachable(s) && c < |s.conns| && s.conns[c].log == [Established]
    ensures Shaped(s)
    ensures
      var k := s.conns[c];
      && k.core.chan.fd in s.polls[k.loop].kernel
      && s.polls[k.loop].kernel[k.core.chan.fd] ==
           Registration(c, if c in s.unsent then WriteEvent else ReadEvent)
  {
    ReachableBooks(s);
    assert ConnOk(s, c) && MaskOk(s, c);
  }

  /** Connections go round the I/O loops: the `c`-th one goes to loop 1 + c mod their number. */
  lemma ConnectionsGoRound(s: State, c: nat)
    requires Reachable(s) && c < |s.conns|
    ensures |s.loops| >= 2 && s.conns[c].loop == 1 + c % (|s.loops| - 1)
  {
    ReachableBooks(s);
  }

  /** The poller can report whatever an established connection waits for, together with an error or a
      hang-up or without. */
  lemma AwaitedEventsCanCome(s: State, l: nat, c: nat, close: bool, error: bool)
    requires Reachable(s) && c < |s.conns| && s.conns[c].log == [Established] && s.conns[c].loop == l
    requires l < |s.loops| && s.loops[l].phase == EL.Polling
    ensures
      var waits := c in s.unsent;
      Enabled(s, PollReturn(l, false, [Event(c, s.conns[c].core.chan.fd, close, error, !waits, waits)]))
  {
    RegisteredForWhatIsLeft(s, c);
    ReachableInv(s);
    assert ConnOk(s, c);
  }

  /** A readable timerfd queues one drain, behind everything else its loop has to run. */
  lemma ExpiryQueuesDrain(s: State, l: nat)
    requires Reachable(s) && Enabled(s, TimerReadable(l))
    ensures
      var p, q := s.loops[l], Apply(s, TimerReadable(l)).loops[l];
      p.next <= |p.batch| && q.next <= |q.batch| && EL.Todo(q) == EL.Todo(p) + [DrainTimers]
  {
    ReachableInv(s);
    PushAt(s.loops, l, l, DrainTimers, l);
  }
}
