/** How the server comes to abort, concretely: one connection, one I/O loop, and an event that reports
    an error together with the end of the stream. */
module LifecycleAbort {
  import EL = EventLoops
  import opened Options
  import opened Poller
  import opened Connections
  import opened Lifecycle
  import opened LifecycleInvariant
  import opened LifecycleSteps
  import opened LifecycleTheorems

  const REST := EL.Fresh<Functor>()
  const FD := 7
  const CALM := Core(Connecting, false, false, false, Chan(FD, KNew, NoneEvent))
  /** Nothing to read: the end of the stream. */
  const END := ReadResult(0, false, WriteResult(0, 0))
  const FAULT := Event(0, FD, false, true, true, false)

  const S0 := State([REST, REST], [Poll(map[], map[]), Poll(map[], map[])], [[], []], [],
                    {}, {}, {}, {}, 1, false, false)
  const S1 := S0.(loops := [REST.(phase := EL.Handling), REST])
  const S2 := S1.(loops := [REST.(phase := EL.Handling, owes := Some(1)),
                            REST.(pending := [Establish(0)], queued := [Establish(0)])],
                  conns := [Conn(1, CALM, [], false)], mapped := {0}, open := {FD})
  const MAIN := REST.(phase := EL.Handling)
  const WOKEN := REST.(queued := [Establish(0)], counter := 1, edge := true)
  const S3 := S2.(loops := [MAIN, WOKEN.(pending := [Establish(0)])])
  const S4 := S3.(loops := [MAIN, WOKEN.(phase := EL.Handling, pending := [Establish(0)])])
  const S5 := S4.(loops := [MAIN, WOKEN.(phase := EL.Running, batch := [Establish(0)])])
  const OPEN := CALM.(state := Connected, chan := Chan(FD, KAdded, ReadEvent))
  const LISTENING: Poll<nat> := Poll(map[FD := 0], map[FD := Registration(0, ReadEvent)])
  const S6 := S5.(loops := [MAIN, WOKEN.(phase := EL.Running, batch := [Establish(0)], next := 1,
                                         executed := [Establish(0)])],
                  polls := [Poll(map[], map[]), LISTENING],
                  conns := [Conn(1, OPEN, [Established], false)])
  const BUSY := WOKEN.(executed := [Establish(0)])
  const S7 := S6.(loops := [MAIN, BUSY])
  const S8 := S7.(loops := [MAIN, BUSY.(phase := EL.Handling)], active := [[], [FAULT]])
  const GONE := OPEN.(state := Disconnected, shut := true, chan := Chan(FD, KDeleted, NoneEvent))
  const TOLD := MAIN.(pending := [RemoveConn(0)], queued := [RemoveConn(0)])
  const S9 := S8.(loops := [TOLD, BUSY.(phase := EL.Handling, owes := Some(0))],
                  active := [[], [FAULT.(error := false)]],
                  polls := [Poll(map[], map[]), Poll(map[FD := 0], map[])],
                  conns := [Conn(1, GONE, [Established, Closed], false)])
  const S10 := S9.(loops := [TOLD.(counter := 1, edge := true), BUSY.(phase := EL.Handling)])

  lemma Same(s: State, t: State)
    requires |s.loops| == |t.loops| && (forall l :: 0 <= l < |s.loops| ==> s.loops[l] == t.loops[l])
    requires |s.polls| == |t.polls| && (forall l :: 0 <= l < |s.polls| ==> s.polls[l] == t.polls[l])
    requires |s.active| == |t.active| && (forall l :: 0 <= l < |s.active| ==> s.active[l] == t.active[l])
    requires |s.conns| == |t.conns| && (forall c :: 0 <= c < |s.conns| ==> s.conns[c] == t.conns[c])
    requires s.mapped == t.mapped && s.timers == t.timers && s.open == t.open
    requires s.unsent == t.unsent && s.nextLoop == t.nextLoop && s.troubled == t.troubled && s.aborted == t.aborted
    ensures s == t
  {
  }

  lemma Reach0()
    ensures Reachable(S0)
  {
    InitialIsReachable(S0);
  }

  /** The main loop wakes up. */
  lemma Reach1()
    ensures Reachable(S1)
  {
    Same(Apply(S0, PollReturn(0, false, [])), S1);
    Reach0();
    ReachableStep(S0, PollReturn(0, false, []));
  }

  /** newConnection maps the connection and queues its establishing. */
  lemma Reach2()
    ensures Reachable(S2)
  {
    Same(Apply(S1, Accept(FD)), S2);
    Reach1();
    ReachableStep(S1, Accept(FD));
  }

  lemma Reach3()
    ensures Reachable(S3)
  {
    Same(Apply(S2, Wake(0)), S3);
    Reach2();
    ReachableStep(S2, Wake(0));
  }

  lemma Reach4()
    ensures Reachable(S4)
  {
    Same(Apply(S3, PollReturn(1, false, [])), S4);
    Reach3();
    ReachableStep(S3, PollReturn(1, false, []));
  }

  lemma Reach5()
    ensures Reachable(S5)
  {
    Same(Apply(S4, Swap(1)), S5);
    Reach4();
    ReachableStep(S4, Swap(1));
  }

  /** connectEstablished. */
  lemma Reach6()
    ensures Reachable(S6)
  {
    Same(Apply(S5, RunFunctor(1)), S6);
    Reach5();
    ReachableStep(S5, RunFunctor(1));
  }

  lemma Reach7()
    ensures Reachable(S7)
  {
    Same(Apply(S6, EndBatch(1)), S7);
    Reach6();
    ReachableStep(S6, EndBatch(1));
  }

  /** The fault is reported. */
  lemma Reach8()
    ensures Reachable(S8)
  {
    Same(Apply(S7, PollReturn(1, false, [FAULT])), S8);
    Reach7();
    ReachableStep(S7, PollReturn(1, false, [FAULT]));
  }

  /** The error handler closes the connection. */
  lemma Reach9()
    ensures Reachable(S9)
  {
    Same(Apply(S8, Dispatch(1, END)), S9);
    Reach8();
    ReachableStep(S8, Dispatch(1, END));
  }

  lemma Reach10()
    ensures Reachable(S10)
  {
    Same(Apply(S9, Wake(1)), S10);
    Reach9();
    ReachableStep(S9, Wake(1));
  }

  /** The server can abort: the error handler closes a connection, the read handler of the same event
      finds the end of the stream and closes it again. */
  lemma ClosingTwiceIsReachable()
    ensures Reachable(S10)
    ensures Enabled(S10, Dispatch(1, END)) && ClosesTwice(S10, Dispatch(1, END)) && Apply(S10, Dispatch(1, END)).aborted
  {
    Reach10();
    ReachableInv(S10);
    AbortsIff(S10, Dispatch(1, END));
  }
}
