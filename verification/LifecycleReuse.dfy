/** A whole life, concretely: a connection is established, closed by its peer, unmapped, destroyed and
    freed, and the next connection gets the same fd number. */
module LifecycleReuse {
  import EL = EventLoops
  import opened Options
  import opened Poller
  import opened Connections
  import opened Lifecycle
  import opened LifecycleTheorems
  import opened LifecycleAbort

  const HANGUP := Event(0, FD, true, false, false, false)
  const R8 := S7.(loops := [MAIN, BUSY.(phase := EL.Handling)], active := [[], [HANGUP]])
  const R9 := R8.(loops := [TOLD, BUSY.(phase := EL.Handling, owes := Some(0))],
                  active := [[], [HANGUP.(close := false)]],
                  polls := [Poll(map[], map[]), Poll(map[FD := 0], map[])],
                  conns := [Conn(1, GONE, [Established, Closed], false)])
  const RUNG := TOLD.(counter := 1, edge := true)
  const R10 := R9.(loops := [RUNG, BUSY.(phase := EL.Handling)])
  const R11 := R10.(active := [[], []])
  const R12 := R11.(loops := [RUNG.(phase := EL.Running, batch := [RemoveConn(0)], pending := []), R11.loops[1]])
  const DONE := RUNG.(pending := [], executed := [RemoveConn(0)])
  const ORDERED := BUSY.(phase := EL.Handling, pending := [Destroy(0)], queued := [Establish(0), Destroy(0)])
  const R13 := R12.(loops := [DONE.(phase := EL.Running, batch := [RemoveConn(0)], next := 1, owes := Some(1)),
                              ORDERED],
                    mapped := {}, conns := [Conn(1, GONE, [Established, Closed, Unmapped], false)])
  const CALLED := ORDERED.(counter := 2)
  const R14 := R13.(loops := [DONE.(phase := EL.Running, batch := [RemoveConn(0)], next := 1), CALLED])
  const R15 := R14.(loops := [DONE.(phase := EL.Polling), CALLED])
  const LAST := CALLED.(phase := EL.Running, pending := [], batch := [Destroy(0)])
  const R16 := R15.(loops := [DONE.(phase := EL.Polling), LAST])
  const DEAD := GONE.(chan := Chan(FD, KNew, NoneEvent))
  const R17 := R16.(loops := [DONE.(phase := EL.Polling), LAST.(next := 1, executed := [Establish(0), Destroy(0)])],
                    polls := [Poll(map[], map[]), Poll(map[], map[])],
                    conns := [Conn(1, DEAD, LIFE, false)])
  const OVER := LAST.(phase := EL.Polling, batch := [], executed := [Establish(0), Destroy(0)])
  const R18 := R17.(loops := [DONE.(phase := EL.Polling), OVER])
  const R19 := R18.(conns := [Conn(1, DEAD, LIFE, true)], open := {})
  const R20 := R19.(loops := [DONE.(phase := EL.Handling), OVER])
  const R21 := R20.(loops := [DONE.(phase := EL.Handling, owes := Some(1)),
                              OVER.(pending := [Establish(1)], queued := [Establish(0), Destroy(0), Establish(1)])],
                    conns := [Conn(1, DEAD, LIFE, true), Conn(1, CALM, [], false)], mapped := {1}, open := {FD})

  /** The peer hangs up. */
  lemma Reach8R()
    ensures Reachable(R8)
  {
    Same(Apply(S7, PollReturn(1, false, [HANGUP])), R8);
    Reach7();
    ReachableStep(S7, PollReturn(1, false, [HANGUP]));
  }

  /** The close handler closes the connection. */
  lemma Reach9R()
    ensures Reachable(R9)
  {
    Same(Apply(R8, Dispatch(1, END)), R9);
    Reach8R();
    ReachableStep(R8, Dispatch(1, END));
  }

  lemma Reach10R()
    ensures Reachable(R10)
  {
    Same(Apply(R9, Wake(1)), R10);
    Reach9R();
    ReachableStep(R9, Wake(1));
  }

  lemma Reach11R()
    ensures Reachable(R11)
  {
    Same(Apply(R10, DoneEvent(1)), R11);
    Reach10R();
    ReachableStep(R10, DoneEvent(1));
  }

  lemma Reach12R()
    ensures Reachable(R12)
  {
    Same(Apply(R11, Swap(0)), R12);
    Reach11R();
    ReachableStep(R11, Swap(0));
  }

  /** removeConnectionInLoop. */
  lemma Reach13R()
    ensures Reachable(R13)
  {
    Same(Apply(R12, RunFunctor(0)), R13);
    Reach12R();
    ReachableStep(R12, RunFunctor(0));
  }

  lemma Reach14R()
    ensures Reachable(R14)
  {
    Same(Apply(R13, Wake(0)), R14);
    Reach13R();
    ReachableStep(R13, Wake(0));
  }

  lemma Reach15R()
    ensures Reachable(R15)
  {
    Same(Apply(R14, EndBatch(0)), R15);
    Reach14R();
    ReachableStep(R14, EndBatch(0));
  }

  lemma Reach16R()
    ensures Reachable(R16)
  {
    Same(Apply(R15, Swap(1)), R16);
    Reach15R();
    ReachableStep(R15, Swap(1));
  }

  /** connectDestroyed. */
  lemma Reach17R()
    ensures Reachable(R17)
  {
    Same(Apply(R16, RunFunctor(1)), R17);
    Reach16R();
    ReachableStep(R16, RunFunctor(1));
  }

  lemma Reach18R()
    ensures Reachable(R18)
  {
    Same(Apply(R17, EndBatch(1)), R18);
    Reach17R();
    ReachableStep(R17, EndBatch(1));
  }

  /** The last reference is gone, and the fd is closed. */
  lemma Reach19R()
    ensures Reachable(R19)
  {
    Same(Apply(R18, Free(0)), R19);
    Reach18R();
    ReachableStep(R18, Free(0));
  }

  lemma Reach20R()
    ensures Reachable(R20)
  {
    Same(Apply(R19, PollReturn(0, false, [])), R20);
    Reach19R();
    ReachableStep(R19, PollReturn(0, false, []));
  }

  /** The same fd number again. */
  lemma Reach21R()
    ensures Reachable(R21)
  {
    Same(Apply(R20, Accept(FD)), R21);
    Reach20R();
    ReachableStep(R20, Accept(FD));
  }

  /** Two connections, one after the other, have had the same fd. */
  lemma FdNumbersComeBack()
    ensures Reachable(R21) && |R21.conns| == 2 && R21.conns[0].freed && !R21.conns[1].freed
    ensures R21.conns[0].core.chan.fd == R21.conns[1].core.chan.fd
    ensures R21.conns[0].log == [Established, Closed, Unmapped, Destroyed]
  {
    Reach21R();
  }
}
