/** How a loop goes through an event: each handler the event asks for is called once, in the order of
    Channel::handleEvent, and the event comes to its end (Channel.cpp, EventLoop.cpp). */
module LifecycleEvents {
  import EL = EventLoops
  import opened Options
  import opened Poller
  import opened Connections
  import opened Lifecycle
  import opened LifecycleInvariant
  import opened LifecycleSteps
  import opened LifecycleTheorems

  datatype Handler = OnClose | OnError | OnRead | OnWrite

  /** The handlers an event still asks for, in the order of handleEvent. */
  function Calls(e: Event): seq<Handler> {
    (if e.close then [OnClose] else [])
    + (if e.error then [OnError] else [])
    + (if e.read then [OnRead] else [])
    + (if e.write then [OnWrite] else [])
  }

  /** What each handler of the connection does. */
  function EffectOf(h: Handler, p: Poll<nat>, c: nat, core: Core, io: ReadResult): Effect<nat> {
    match h
    case OnClose => HandleClose(p, c, core)
    case OnError => HandleClose(p, c, core)
    case OnRead => HandleRead(p, c, core, io)
    case OnWrite => HandleWrite(p, c, core, io.write)
  }

  /** A call is that of the first handler left, and leaves the others; without any the event is over. */
  lemma FirstIsCalled(e: Event, p: Poll<nat>, core: Core, io: ReadResult)
    ensures HasHandler(e) <==> Calls(e) != []
    ensures HasHandler(e) ==> Handle(p, e, core, io) == EffectOf(Calls(e)[0], p, e.c, core, io)
    ensures HasHandler(e) ==> Calls(Called(e)) == Calls(e)[1..] && Called(e).c == e.c && Called(e).fd == e.fd
  {
  }

  /** A step of the loop through its events: the first one loses its first handler, whose effect the
      connection and the poller show; the events behind it stay. */
  lemma DispatchCallsFirst(s: State, l: nat, io: ReadResult)
    requires Enabled(s, Dispatch(l, io))
    ensures
      var e, t := s.active[l][0], Apply(s, Dispatch(l, io));
      && Calls(e) != [] && t.active[l] != []
      && t.active[l][1..] == s.active[l][1..]
      && t.active[l][0].c == e.c && Calls(t.active[l][0]) == Calls(e)[1..]
      && var h := EffectOf(Calls(e)[0], s.polls[l], e.c, s.conns[e.c].core, io);
         t.conns[e.c].core == h.core && t.polls[l] == h.poll && t.aborted == h.aborted
  {
    FirstIsCalled(s.active[l][0], s.polls[l], s.conns[s.active[l][0].c].core, io);
  }

  lemma {:induction false} RunFirst(s: State, a: Action, rest: seq<Action>)
    requires Enabled(s, a) && IsRun(Apply(s, a), rest)
    ensures IsRun(s, [a] + rest) && After(s, [a] + rest) == After(Apply(s, a), rest)
  {
    assert ([a] + rest)[1..] == rest;
  }

  const NOTHING := ReadResult(0, false, WriteResult(0, 0))

  /** The step that takes the loop further with its first event. */
  function Onward(s: State, l: nat): Action
    requires l < |s.loops| && l < |s.active| && s.active[l] != []
  {
    if s.loops[l].owes.Some? then Wake(l)
    else if HasHandler(s.active[l][0]) then Dispatch(l, NOTHING)
    else DoneEvent(l)
  }

  lemma OnwardIsEnabled(s: State, l: nat)
    requires Inv(s) && l < |s.loops| && s.active[l] != []
    ensures Enabled(s, Onward(s, l))
  {
    assert LoopOk(s, l);
    assert EventOk(s, l, s.active[l][0]);
  }

  /** How far the first event is from its end. */
  function Distance(s: State, l: nat): nat
    requires l < |s.loops| && l < |s.active| && s.active[l] != []
  {
    2 * |Calls(s.active[l][0])| + if s.loops[l].owes.Some? then 1 else 0
  }

  lemma WakeGetsNearer(s: State, l: nat)
    requires l < |s.loops| && l < |s.active| && s.active[l] != [] && Enabled(s, Wake(l))
    ensures
      var t := Apply(s, Wake(l));
      t.active == s.active && |t.loops| == |s.loops| && t.loops[l].owes == None
  {
  }

  lemma OnwardGetsNearer(s: State, l: nat)
    requires l < |s.loops| && l < |s.active| && s.active[l] != []
    requires Enabled(s, Onward(s, l)) && !Onward(s, l).DoneEvent?
    ensures
      var t := Apply(s, Onward(s, l));
      && l < |t.loops| && l < |t.active| && t.active[l] != []
      && t.active[l][1..] == s.active[l][1..] && Distance(t, l) < Distance(s, l)
  {
    if Onward(s, l).Wake? {
      WakeGetsNearer(s, l);
    } else {
      DispatchCallsFirst(s, l, NOTHING);
      DispatchKeepsLoops(s, l, NOTHING);
    }
  }

  lemma DispatchKeepsLoops(s: State, l: nat, io: ReadResult)
    requires Enabled(s, Dispatch(l, io))
    ensures |Apply(s, Dispatch(l, io)).loops| == |s.loops|
  {
  }

  /** From every state in order, some continuation by the loop's own steps ends the event under way,
      or aborts; it never calls a handler twice. */
  lemma {:induction false} EventCanEnd(s: State, l: nat) returns (acts: seq<Action>)
    requires Inv(s) && l < |s.loops| && s.active[l] != []
    ensures IsRun(s, acts)
    ensures var t := After(s, acts); t.aborted || (l < |t.active| && t.active[l] == s.active[l][1..])
    decreases Distance(s, l)
  {
    OnwardIsEnabled(s, l);
    var a := Onward(s, l);
    var t := Apply(s, a);
    if a.DoneEvent? || t.aborted {
      acts := [a] + [];
      RunFirst(s, a, []);
    } else {
      StepKeepsInv(s, a);
      OnwardGetsNearer(s, l);
      var rest := EventCanEnd(t, l);
      RunFirst(s, a, rest);
      acts := [a] + rest;
    }
  }

  /** In every reachable state a loop with an event under way can come to its end. */
  lemma EveryEventCanEnd(s: State, l: nat) returns (acts: seq<Action>)
    requires Reachable(s) && l < |s.loops| && l < |s.active| && s.active[l] != []
    ensures IsRun(s, acts)
    ensures var t := After(s, acts); t.aborted || (l < |t.active| && t.active[l] == s.active[l][1..])
  {
    ReachableInv(s);
    acts := EventCanEnd(s, l);
  }
}
