/** The cross-thread life of connections (TcpServer.cpp, TcpConnection.cpp, EventLoop.cpp).

    Loop 0 is the main loop, loops 1 and up are the I/O loops.  The main loop accepts and maps
    connections; establishing, removing and destroying them travel as functors between the loops.
    The system below interleaves the threads step by step.  A LOG_FATAL leads to `aborted`, from
    which no step is possible.
 */
module Lifecycle {
  import EL = EventLoops
  import opened Options
  import opened Poller
  import opened Connections

  /** The functors the server queues.  Establish binds a raw pointer; RemoveConn and Destroy hold a
      shared pointer to the connection for as long as the functor object exists. */
  datatype Functor =
    | Establish(c: nat)
    | RemoveConn(c: nat)
    | Destroy(c: nat)
    | DrainTimers

  datatype Life = Established | Closed | Unmapped | Destroyed

  const LIFE: seq<Life> := [Established, Closed, Unmapped, Destroyed]

  /** A connection object; `log` is the history of what has happened to it, `freed` is set when its
      destructor has run and its fd is closed. */
  datatype Conn = Conn(loop: nat, core: Core, log: seq<Life>, freed: bool)

  /** An active channel with the handlers that Channel::handleEvent still has to call, in its order. */
  datatype Event = Event(c: nat, fd: int, close: bool, error: bool, read: bool, write: bool)

  datatype State = State(
    loops: seq<EL.Loop<Functor>>,
    polls: seq<Poll<nat>>,
    active: seq<seq<Event>>,
    conns: seq<Conn>,
    mapped: set<nat>,      // m_connections
    timers: set<nat>,      // connections whose closeLongConnection timer is in their loop's heap
    open: set<int>,        // connection fds the kernel has handed out and not got back
    unsent: set<nat>,      // history: connections whose last write that sent something left output
    nextLoop: nat,
    troubled: bool,        // the poller has reported an error
    aborted: bool)

  datatype Action =
    | Wake(t: nat)
    | PollReturn(l: nat, delivered: bool, events: seq<Event>)
    | ReadWakeup(l: nat)
    | Accept(fd: int)                 // Acceptor::handleRead gets a connection: newConnection
    | Dispatch(l: nat, io: ReadResult)  // handleEvent calls the next handler of the head event
    | DoneEvent(l: nat)               // handleEvent returns
    | TimerReadable(l: nat)           // the timerfd is readable: TimerHeap::handleRead
    | Swap(l: nat)
    | RunFunctor(l: nat)
    | Fire(l: nat, c: nat)            // inside handleTimeoutEvents: one due timer fires and is popped
    | EndBatch(l: nat)                // the batch vector is destroyed
    | Free(c: nat)                    // ~TcpConnection, once nothing refers to the object

  // ------------------------------------------------------------ references

  /** A functor object of this loop, queued, waiting in the batch, or run and not yet destroyed. */
  predicate Has(p: EL.Loop<Functor>, f: Functor) { f in p.batch || f in p.pending }

  /** Some shared pointer refers to connection `c`: the map, a timer, or a functor that still exists,
      be it run or not. */
  predicate Held(s: State, c: nat)
    requires c < |s.conns| && 0 < |s.loops| && s.conns[c].loop < |s.loops|
  {
    || c in s.mapped
    || c in s.timers
    || Has(s.loops[0], RemoveConn(c))
    || Has(s.loops[s.conns[c].loop], Destroy(c))
  }

  // ----------------------------------------------------------------- steps

  predicate HasHandler(e: Event) { e.close || e.error || e.read || e.write }

  predicate Shaped(s: State) {
    && |s.loops| >= 2 && |s.polls| == |s.active| == |s.loops|
    && 1 <= s.nextLoop < |s.loops|
    && (forall c :: 0 <= c < |s.conns| ==> 1 <= s.conns[c].loop < |s.loops|)
  }

  /** epoll_wait reports registered channels, each once, and only what they are registered for
      besides hang-up and error. */
  predicate Reportable(s: State, l: nat, es: seq<Event>)
    requires Shaped(s) && l < |s.loops|
  {
    && (l == 0 ==> es == [])
    && (forall i :: 0 <= i < |es| ==>
          && es[i].fd in s.polls[l].kernel
          && s.polls[l].kernel[es[i].fd].key == es[i].c
          && (es[i].read ==> s.polls[l].kernel[es[i].fd].mask == ReadEvent)
          && (es[i].write ==> s.polls[l].kernel[es[i].fd].mask == WriteEvent))
    && (forall i, j :: 0 <= i < j < |es| ==> es[i].fd != es[j].fd)
  }

  predicate RunningDrain(p: EL.Loop<Functor>) {
    p.phase == EL.Running && 0 < p.next <= |p.batch| && p.batch[p.next - 1] == DrainTimers
  }

  predicate Idle(s: State, l: nat)
    requires l < |s.loops|
  {
    s.loops[l].owes == None
  }

  predicate Enabled(s: State, a: Action) {
    && !s.aborted && Shaped(s)
    && match a
       case Wake(t) => EL.Enabled(s.loops, EL.Wake(t))
       case PollReturn(l, delivered, events) =>
         EL.Enabled(s.loops, EL.PollReturn(l, delivered)) && Reportable(s, l, events)
       case ReadWakeup(l) => EL.Enabled(s.loops, EL.ReadWakeup(l))
       case Accept(fd) => s.loops[0].phase == EL.Handling && Idle(s, 0) && fd !in s.open
       case Dispatch(l, io) =>
         && 0 < l < |s.loops| && s.loops[l].phase == EL.Handling && Idle(s, l)
         && s.active[l] != [] && HasHandler(s.active[l][0])
         && s.active[l][0].c < |s.conns| && s.conns[s.active[l][0].c].loop == l
         && CanReport(s.conns[s.active[l][0].c].core, io.write)
       case DoneEvent(l) =>
         0 < l < |s.loops| && Idle(s, l) && s.active[l] != [] && !HasHandler(s.active[l][0])
       case TimerReadable(l) => 0 < l < |s.loops| && s.loops[l].phase == EL.Handling && Idle(s, l)
       case Swap(l) => EL.Enabled(s.loops, EL.Swap(l)) && s.active[l] == []
       case RunFunctor(l) =>
         && EL.Enabled(s.loops, EL.Begin(l))
         && var f := s.loops[l].batch[s.loops[l].next];
            f != DrainTimers ==> f.c < |s.conns|
       case Fire(l, c) =>
         && 0 < l < |s.loops| && RunningDrain(s.loops[l]) && Idle(s, l)
         && c in s.timers && c < |s.conns| && s.conns[c].loop == l
       case EndBatch(l) => EL.Enabled(s.loops, EL.EndBatch(l))
       case Free(c) => c < |s.conns| && !s.conns[c].freed && !Held(s, c)
  }

  function Push(loops: seq<EL.Loop<Functor>>, t: nat, l: nat, f: Functor): (r: seq<EL.Loop<Functor>>)
    requires EL.Enabled(loops, EL.Push(t, l, f))
    ensures |r| == |loops|
  {
    EL.Apply(loops, EL.Push(t, l, f))
  }

  /** The handler handleEvent calls next. */
  function Handle(p: Poll<nat>, e: Event, core: Core, io: ReadResult): Effect<nat> {
    if e.close || e.error then HandleClose(p, e.c, core)
    else if e.read then HandleRead(p, e.c, core, io)
    else HandleWrite(p, e.c, core, io.write)
  }

  function Called(e: Event): Event {
    if e.close then e.(close := false)
    else if e.error then e.(error := false)
    else if e.read then e.(read := false)
    else e.(write := false)
  }

  /** Records the effect of a handler of connection `c` on its loop `l`, and queues its removal when
      the close callback was called. */
  function Record(s: State, l: nat, c: nat, e: Effect<nat>): State
    requires Shaped(s) && 0 < l < |s.loops| && c < |s.conns| && s.conns[c].loop == l
    requires Idle(s, l) && s.loops[l].phase != EL.Polling
  {
    var k := s.conns[c];
    var s1 := s.(polls := s.polls[l := e.poll],
                 conns := s.conns[c := k.(core := e.core, log := if e.closed then k.log + [Closed] else k.log)],
                 timers := if e.timer then s.timers + {c} else s.timers,
                 troubled := s.troubled || e.troubled,
                 aborted := e.aborted);
    if e.closed then s1.(loops := Push(s.loops, l, 0, RemoveConn(c))) else s1
  }

  function Apply(s: State, a: Action): State
    requires Enabled(s, a)
  {
    match a
    case Wake(t) => Moved(s, EL.Wake(t))
    case PollReturn(l, delivered, events) => Moved(s, EL.PollReturn(l, delivered)).(active := s.active[l := events])
    case ReadWakeup(l) => Moved(s, EL.ReadWakeup(l))
    case Accept(fd) => NewConnection(s, fd)
    case Dispatch(l, io) => CallHandler(s, l, io)
    case DoneEvent(l) => s.(active := s.active[l := s.active[l][1..]])
    case TimerReadable(l) => QueueDrain(s, l)
    case Swap(l) => Moved(s, EL.Swap(l))
    case RunFunctor(l) => Run(s, l, s.loops[l].batch[s.loops[l].next])
    case Fire(l, c) => FireTimer(s, l, c)
    case EndBatch(l) => Moved(s, EL.EndBatch(l))
    case Free(c) => Destruct(s, c)
  }

  function Moved(s: State, b: EL.Action<Functor>): State
    requires EL.Enabled(s.loops, b)
  {
    s.(loops := EL.Apply(s.loops, b))
  }

  /** TcpServer::newConnection. */
  function NewConnection(s: State, fd: int): State
    requires Enabled(s, Accept(fd))
  {
    var c, l := |s.conns|, s.nextLoop;
    s.(conns := s.conns + [Conn(l, Core(Connecting, false, false, false, Chan(fd, KNew, NoneEvent)), [], false)],
       mapped := s.mapped + {c},
       open := s.open + {fd},
       nextLoop := if l + 1 < |s.loops| then l + 1 else 1,
       loops := Push(s.loops, 0, l, Establish(c)))
  }

  /** TimerHeap::handleRead queues handleTimeoutEvents on its own loop. */
  function QueueDrain(s: State, l: nat): State
    requires Enabled(s, TimerReadable(l))
  {
    s.(loops := Push(s.loops, l, l, DrainTimers))
  }

  function CallHandler(s: State, l: nat, io: ReadResult): State
    requires Enabled(s, Dispatch(l, io))
  {
    var e := s.active[l][0];
    var s1 := s.(active := s.active[l := [Called(e)] + s.active[l][1..]]);
    Record(s1, l, e.c, Handle(s.polls[l], e, s.conns[e.c].core, io)).(unsent := Unsent(s.unsent, e, io))
  }

  /** Whether the handler called next writes, and how that write ends. */
  function Unsent(unsent: set<nat>, e: Event, io: ReadResult): set<nat> {
    var sends := !e.close && !e.error && (e.read ==> io.bytes > 0) && io.write.bytes > 0;
    if !sends then unsent
    else if io.write.left > 0 then unsent + {e.c}
    else unsent - {e.c}
  }

  /** One turn of the loop in handleTimeoutEvents: closeLongConnection, then pop. */
  function FireTimer(s: State, l: nat, c: nat): State
    requires Enabled(s, Fire(l, c))
  {
    Record(s.(timers := s.timers - {c}), l, c, CloseLongConnection(s.polls[l], c, s.conns[c].core))
  }

  /** ~TcpConnection: fatal unless disconnected; closing the fd takes it out of every interest set. */
  function Destruct(s: State, c: nat): State
    requires Enabled(s, Free(c))
  {
    var k := s.conns[c];
    s.(conns := s.conns[c := k.(freed := true)],
       open := s.open - {k.core.chan.fd},
       polls := s.polls[k.loop := s.polls[k.loop].(kernel := s.polls[k.loop].kernel - {k.core.chan.fd})],
       aborted := k.core.state != Disconnected)
  }

  /** What a functor does, once doPendingFunctors has reached it. */
  function Run(s: State, l: nat, f: Functor): State
    requires Shaped(s) && EL.Enabled(s.loops, EL.Begin(l))
    requires f != DrainTimers ==> f.c < |s.conns|
  {
    var s1 := s.(loops := EL.Apply(s.loops, EL.Begin(l)));
    match f
    case DrainTimers => s1
    case Establish(c) =>
      Registering(s1, l, c, ConnectEstablished(s.polls[s.conns[c].loop], c, s.conns[c].core), Established)
    case Destroy(c) =>
      Registering(s1, l, c, ConnectDestroyed(s.polls[s.conns[c].loop], c, s.conns[c].core), Destroyed)
    case RemoveConn(c) =>
      var k := s.conns[c];
      s1.(mapped := s.mapped - {c},
          conns := s.conns[c := k.(log := k.log + [Unmapped])],
          loops := Push(s1.loops, l, k.loop, Destroy(c)),
          aborted := l != 0)
  }

  /** Both functors act on the poller of the connection's loop, which aborts on another thread. */
  function Registering(s: State, l: nat, c: nat, e: Effect<nat>, event: Life): State
    requires Shaped(s) && c < |s.conns|
  {
    var k := s.conns[c];
    s.(polls := s.polls[k.loop := e.poll],
       conns := s.conns[c := k.(core := e.core, log := k.log + [event])],
       troubled := s.troubled || e.troubled,
       aborted := e.aborted || l != k.loop)
  }
}
