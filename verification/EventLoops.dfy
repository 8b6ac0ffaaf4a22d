/** The functor hand-off between event loops (EventLoop.cpp), as a transition system.

    Loop `i` runs on thread `i`.  A loop blocks in poll, handles its active channels, swaps its
    pending functors out under the mutex and runs them; any thread may queue a functor on any loop
    and, when it has to, writes the target's eventfd afterwards.  The push and the write are two
    steps, so every interleaving around them is a run of this system.
 */
module EventLoops {
  import opened Options

  datatype Phase =
    | Polling     // in epoll_wait
    | Handling    // m_event_handling
    | Running     // m_calling_pending_functors

  datatype Loop<F> = Loop(
    phase: Phase,
    pending: seq<F>,        // m_pending_functors
    batch: seq<F>,          // the local vector of doPendingFunctors
    next: nat,              // how many functors of the batch have been started
    counter: nat,           // the eventfd's value
    edge: bool,             // a write of the eventfd that epoll has not reported yet
    wakeActive: bool,       // the wakeup channel is active and not yet handled
    owes: Option<nat>,      // this thread has pushed to that loop and not yet written its eventfd
    queued: seq<F>,         // history: all functors ever queued here
    executed: seq<F>)       // history: all functors ever run here, in order

  datatype Action<F> =
    | Push(t: nat, l: nat, f: F)           // thread t: the critical section of queueInLoop
    | Wake(t: nat)                         // thread t: wakeup()
    | PollReturn(l: nat, delivered: bool)  // epoll_wait returns, with or without the wakeup event
    | ReadWakeup(l: nat)                   // handleRead empties the eventfd
    | Swap(l: nat)                         // doPendingFunctors takes the queue
    | Begin(l: nat)                        // the next functor of the batch runs
    | EndBatch(l: nat)                     // doPendingFunctors returns, the loop polls again

  function Fresh<F>(): Loop<F> { Loop(Polling, [], [], 0, 0, false, false, None, [], []) }

  function Actor<F>(a: Action<F>): nat {
    if a.Push? || a.Wake? then a.t else a.l
  }

  predicate Enabled<F(==)>(s: seq<Loop<F>>, a: Action<F>) {
    && Actor(a) < |s|
    && var me := s[Actor(a)];
       match a
       case Push(_, l, _) => l < |s| && me.owes == None && me.phase != Polling
       case Wake(_) => me.owes.Some? && me.owes.value < |s|
       case PollReturn(_, delivered) =>
         me.owes == None && me.phase == Polling && (delivered ==> me.edge && me.counter > 0)
       case ReadWakeup(_) => me.owes == None && me.phase == Handling && me.wakeActive
       case Swap(_) => me.owes == None && me.phase == Handling && !me.wakeActive
       case Begin(_) => me.owes == None && me.phase == Running && me.next < |me.batch|
       case EndBatch(_) => me.owes == None && me.phase == Running && me.next == |me.batch|
  }

  /** queueInLoop writes the eventfd unless the loop itself pushes outside its functor phase. */
  predicate MustWake<F>(s: seq<Loop<F>>, t: nat, l: nat)
    requires t < |s|
  {
    t != l || s[t].phase == Running
  }

  function Apply<F(==)>(s: seq<Loop<F>>, a: Action<F>): (r: seq<Loop<F>>)
    requires Enabled(s, a)
    ensures |r| == |s|
  {
    match a
    case Push(t, l, f) =>
      var s1 := s[l := s[l].(pending := s[l].pending + [f], queued := s[l].queued + [f])];
      if MustWake(s, t, l) then s1[t := s1[t].(owes := Some(l))] else s1
    case Wake(t) =>
      var l := s[t].owes.value;
      var s1 := s[t := s[t].(owes := None)];
      s1[l := s1[l].(counter := s1[l].counter + 1, edge := true)]
    case PollReturn(l, delivered) =>
      s[l := s[l].(phase := Handling, wakeActive := delivered, edge := s[l].edge && !delivered)]
    case ReadWakeup(l) =>
      s[l := s[l].(counter := 0, edge := false, wakeActive := false)]
    case Swap(l) =>
      s[l := s[l].(phase := Running, batch := s[l].pending, next := 0, pending := [])]
    case Begin(l) =>
      s[l := s[l].(next := s[l].next + 1, executed := s[l].executed + [s[l].batch[s[l].next]])]
    case EndBatch(l) =>
      s[l := s[l].(phase := Polling, batch := [], next := 0)]
  }

  // ------------------------------------------------------------ invariants

  function Todo<F>(p: Loop<F>): seq<F>
    requires p.next <= |p.batch|
  {
    p.batch[p.next..] + p.pending
  }

  /** Functors are conserved and kept in order. */
  predicate Fifo<F(==)>(p: Loop<F>) {
    && p.next <= |p.batch|
    && (p.phase != Running ==> p.batch == [])
    && p.queued == p.executed + Todo(p)
  }

  ghost predicate OwedTo<F>(s: seq<Loop<F>>, l: nat) {
    exists t :: 0 <= t < |s| && s[t].owes == Some(l)
  }

  predicate Signalled<F>(p: Loop<F>) { p.edge && p.counter > 0 }

  /** Past the swap, pending functors always have a wakeup on the way. */
  ghost predicate Awaited<F>(s: seq<Loop<F>>, l: nat)
    requires l < |s|
  {
    s[l].phase != Handling && s[l].pending != [] ==> Signalled(s[l]) || OwedTo(s, l)
  }

  ghost predicate Inv<F>(s: seq<Loop<F>>) {
    && (forall l :: 0 <= l < |s| ==> Fifo(s[l]))
    && (forall l :: 0 <= l < |s| ==> Awaited(s, l))
    && Orderly(s)
  }

  lemma FifoStep<F>(s: seq<Loop<F>>, a: Action<F>, l: nat)
    requires l < |s| && Enabled(s, a) && Fifo(s[l])
    ensures Fifo(Apply(s, a)[l])
  {
    var p, q := s[l], Apply(s, a)[l];
    if a.Push? && a.l == l {
      FifoPush(p, q, a.f);
    } else if a.Begin? && a.l == l {
      FifoBegin(p, q);
    } else if (a.Swap? || a.EndBatch?) && a.l == l {
      FifoEmptyBatch(p, q);
    } else {
      FifoSame(p, q);
    }
  }

  lemma FifoEmptyBatch<F>(p: Loop<F>, q: Loop<F>)
    requires Fifo(p) && p.next == |p.batch|
    requires q.next == 0 && q.batch + q.pending == p.pending && (q.phase != Running ==> q.batch == [])
    requires q.queued == p.queued && q.executed == p.executed
    ensures Fifo(q)
  {
    assert Todo(p) == p.pending && Todo(q) == p.pending;
  }

  lemma FifoSame<F>(p: Loop<F>, q: Loop<F>)
    requires Fifo(p) && q.next == p.next && q.batch == p.batch && q.pending == p.pending
    requires q.phase == Running || p.phase != Running
    requires q.queued == p.queued && q.executed == p.executed
    ensures Fifo(q) && Todo(q) == Todo(p)
  {
  }

  lemma FifoPush<F>(p: Loop<F>, q: Loop<F>, f: F)
    requires Fifo(p) && q == p.(pending := p.pending + [f], queued := p.queued + [f], owes := q.owes)
    ensures Fifo(q) && Todo(q) == Todo(p) + [f]
  {
    assert Todo(q) == Todo(p) + [f];
    assert q.executed + Todo(q) == (p.executed + Todo(p)) + [f];
  }

  lemma FifoBegin<F>(p: Loop<F>, q: Loop<F>)
    requires Fifo(p) && p.phase == Running && p.next < |p.batch|
    requires q == p.(next := p.next + 1, executed := p.executed + [p.batch[p.next]])
    ensures Fifo(q) && Todo(p) == [p.batch[p.next]] + Todo(q)
  {
    assert Todo(p) == [p.batch[p.next]] + Todo(q);
    assert q.executed + Todo(q) == p.executed + Todo(p);
  }

  lemma AwaitedStep<F>(s: seq<Loop<F>>, a: Action<F>, l: nat)
    requires l < |s| && Enabled(s, a) && Awaited(s, l)
    ensures Awaited(Apply(s, a), l)
  {
    var r := Apply(s, a);
    match a
    case Push(t, m, f) =>
      if MustWake(s, t, m) {
        assert r[t].owes == Some(m);
      }
      if l != m && OwedTo(s, l) {
        var u :| 0 <= u < |s| && s[u].owes == Some(l);
        assert r[u].owes == Some(l);
      }
    case Wake(t) =>
      if OwedTo(s, l) && s[t].owes != Some(l) {
        var u :| 0 <= u < |s| && s[u].owes == Some(l);
        assert r[u].owes == Some(l);
      }
    case _ =>
      if OwedTo(s, l) {
        var u :| 0 <= u < |s| && s[u].owes == Some(l);
        assert r[u].owes == Some(l);
      }
  }

  /** The parts of the invariant about debts and phases. */
  predicate OrderlyLoop<F>(p: Loop<F>, t: nat, n: nat) {
    && (p.owes.Some? ==> p.owes.value < n)
    && (p.wakeActive ==> p.phase == Handling)
    && (p.phase == Polling ==> p.owes == None)
    && (p.owes == Some(t) ==> p.phase == Running)
  }

  ghost predicate Orderly<F>(s: seq<Loop<F>>) {
    forall t :: 0 <= t < |s| ==> OrderlyLoop(s[t], t, |s|)
  }

  lemma OrderlyStep<F>(s: seq<Loop<F>>, a: Action<F>, t: nat)
    requires t < |s| && Enabled(s, a) && OrderlyLoop(s[t], t, |s|)
    ensures OrderlyLoop(Apply(s, a)[t], t, |s|)
  {
  }

  lemma StepKeepsInv<F>(s: seq<Loop<F>>, a: Action<F>)
    requires Inv(s) && Enabled(s, a)
    ensures Inv(Apply(s, a))
  {
    var r := Apply(s, a);
    forall l | 0 <= l < |r|
      ensures Fifo(r[l]) && Awaited(r, l) && OrderlyLoop(r[l], l, |r|)
    {
      OrderlyStep(s, a, l);
      FifoStep(s, a, l);
      AwaitedStep(s, a, l);
    }
  }

  // ------------------------------------------------------------------ runs

  ghost predicate IsRun<F>(s: seq<Loop<F>>, acts: seq<Action<F>>)
    decreases |acts|
  {
    acts == [] || (Enabled(s, acts[0]) && IsRun(Apply(s, acts[0]), acts[1..]))
  }

  ghost function After<F>(s: seq<Loop<F>>, acts: seq<Action<F>>): (r: seq<Loop<F>>)
    requires IsRun(s, acts)
    ensures |r| == |s|
    decreases |acts|
  {
    if acts == [] then s else After(Apply(s, acts[0]), acts[1..])
  }

  ghost predicate Initial<F>(s: seq<Loop<F>>) {
    forall l :: 0 <= l < |s| ==> s[l] == Fresh<F>()
  }

  lemma {:induction false} RunKeepsInv<F>(s: seq<Loop<F>>, acts: seq<Action<F>>)
    requires Inv(s) && IsRun(s, acts)
    ensures Inv(After(s, acts))
    decreases |acts|
  {
    if acts != [] {
      StepKeepsInv(s, acts[0]);
      RunKeepsInv(Apply(s, acts[0]), acts[1..]);
    }
  }

  lemma InitialInv<F>(s: seq<Loop<F>>)
    requires Initial(s)
    ensures Inv(s)
  {
    forall l | 0 <= l < |s|
      ensures Fifo(s[l])
    {
      assert Todo(s[l]) == [];
    }
  }

  /** At every point of every run, on every loop: queued == executed ++ rest of the batch ++ pending.
      So each functor runs at most once, and in the order of queueing. */
  lemma FunctorsAreConserved<F>(s: seq<Loop<F>>, acts: seq<Action<F>>, l: nat)
    requires Initial(s) && IsRun(s, acts) && l < |s|
    ensures
      var p := After(s, acts)[l];
      p.next <= |p.batch| && p.queued == p.executed + p.batch[p.next..] + p.pending
  {
    InitialInv(s);
    RunKeepsInv(s, acts);
    FifoReads(After(s, acts)[l]);
  }

  lemma FifoReads<F>(p: Loop<F>)
    requires Fifo(p)
    ensures p.queued == p.executed + p.batch[p.next..] + p.pending
  {
    assert p.executed + (p.batch[p.next..] + p.pending) == p.executed + p.batch[p.next..] + p.pending;
  }

  /** No lost wakeup: a loop blocked in poll with pending functors has an unreported eventfd edge,
      or some thread stands between its push and its write. */
  lemma NoLostWakeup<F>(s: seq<Loop<F>>, acts: seq<Action<F>>, l: nat)
    requires Initial(s) && IsRun(s, acts) && l < |s|
    requires After(s, acts)[l].phase == Polling && After(s, acts)[l].pending != []
    ensures Signalled(After(s, acts)[l]) || OwedTo(After(s, acts), l)
  {
    InitialInv(s);
    RunKeepsInv(s, acts);
    assert Awaited(After(s, acts), l);
  }

  /** No needless wakeup either: a loop owes itself one only for what it queues while it runs
      functors, when its queue has been taken already. */
  lemma OwnWakeupsAreNeeded<F>(s: seq<Loop<F>>, acts: seq<Action<F>>, l: nat)
    requires Initial(s) && IsRun(s, acts) && l < |s|
    ensures After(s, acts)[l].owes == Some(l) ==> After(s, acts)[l].phase == Running
  {
    InitialInv(s);
    RunKeepsInv(s, acts);
  }

  /** Hence, once the pushing threads have done their writes, poll can return with the wakeup event. */
  lemma BlockedLoopCanWake<F>(s: seq<Loop<F>>, acts: seq<Action<F>>, l: nat)
    requires Initial(s) && IsRun(s, acts) && l < |s|
    requires
      var p := After(s, acts)[l];
      p.phase == Polling && p.pending != [] && !OwedTo(After(s, acts), l)
    ensures Enabled(After(s, acts), PollReturn(l, true))
  {
    NoLostWakeup(s, acts, l);
    InitialInv(s);
    RunKeepsInv(s, acts);
  }
}
