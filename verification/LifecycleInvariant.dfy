/** What every step of the server keeps: the invariant behind module LifecycleTheorems. */
module LifecycleInvariant {
  import EL = EventLoops
  import opened Poller
  import opened Connections
  import opened Lifecycle

  // ------------------------------------------------------------- invariant

  function One(b: bool): nat { if b then 1 else 0 }

  function Count(p: EL.Loop<Functor>, f: Functor): nat
    requires p.next <= |p.batch|
  {
    multiset(EL.Todo(p))[f]
  }

  /** How far a connection has come in its life. */
  function Stage(k: Conn): nat { |k.log| }

  predicate CoreAt(stage: nat, core: Core) {
    match stage
    case 0 => core.state == Connecting && !core.alive && !core.timeout && core.chan.index == KNew
    case 1 => core.state == Connected && core.chan.index == KAdded && !core.timeout
    case 2 => core.state == Disconnected && core.chan.index == KDeleted
    case 3 => core.state == Disconnected && core.chan.index == KDeleted
    case _ => core.state == Disconnected && core.chan.index == KNew
  }

  /** The stage of a connection determines which functor is on its way, whether it is mapped, and
      what its state, its channel and the poller say. */
  ghost predicate ConnOk(s: State, c: nat)
    requires Shaped(s) && c < |s.conns|
  {
    var k := s.conns[c];
    var p := Stage(k);
    && p <= 4 && k.log == LIFE[..p]
    && s.loops[0].next <= |s.loops[0].batch| && s.loops[k.loop].next <= |s.loops[k.loop].batch|
    && Count(s.loops[k.loop], Establish(c)) == One(p == 0)
    && Count(s.loops[0], RemoveConn(c)) == One(p == 2)
    && Count(s.loops[k.loop], Destroy(c)) == One(p == 3)
    && (c in s.mapped <==> p <= 2)
    && CoreAt(p, k.core)
    && Agrees(s.polls[k.loop], c, k.core.chan)
    && (k.core.timeout ==> k.core.alive)
    && (c in s.timers ==> p > 0 && k.core.alive && !k.core.timeout)
    && (p == 1 && k.core.alive ==> c in s.timers)
    && (k.freed ==> p == 4 && !Held(s, c))
    && (!k.freed ==> k.core.chan.fd in s.open)
  }

  predicate Placed(s: State, l: nat, f: Functor) {
    match f
    case Establish(c) => c < |s.conns| && s.conns[c].loop == l
    case Destroy(c) => c < |s.conns| && s.conns[c].loop == l
    case RemoveConn(c) => c < |s.conns| && l == 0
    case DrainTimers => l > 0
  }

  predicate PollOk(s: State, l: nat)
    requires Shaped(s) && l < |s.loops|
  {
    && Consistent(s.polls[l])
    && (forall fd :: fd in s.polls[l].channels ==>
          var c := s.polls[l].channels[fd];
          c < |s.conns| && s.conns[c].loop == l && s.conns[c].core.chan.fd == fd)
  }

  /** An event belongs to a connection of its loop that is established and not yet destroyed; and a
      connection that is closed while its event is being handled has been shut for writing. */
  predicate EventOk(s: State, l: nat, e: Event) {
    && e.c < |s.conns| && s.conns[e.c].loop == l && 1 <= Stage(s.conns[e.c]) <= 3
    && (Stage(s.conns[e.c]) >= 2 ==> s.conns[e.c].core.shut)
  }

  ghost predicate LoopOk(s: State, l: nat)
    requires Shaped(s) && l < |s.loops|
  {
    && PollOk(s, l)
    && (forall f :: Has(s.loops[l], f) ==> Placed(s, l, f))
    && (forall e :: e in s.active[l] ==> EventOk(s, l, e))
    && (s.active[l] != [] ==> s.loops[l].phase == EL.Handling && l > 0)
  }

  ghost predicate FdsDiffer(s: State) {
    forall c, d :: 0 <= c < d < |s.conns| && !s.conns[c].freed && !s.conns[d].freed ==>
      s.conns[c].core.chan.fd != s.conns[d].core.chan.fd
  }

  ghost predicate Inv(s: State) {
    && Shaped(s) && !s.aborted && !s.troubled
    && EL.Inv(s.loops)
    && (forall c :: 0 <= c < |s.conns| ==> ConnOk(s, c))
    && (forall l :: 0 <= l < |s.loops| ==> LoopOk(s, l))
    && FdsDiffer(s)
    && (forall c :: c in s.mapped || c in s.timers ==> c < |s.conns|)
  }

  // ---------------------------------------------- what loop steps do to bags

  /** `rs` has the same functors to do as `ls`, and no functor object that `ls` has not. */
  ghost predicate SameWork(ls: seq<EL.Loop<Functor>>, rs: seq<EL.Loop<Functor>>) {
    && |ls| == |rs|
    && (forall m :: 0 <= m < |ls| ==> ls[m].next <= |ls[m].batch| && rs[m].next <= |rs[m].batch|)
    && (forall m :: 0 <= m < |ls| ==> EL.Todo(rs[m]) == EL.Todo(ls[m]))
    && (forall m, f :: 0 <= m < |ls| && Has(rs[m], f) ==> Has(ls[m], f))
  }

  predicate IsQuiet(a: EL.Action<Functor>) { !a.Push? && !a.Begin? }

  lemma QuietStep(ls: seq<EL.Loop<Functor>>, a: EL.Action<Functor>)
    requires EL.Inv(ls) && EL.Enabled(ls, a) && IsQuiet(a)
    ensures EL.Inv(EL.Apply(ls, a))
    ensures SameWork(ls, EL.Apply(ls, a))
  {
    EL.StepKeepsInv(ls, a);
    var rs := EL.Apply(ls, a);
    forall m | 0 <= m < |ls|
      ensures EL.Todo(rs[m]) == EL.Todo(ls[m])
      ensures rs[m].next <= |rs[m].batch|
    {
      assert EL.Fifo(ls[m]) && EL.Fifo(rs[m]);
    }
  }

  lemma PushAt(ls: seq<EL.Loop<Functor>>, t: nat, l: nat, f: Functor, m: nat)
    requires EL.Inv(ls) && EL.Enabled(ls, EL.Push(t, l, f)) && m < |ls|
    ensures
      var r := Push(ls, t, l, f)[m];
      && EL.Fifo(ls[m]) && EL.Fifo(r)
      && EL.Todo(r) == (if m == l then EL.Todo(ls[m]) + [f] else EL.Todo(ls[m]))
      && r.batch == ls[m].batch && r.pending == (if m == l then ls[m].pending + [f] else ls[m].pending)
      && r.phase == ls[m].phase
  {
    assert EL.Fifo(ls[m]);
    PushChanges(ls, t, l, f, m);
    if m == l {
      EL.FifoPush(ls[m], Push(ls, t, l, f)[m], f);
    } else {
      EL.FifoSame(ls[m], Push(ls, t, l, f)[m]);
    }
  }

  lemma PushChanges(ls: seq<EL.Loop<Functor>>, t: nat, l: nat, f: Functor, m: nat)
    requires EL.Enabled(ls, EL.Push(t, l, f)) && m < |ls|
    ensures
      var p, q := ls[m], Push(ls, t, l, f)[m];
      q == (if m == l then p.(pending := p.pending + [f], queued := p.queued + [f], owes := q.owes)
            else p.(owes := q.owes))
  {
  }

  lemma PushStep(ls: seq<EL.Loop<Functor>>, t: nat, l: nat, f: Functor)
    requires EL.Inv(ls) && EL.Enabled(ls, EL.Push(t, l, f))
    ensures EL.Inv(Push(ls, t, l, f))
    ensures
      var rs := Push(ls, t, l, f);
      && (forall m :: 0 <= m < |ls| ==> EL.Fifo(ls[m]) && EL.Fifo(rs[m]))
      && (forall m :: 0 <= m < |ls| ==> rs[m].phase == ls[m].phase)
      && (forall m, g :: 0 <= m < |ls| ==> Count(rs[m], g) == Count(ls[m], g) + One(m == l && g == f))
      && (forall m, g :: 0 <= m < |ls| ==> (Has(rs[m], g) <==> Has(ls[m], g) || (m == l && g == f)))
  {
    EL.StepKeepsInv(ls, EL.Push(t, l, f));
    var rs := Push(ls, t, l, f);
    forall m | 0 <= m < |ls|
      ensures EL.Fifo(ls[m]) && EL.Fifo(rs[m]) && rs[m].phase == ls[m].phase
      ensures forall g :: Count(rs[m], g) == Count(ls[m], g) + One(m == l && g == f)
      ensures forall g :: Has(rs[m], g) <==> Has(ls[m], g) || (m == l && g == f)
    {
      PushAt(ls, t, l, f, m);
    }
  }

  lemma PushCount(ls: seq<EL.Loop<Functor>>, t: nat, l: nat, f: Functor, m: nat, g: Functor)
    requires EL.Inv(ls) && EL.Enabled(ls, EL.Push(t, l, f)) && m < |ls|
    ensures EL.Fifo(ls[m]) && EL.Fifo(Push(ls, t, l, f)[m])
    ensures Count(Push(ls, t, l, f)[m], g) == Count(ls[m], g) + One(m == l && g == f)
  {
    PushAt(ls, t, l, f, m);
  }

  lemma BeginCount(ls: seq<EL.Loop<Functor>>, l: nat, m: nat, g: Functor)
    requires EL.Inv(ls) && EL.Enabled(ls, EL.Begin(l)) && m < |ls|
    ensures EL.Fifo(ls[m]) && EL.Fifo(EL.Apply(ls, EL.Begin(l))[m])
    ensures Count(ls[m], g) == Count(EL.Apply(ls, EL.Begin(l))[m], g) + One(m == l && g == ls[l].batch[ls[l].next])
  {
    BeginAt(ls, l, m);
  }

  lemma BeginAt(ls: seq<EL.Loop<Functor>>, l: nat, m: nat)
    requires EL.Inv(ls) && EL.Enabled(ls, EL.Begin(l)) && m < |ls|
    ensures
      var r := EL.Apply(ls, EL.Begin(l))[m];
      var f := ls[l].batch[ls[l].next];
      && EL.Fifo(ls[m]) && EL.Fifo(r)
      && EL.Todo(ls[m]) == (if m == l then [f] + EL.Todo(r) else EL.Todo(r))
      && r.batch == ls[m].batch && r.pending == ls[m].pending
      && r.phase == ls[m].phase && r.owes == ls[m].owes
  {
    assert EL.Fifo(ls[m]);
    BeginChanges(ls, l, m);
    if m == l {
      EL.FifoBegin(ls[m], EL.Apply(ls, EL.Begin(l))[m]);
    } else {
      EL.FifoSame(ls[m], ls[m]);
    }
  }

  lemma BeginChanges(ls: seq<EL.Loop<Functor>>, l: nat, m: nat)
    requires EL.Enabled(ls, EL.Begin(l)) && m < |ls|
    ensures
      var p, q := ls[m], EL.Apply(ls, EL.Begin(l))[m];
      q == if m == l then p.(next := p.next + 1, executed := p.executed + [p.batch[p.next]]) else p
  {
  }

  lemma BeginStep(ls: seq<EL.Loop<Functor>>, l: nat)
    requires EL.Inv(ls) && EL.Enabled(ls, EL.Begin(l))
    ensures EL.Inv(EL.Apply(ls, EL.Begin(l)))
    ensures
      var rs := EL.Apply(ls, EL.Begin(l));
      var f := ls[l].batch[ls[l].next];
      && (forall m :: 0 <= m < |ls| ==> EL.Fifo(ls[m]) && EL.Fifo(rs[m]))
      && (forall m :: 0 <= m < |ls| ==> rs[m].phase == ls[m].phase && rs[m].owes == ls[m].owes)
      && Has(ls[l], f)
      && (forall m, g :: 0 <= m < |ls| ==> Count(ls[m], g) == Count(rs[m], g) + One(m == l && g == f))
      && (forall m, g :: 0 <= m < |ls| ==> (Has(rs[m], g) <==> Has(ls[m], g)))
  {
    EL.StepKeepsInv(ls, EL.Begin(l));
    var rs := EL.Apply(ls, EL.Begin(l));
    var f := ls[l].batch[ls[l].next];
    forall m | 0 <= m < |ls|
      ensures EL.Fifo(ls[m]) && EL.Fifo(rs[m]) && rs[m].phase == ls[m].phase && rs[m].owes == ls[m].owes
      ensures forall g :: Count(ls[m], g) == Count(rs[m], g) + One(m == l && g == f)
      ensures forall g :: Has(rs[m], g) <==> Has(ls[m], g)
    {
      BeginAt(ls, l, m);
    }
  }

  // -------------------------------------------------------- frame for conns

  /** A connection the step did not touch stays as it was. */
  lemma FrameConn(s: State, t: State, c: nat)
    requires Shaped(s) && Shaped(t) && c < |s.conns| && c < |t.conns| && ConnOk(s, c)
    requires t.conns[c] == s.conns[c] && |t.loops| == |s.loops|
    requires forall m :: 0 <= m < |t.loops| ==> t.loops[m].next <= |t.loops[m].batch|
    requires var k := s.conns[c];
      && Count(t.loops[k.loop], Establish(c)) == Count(s.loops[k.loop], Establish(c))
      && Count(t.loops[0], RemoveConn(c)) == Count(s.loops[0], RemoveConn(c))
      && Count(t.loops[k.loop], Destroy(c)) == Count(s.loops[k.loop], Destroy(c))
      && Agrees(t.polls[k.loop], c, k.core.chan)
    requires (c in t.mapped <==> c in s.mapped) && (c in t.timers <==> c in s.timers)
    requires s.conns[c].freed && Held(t, c) ==> Held(s, c)
    requires !s.conns[c].freed ==> s.conns[c].core.chan.fd in t.open
    ensures ConnOk(t, c)
  {
  }

  // ------------------------------------------------------------- quiet steps

  /** Steps that only move a loop along, or finish an event. */
  lemma QuietKeepsInv(s: State, t: State, l: nat)
    requires Inv(s) && l < |s.loops|
    requires |t.active| == |s.active| && t == s.(loops := t.loops, active := s.active[l := t.active[l]])
    requires EL.Inv(t.loops) && SameWork(s.loops, t.loops)
    requires forall m :: 0 <= m < |s.loops| && s.active[m] != [] && m != l ==> t.loops[m].phase == s.loops[m].phase
    requires forall e :: e in t.active[l] ==> EventOk(s, l, e)
    requires t.active[l] != [] ==> t.loops[l].phase == EL.Handling && l > 0
    ensures Inv(t)
  {
    forall c | 0 <= c < |t.conns|
      ensures ConnOk(t, c)
    {
      QuietConn(s, t, c);
    }
    forall m | 0 <= m < |t.loops|
      ensures LoopOk(t, m)
    {
      assert LoopOk(s, m);
      QuietLoop(s, t, m);
    }
  }

  lemma QuietConn(s: State, t: State, c: nat)
    requires Shaped(s) && Shaped(t) && c < |s.conns| && ConnOk(s, c)
    requires t == s.(loops := t.loops, active := t.active) && SameWork(s.loops, t.loops)
    ensures ConnOk(t, c)
  {
    FrameConn(s, t, c);
  }

  lemma QuietLoop(s: State, t: State, m: nat)
    requires Shaped(s) && Shaped(t) && m < |s.loops| && LoopOk(s, m)
    requires t == s.(loops := t.loops, active := t.active) && SameWork(s.loops, t.loops)
    requires forall e :: e in t.active[m] ==> EventOk(s, m, e)
    requires t.active[m] != [] ==> t.loops[m].phase == EL.Handling && m > 0
    ensures LoopOk(t, m)
  {
    forall f | Has(t.loops[m], f)
      ensures Placed(t, m, f)
    {
      assert Has(s.loops[m], f) && Placed(s, m, f);
    }
    forall e | e in t.active[m]
      ensures EventOk(t, m, e)
    {
      assert EventOk(s, m, e);
    }
  }

  lemma MoveKeepsInv(s: State, b: EL.Action<Functor>)
    requires Inv(s) && EL.Enabled(s.loops, b)
    requires b.Wake? || b.ReadWakeup? || b.EndBatch? || (b.Swap? && s.active[b.l] == [])
    ensures Inv(Moved(s, b))
  {
    var t, l := Moved(s, b), EL.Actor(b);
    QuietStep(s.loops, b);
    assert s.active[l := s.active[l]] == s.active;
    assert LoopOk(s, l);
    QuietKeepsInv(s, t, l);
  }

  lemma PollReturnKeepsInv(s: State, l: nat, delivered: bool, events: seq<Event>)
    requires Inv(s) && Enabled(s, PollReturn(l, delivered, events))
    ensures Inv(Moved(s, EL.PollReturn(l, delivered)).(active := s.active[l := events]))
  {
    var t := Moved(s, EL.PollReturn(l, delivered)).(active := s.active[l := events]);
    QuietStep(s.loops, EL.PollReturn(l, delivered));
    assert LoopOk(s, l);
    forall e | e in events
      ensures EventOk(s, l, e)
    {
      var i :| 0 <= i < |events| && events[i] == e;
      assert e.fd in s.polls[l].kernel && s.polls[l].kernel[e.fd].key == e.c;
      assert s.polls[l].channels[e.fd] == e.c;
      assert ConnOk(s, e.c);
    }
    QuietKeepsInv(s, t, l);
  }

  lemma DoneEventKeepsInv(s: State, l: nat)
    requires Inv(s) && Enabled(s, DoneEvent(l))
    ensures Inv(s.(active := s.active[l := s.active[l][1..]]))
  {
    var t := s.(active := s.active[l := s.active[l][1..]]);
    assert LoopOk(s, l);
    forall e | e in t.active[l]
      ensures EventOk(s, l, e)
    {
      assert e in s.active[l];
    }
    assert SameWork(s.loops, t.loops) by {
      forall m | 0 <= m < |s.loops| ensures s.loops[m].next <= |s.loops[m].batch| {
        assert EL.Fifo(s.loops[m]);
      }
    }
    QuietKeepsInv(s, t, l);
  }

  // --------------------------------------------------- one connection touched

  predicate About(f: Functor, c: nat) { f == DrainTimers || f.c == c }

  /** The loops of `t` have work and functor objects as those of `s`, except about connection `c`. */
  ghost predicate WorkAbout(s: State, t: State, c: nat) {
    && |t.loops| == |s.loops|
    && (forall m :: 0 <= m < |s.loops| ==>
          s.loops[m].next <= |s.loops[m].batch| && t.loops[m].next <= |t.loops[m].batch|)
    && (forall m, g :: 0 <= m < |s.loops| && !About(g, c) ==> Count(t.loops[m], g) == Count(s.loops[m], g))
    && (forall m, g :: 0 <= m < |s.loops| && Has(t.loops[m], g) ==>
          Has(s.loops[m], g) || (About(g, c) && Placed(t, m, g)))
  }

  /** `t` differs from `s` in connection `c` only: in its fields, its functors, its channel in its
      own loop's poller, its membership of the map and the timers, and the events being handled. */
  ghost predicate Touches(s: State, t: State, c: nat)
    requires Shaped(s)
  {
    && Shaped(t) && |t.loops| == |s.loops| && c < |s.conns| == |t.conns|
    && (forall j :: 0 <= j < |s.conns| && j != c ==> t.conns[j] == s.conns[j])
    && t.conns[c].loop == s.conns[c].loop && t.conns[c].core.chan.fd == s.conns[c].core.chan.fd
    && (s.conns[c].freed ==> t.conns[c].freed)
    && WorkAbout(s, t, c)
    && (forall m :: 0 <= m < |s.loops| && m != s.conns[c].loop ==> t.polls[m] == s.polls[m])
    && (forall j :: j != c ==> (j in t.mapped <==> j in s.mapped) && (j in t.timers <==> j in s.timers))
    && (forall j :: 0 <= j < |s.conns| && j != c && !s.conns[j].freed && s.conns[j].core.chan.fd in s.open ==>
          s.conns[j].core.chan.fd in t.open)
    && (forall m, e :: 0 <= m < |s.loops| && e in t.active[m] ==>
          EventOk(s, m, e) && (e.c == c ==> EventOk(t, m, e)))
    && (forall m :: 0 <= m < |s.loops| && t.active[m] != [] ==> t.loops[m].phase == EL.Handling && m > 0)
  }

  ghost predicate NeighboursAgree(s: State, p: Poll<nat>, c: nat)
    requires c < |s.conns|
  {
    forall j :: 0 <= j < |s.conns| && j != c && s.conns[j].loop == s.conns[c].loop ==>
      Agrees(p, j, s.conns[j].core.chan)
  }

  lemma PushIsAbout(s: State, t: State, c: nat, th: nat, l: nat, f: Functor)
    requires EL.Inv(s.loops) && EL.Enabled(s.loops, EL.Push(th, l, f))
    requires t.loops == Push(s.loops, th, l, f) && About(f, c) && Placed(t, l, f)
    ensures WorkAbout(s, t, c)
  {
    PushStep(s.loops, th, l, f);
    forall m | 0 <= m < |s.loops|
      ensures s.loops[m].next <= |s.loops[m].batch| && t.loops[m].next <= |t.loops[m].batch|
    {
      assert EL.Fifo(s.loops[m]) && EL.Fifo(t.loops[m]);
    }
  }

  lemma BeginIsAbout(s: State, t: State, c: nat, l: nat)
    requires EL.Inv(s.loops) && EL.Enabled(s.loops, EL.Begin(l))
    requires t.loops == EL.Apply(s.loops, EL.Begin(l)) && About(s.loops[l].batch[s.loops[l].next], c)
    ensures WorkAbout(s, t, c)
  {
    BeginStep(s.loops, l);
    forall m | 0 <= m < |s.loops|
      ensures s.loops[m].next <= |s.loops[m].batch| && t.loops[m].next <= |t.loops[m].batch|
    {
      assert EL.Fifo(s.loops[m]) && EL.Fifo(t.loops[m]);
    }
  }

  /** What WorkAbout says of one functor on one loop. */
  ghost predicate WorkAt(s: State, t: State, c: nat, m: nat, g: Functor)
    requires m < |s.loops| && |t.loops| == |s.loops|
  {
    && s.loops[m].next <= |s.loops[m].batch| && t.loops[m].next <= |t.loops[m].batch|
    && (!About(g, c) ==> Count(t.loops[m], g) == Count(s.loops[m], g))
    && (Has(t.loops[m], g) ==> Has(s.loops[m], g) || (About(g, c) && Placed(t, m, g)))
  }

  lemma WorkAboutAt(s: State, t: State, c: nat, m: nat, g: Functor)
    requires WorkAbout(s, t, c) && m < |s.loops|
    ensures WorkAt(s, t, c, m, g)
  {
  }

  lemma WorkAtAll(s: State, t: State, c: nat)
    requires |t.loops| == |s.loops| && forall m: nat, g :: m < |s.loops| ==> WorkAt(s, t, c, m, g)
    ensures WorkAbout(s, t, c)
  {
    forall m | 0 <= m < |s.loops|
      ensures s.loops[m].next <= |s.loops[m].batch| && t.loops[m].next <= |t.loops[m].batch|
    {
      assert WorkAt(s, t, c, m, DrainTimers);
    }
    forall m, g | 0 <= m < |s.loops| && !About(g, c)
      ensures Count(t.loops[m], g) == Count(s.loops[m], g)
    {
      assert WorkAt(s, t, c, m, g);
    }
    forall m, g | 0 <= m < |s.loops| && Has(t.loops[m], g)
      ensures Has(s.loops[m], g) || (About(g, c) && Placed(t, m, g))
    {
      assert WorkAt(s, t, c, m, g);
    }
  }

  lemma AboutTwice(s: State, u: State, t: State, c: nat)
    requires WorkAbout(s, u, c) && WorkAbout(u, t, c)
    requires forall m, g :: 0 <= m < |s.loops| && Has(u.loops[m], g) ==> Has(s.loops[m], g)
    ensures WorkAbout(s, t, c)
  {
    forall m: nat, g | m < |s.loops|
      ensures WorkAt(s, t, c, m, g)
    {
      AboutTwiceAt(s, u, t, c, m, g);
    }
    WorkAtAll(s, t, c);
  }

  lemma AboutTwiceAt(s: State, u: State, t: State, c: nat, m: nat, g: Functor)
    requires WorkAbout(s, u, c) && WorkAbout(u, t, c) && m < |s.loops|
    requires Has(u.loops[m], g) ==> Has(s.loops[m], g)
    ensures WorkAt(s, t, c, m, g)
  {
    WorkAboutAt(s, u, c, m, g);
    WorkAboutAt(u, t, c, m, g);
  }

  /** A functor still to run exists as an object. */
  lemma CountHas(p: EL.Loop<Functor>, f: Functor)
    requires p.next <= |p.batch|
    ensures Count(p, f) > 0 ==> Has(p, f)
  {
    assert f in EL.Todo(p) ==> Has(p, f);
  }

  lemma SameLoopsAreAbout(s: State, t: State, c: nat)
    requires EL.Inv(s.loops) && t.loops == s.loops
    ensures WorkAbout(s, t, c)
  {
    forall m | 0 <= m < |s.loops|
      ensures s.loops[m].next <= |s.loops[m].batch|
    {
      assert EL.Fifo(s.loops[m]);
    }
  }

  lemma WorkCounts(s: State, t: State, c: nat, j: nat, l: nat)
    requires 0 < |s.loops| && l < |s.loops| && j != c && WorkAbout(s, t, c)
    ensures s.loops[0].next <= |s.loops[0].batch| && t.loops[0].next <= |t.loops[0].batch|
    ensures s.loops[l].next <= |s.loops[l].batch| && t.loops[l].next <= |t.loops[l].batch|
    ensures Count(t.loops[l], Establish(j)) == Count(s.loops[l], Establish(j))
    ensures Count(t.loops[0], RemoveConn(j)) == Count(s.loops[0], RemoveConn(j))
    ensures Count(t.loops[l], Destroy(j)) == Count(s.loops[l], Destroy(j))
    ensures Has(t.loops[0], RemoveConn(j)) ==> Has(s.loops[0], RemoveConn(j))
    ensures Has(t.loops[l], Destroy(j)) ==> Has(s.loops[l], Destroy(j))
  {
    WorkAboutAt(s, t, c, l, Establish(j));
    WorkAboutAt(s, t, c, 0, RemoveConn(j));
    WorkAboutAt(s, t, c, l, Destroy(j));
  }

  lemma TouchFrame(s: State, t: State, c: nat, j: nat)
    requires Shaped(s) && j < |s.conns| && ConnOk(s, j) && Touches(s, t, c) && j != c
    requires NeighboursAgree(s, t.polls[s.conns[c].loop], c)
    ensures ConnOk(t, j)
  {
    WorkCounts(s, t, c, j, s.conns[j].loop);
    assert Agrees(t.polls[s.conns[j].loop], j, s.conns[j].core.chan);
    FrameConn(s, t, j);
  }

  lemma TouchLoop(s: State, t: State, c: nat, m: nat)
    requires Inv(s) && Touches(s, t, c) && m < |s.loops|
    requires PollOk(t, s.conns[c].loop)
    ensures LoopOk(t, m)
  {
    assert LoopOk(s, m);
    forall f | Has(t.loops[m], f)
      ensures Placed(t, m, f)
    {
      assert Has(s.loops[m], f) ==> Placed(s, m, f);
    }
    forall e | e in t.active[m]
      ensures EventOk(t, m, e)
    {
      assert EventOk(s, m, e);
    }
  }

  lemma TouchKeepsInv(s: State, t: State, c: nat)
    requires Inv(s) && Touches(s, t, c) && !t.aborted && !t.troubled && EL.Inv(t.loops)
    requires PollOk(t, s.conns[c].loop) && NeighboursAgree(s, t.polls[s.conns[c].loop], c)
    requires ConnOk(t, c)
    ensures Inv(t)
  {
    forall j | 0 <= j < |t.conns|
      ensures ConnOk(t, j)
    {
      if j != c { TouchFrame(s, t, c, j); }
    }
    forall m | 0 <= m < |t.loops|
      ensures LoopOk(t, m)
    {
      TouchLoop(s, t, c, m);
    }
  }

  // -------------------------------------------------------- handler effects

  /** Every channel but `c` that agreed with `p` agrees with `q`. */
  ghost predicate OthersAgree(p: Poll<nat>, q: Poll<nat>, c: nat) {
    forall j: nat, ch: Chan :: j != c && Agrees(p, j, ch) ==> Agrees(q, j, ch)
  }

  lemma OthersStay(p: Poll<nat>, c: nat, ch: Chan, mask: Interest)
    requires ch.index == KNew ==> ch.fd !in p.channels
    requires ch.index != KNew ==> Mapped(p, c, ch.fd)
    ensures OthersAgree(p, UpdateChannel(p, c, ch.(events := mask)).poll, c)
    ensures OthersAgree(p, Remove(p, c, ch).poll, c)
  {
    forall j: nat, other: Chan | j != c && Agrees(p, j, other)
      ensures Agrees(UpdateChannel(p, c, ch.(events := mask)).poll, j, other)
      ensures Agrees(Remove(p, c, ch).poll, j, other)
    {
      OthersKeepAgreeing(p, c, ch, j, other, mask);
    }
  }

  /** A handler left everything in order: it closed a connected connection, or changed nothing that
      matters. */
  ghost predicate Fine(p: Poll<nat>, c: nat, core: Core, stage: nat, e: Effect<nat>) {
    && !e.aborted && !e.troubled && OthersAgree(p, e.poll, c)
    && Consistent(e.poll) && Agrees(e.poll, c, e.core.chan)
    && e.core.chan.fd == core.chan.fd && e.poll.channels == p.channels
    && (if e.closed then stage == 1 && CoreAt(2, e.core) else CoreAt(stage, e.core))
    && e.core.timeout == core.timeout
    && (core.shut ==> e.core.shut) && (e.closed && !core.alive ==> e.core.shut)
    && (e.timer ==> !core.alive && e.core.alive && !e.closed)
    && (!e.timer ==> e.core.alive == core.alive)
    && (e.closed ==> core.alive ==> core.timeout)
  }

  predicate InOrder(p: Poll<nat>, c: nat, core: Core, stage: nat) {
    1 <= stage <= 3 && Consistent(p) && Agrees(p, c, core.chan) && CoreAt(stage, core) && (core.timeout ==> core.alive)
  }

  lemma CloseOutcome(p: Poll<nat>, c: nat, core: Core, stage: nat)
    requires 1 <= stage <= 3 && Consistent(p) && Agrees(p, c, core.chan)
    requires CoreAt(stage, core.(timeout := false))
    ensures var e := HandleClose(p, c, core); !e.aborted ==> Fine(p, c, core, stage, e)
  {
    OthersStay(p, c, core.chan, NoneEvent);
  }

  lemma WriteOutcomeFine(p: Poll<nat>, c: nat, core: Core, stage: nat, w: WriteResult)
    requires InOrder(p, c, core, stage) && !WriteRearms(core, w)
    ensures var e := HandleWrite(p, c, core, w); !e.aborted ==> Fine(p, c, core, stage, e)
  {
    CloseOutcome(p, c, core, stage);
    if w.bytes > 0 && (w.left > 0 || (core.alive && !core.timeout)) {
      var mask := if w.left > 0 then WriteEvent else ReadEvent;
      EnableCleanIff(p, c, core.chan, mask);
      OthersStay(p, c, core.chan, mask);
    }
  }

  lemma ReadOutcomeFine(p: Poll<nat>, c: nat, core: Core, stage: nat, r: ReadResult)
    requires InOrder(p, c, core, stage) && !ReadRearms(core, r)
    ensures var e := HandleRead(p, c, core, r); !e.aborted ==> Fine(p, c, core, stage, e)
  {
    if r.bytes <= 0 {
      CloseOutcome(p, c, core, stage);
    } else if !core.alive && r.keepAlive {
      WriteOutcomeFine(p, c, core.(alive := true), stage, r.write);
    } else {
      WriteOutcomeFine(p, c, core, stage, r.write);
    }
  }
}
