/** Progress of the functor hand-off: from every reachable state a loop can run all that is queued on
    it, by steps of its own. */
module LoopProgress {
  import opened Options
  import opened EventLoops

  /** Only loop `l` acts. */
  predicate OwnSteps<F>(acts: seq<Action<F>>, l: nat) {
    forall i :: 0 <= i < |acts| ==> Actor(acts[i]) == l && !acts[i].Push?
  }

  lemma {:induction false} RunAppend<F>(s: seq<Loop<F>>, a: seq<Action<F>>, b: seq<Action<F>>)
    requires IsRun(s, a) && IsRun(After(s, a), b)
    ensures IsRun(s, a + b) && After(s, a + b) == After(After(s, a), b)
    decreases |a|
  {
    if a == [] {
      assert a + b == b;
    } else {
      RunAppend(Apply(s, a[0]), a[1..], b);
      TailOfAppend(a, b);
    }
  }

  lemma TailOfAppend<F>(a: seq<Action<F>>, b: seq<Action<F>>)
    requires a != []
    ensures (a + b)[0] == a[0] && (a + b)[1..] == a[1..] + b
  {
  }

  lemma RunOne<F>(s: seq<Loop<F>>, a: Action<F>)
    requires Enabled(s, a)
    ensures IsRun(s, [a]) && After(s, [a]) == Apply(s, a)
  {
    assert [a][1..] == [];
    assert IsRun(Apply(s, a), []) && After(Apply(s, a), []) == Apply(s, a);
  }

  /** What the own steps of a loop leave of its history: nothing is queued, and whatever was run stays
      run. */
  ghost predicate Moves<F>(s: seq<Loop<F>>, r: seq<Loop<F>>, l: nat)
    requires l < |s|
  {
    && Inv(r) && |r| == |s| && r[l].queued == s[l].queued && |s[l].executed| <= |r[l].executed|
    && r[l].executed[..|s[l].executed|] == s[l].executed
  }

  lemma OneMove<F>(s: seq<Loop<F>>, a: Action<F>)
    requires Inv(s) && Enabled(s, a) && !a.Push?
    ensures Moves(s, Apply(s, a), Actor(a))
  {
    StepKeepsInv(s, a);
  }

  lemma MovesTwice<F>(s: seq<Loop<F>>, r: seq<Loop<F>>, q: seq<Loop<F>>, l: nat)
    requires l < |s| && Moves(s, r, l) && Moves(r, q, l)
    ensures Moves(s, q, l)
  {
    assert q[l].executed[..|s[l].executed|] == q[l].executed[..|r[l].executed|][..|s[l].executed|];
  }

  /** Puts two continuations one after the other. */
  lemma Chain<F>(s: seq<Loop<F>>, l: nat, a: seq<Action<F>>, b: seq<Action<F>>)
    requires l < |s| && IsRun(s, a) && OwnSteps(a, l) && Moves(s, After(s, a), l)
    requires IsRun(After(s, a), b) && OwnSteps(b, l) && Moves(After(s, a), After(After(s, a), b), l)
    ensures IsRun(s, a + b) && OwnSteps(a + b, l) && Moves(s, After(s, a + b), l)
    ensures After(s, a + b) == After(After(s, a), b)
  {
    RunAppend(s, a, b);
    MovesTwice(s, After(s, a), After(After(s, a), b), l);
  }

  /** The wakeup a loop still owes, if any, can be sent. */
  lemma PayDebt<F>(s: seq<Loop<F>>, l: nat) returns (acts: seq<Action<F>>)
    requires Inv(s) && l < |s|
    ensures IsRun(s, acts) && OwnSteps(acts, l) && Moves(s, After(s, acts), l)
    ensures
      var p, q := s[l], After(s, acts)[l];
      && q.owes == None && q.phase == p.phase && q.pending == p.pending
      && q.batch == p.batch && q.next == p.next && q.executed == p.executed && q.wakeActive == p.wakeActive
  {
    if s[l].owes == None {
      acts := [];
      assert s[l].executed[..|s[l].executed|] == s[l].executed;
    } else {
      acts := [Wake(l)];
      RunOne(s, Wake(l));
      OneMove(s, Wake(l));
    }
  }

  /** A batch can be run to its end, and the loop polls again. */
  lemma {:induction false} FinishBatch<F>(s: seq<Loop<F>>, l: nat) returns (acts: seq<Action<F>>)
    requires Inv(s) && l < |s| && s[l].phase == Running && s[l].owes == None
    ensures IsRun(s, acts) && OwnSteps(acts, l) && Moves(s, After(s, acts), l)
    ensures
      var p, q := s[l], After(s, acts)[l];
      && q.phase == Polling && q.pending == p.pending && p.next <= |p.batch|
      && q.executed == p.executed + p.batch[p.next..]
    decreases |s[l].batch| - s[l].next
  {
    if s[l].next >= |s[l].batch| {
      BatchIsDone(s, l);
      acts := [EndBatch(l)];
    } else {
      OwnStep(s, Begin(l));
      BeginMoves(s, l);
      var rest := FinishBatch(Apply(s, Begin(l)), l);
      Chain(s, l, [Begin(l)], rest);
      acts := [Begin(l)] + rest;
      RestOfBatch(s[l].executed, s[l].batch, s[l].next);
    }
  }

  lemma OwnStep<F>(s: seq<Loop<F>>, a: Action<F>)
    requires Inv(s) && Enabled(s, a) && !a.Push?
    ensures IsRun(s, [a]) && OwnSteps([a], Actor(a)) && After(s, [a]) == Apply(s, a)
    ensures Moves(s, After(s, [a]), Actor(a)) && Inv(Apply(s, a))
  {
    OneMove(s, a);
    RunOne(s, a);
  }

  lemma BatchIsDone<F>(s: seq<Loop<F>>, l: nat)
    requires Inv(s) && l < |s| && s[l].phase == Running && s[l].owes == None && s[l].next >= |s[l].batch|
    ensures Enabled(s, EndBatch(l)) && IsRun(s, [EndBatch(l)]) && OwnSteps<F>([EndBatch(l)], l)
    ensures Moves(s, After(s, [EndBatch(l)]), l)
    ensures
      var p, q := s[l], After(s, [EndBatch(l)])[l];
      && q.phase == Polling && q.pending == p.pending && p.next <= |p.batch|
      && q.executed == p.executed + p.batch[p.next..]
  {
    assert Fifo(s[l]);
    OwnStep(s, EndBatch(l));
    assert s[l].batch[s[l].next..] == [];
  }

  lemma BeginMoves<F>(s: seq<Loop<F>>, l: nat)
    requires Enabled(s, Begin(l))
    ensures
      var p, q := s[l], Apply(s, Begin(l))[l];
      q == p.(next := p.next + 1, executed := p.executed + [p.batch[p.next]])
  {
  }

  lemma RestOfBatch<F>(executed: seq<F>, batch: seq<F>, n: nat)
    requires n < |batch|
    ensures (executed + [batch[n]]) + batch[n + 1..] == executed + batch[n..]
  {
  }

  /** A loop that handles events can take its queue. */
  lemma TakeQueue<F>(s: seq<Loop<F>>, l: nat) returns (acts: seq<Action<F>>)
    requires Inv(s) && l < |s| && s[l].phase == Handling && s[l].owes == None
    ensures IsRun(s, acts) && OwnSteps(acts, l) && Moves(s, After(s, acts), l)
    ensures
      var p, q := s[l], After(s, acts)[l];
      && q.phase == Running && q.owes == None && q.next == 0 && q.batch == p.pending && q.pending == []
      && q.executed == p.executed
  {
    if s[l].wakeActive {
      var r := Apply(s, ReadWakeup(l));
      acts := [ReadWakeup(l)] + [Swap(l)];
      OneMove(s, ReadWakeup(l));
      RunOne(s, ReadWakeup(l));
      OneMove(r, Swap(l));
      RunOne(r, Swap(l));
      RunAppend(s, [ReadWakeup(l)], [Swap(l)]);
      MovesTwice(s, r, Apply(r, Swap(l)), l);
    } else {
      acts := [Swap(l)];
      OneMove(s, Swap(l));
      RunOne(s, Swap(l));
    }
  }

  /** From handling on, all that is queued can be run. */
  lemma RunQueue<F>(s: seq<Loop<F>>, l: nat) returns (acts: seq<Action<F>>)
    requires Inv(s) && l < |s| && s[l].phase == Handling
    ensures IsRun(s, acts) && OwnSteps(acts, l) && After(s, acts)[l].executed == s[l].queued
  {
    var a := PayDebt(s, l);
    var s1 := After(s, a);
    var b := TakeQueue(s1, l);
    var s2 := After(s1, b);
    var c := FinishBatch(s2, l);
    Chain(s, l, a, b);
    Chain(s, l, a + b, c);
    acts := a + b + c;
    assert Fifo(s[l]) && Todo(s[l]) == s[l].pending by { assert s[l].batch == []; }
    assert s2[l].batch[0..] == s[l].pending;
  }

  /** From polling on: poll returns at the latest with its timeout. */
  lemma PollAndRun<F>(s: seq<Loop<F>>, l: nat) returns (acts: seq<Action<F>>)
    requires Inv(s) && l < |s| && s[l].phase == Polling
    ensures IsRun(s, acts) && OwnSteps(acts, l) && After(s, acts)[l].executed == s[l].queued
  {
    var a := PollReturn(l, false);
    OneMove(s, a);
    RunOne(s, a);
    var rest := RunQueue(Apply(s, a), l);
    RunAppend(s, [a], rest);
    acts := [a] + rest;
  }

  /** In every reachable state, whatever phase the loop is in, some continuation by its own steps alone
      executes every functor queued on it. */
  lemma QueuedFunctorsCanRun<F>(s0: seq<Loop<F>>, past: seq<Action<F>>, l: nat) returns (acts: seq<Action<F>>)
    requires Initial(s0) && IsRun(s0, past) && l < |s0|
    ensures
      var s := After(s0, past);
      IsRun(s, acts) && OwnSteps(acts, l) && After(s, acts)[l].executed == s[l].queued
  {
    InitialInv(s0);
    RunKeepsInv(s0, past);
    var s := After(s0, past);
    match s[l].phase
    case Handling => acts := RunQueue(s, l);
    case Polling => acts := PollAndRun(s, l);
    case Running =>
      var a := PayDebt(s, l);
      var b := FinishBatch(After(s, a), l);
      Chain(s, l, a, b);
      var c := PollAndRun(After(s, a + b), l);
      RunAppend(s, a + b, c);
      acts := a + b + c;
  }

  // ------------------------------------------------------------ the eventfd

  /** The eventfd is not zero exactly while a wakeup is unreported or being handled. */
  predicate CounterOk<F>(p: Loop<F>) {
    && (p.counter > 0 <==> p.edge || p.wakeActive)
    && (p.wakeActive ==> p.phase == Handling)
  }

  lemma CounterStep<F>(s: seq<Loop<F>>, a: Action<F>, l: nat)
    requires l < |s| && Enabled(s, a) && CounterOk(s[l])
    ensures CounterOk(Apply(s, a)[l])
  {
  }

  lemma {:induction false} RunKeepsCounter<F>(s: seq<Loop<F>>, acts: seq<Action<F>>, l: nat)
    requires l < |s| && CounterOk(s[l]) && IsRun(s, acts)
    ensures CounterOk(After(s, acts)[l])
    decreases |acts|
  {
    if acts != [] {
      CounterStep(s, acts[0], l);
      RunKeepsCounter(Apply(s, acts[0]), acts[1..], l);
    }
  }

  /** No wakeup is forgotten and none is made up: in every reachable state the eventfd counts something
      exactly while epoll has yet to report it or the loop has yet to read it. */
  lemma WakeupsAreAccountedFor<F>(s0: seq<Loop<F>>, past: seq<Action<F>>, l: nat)
    requires Initial(s0) && IsRun(s0, past) && l < |s0|
    ensures var p := After(s0, past)[l]; p.counter > 0 <==> p.edge || p.wakeActive
  {
    RunKeepsCounter(s0, past, l);
  }
}
