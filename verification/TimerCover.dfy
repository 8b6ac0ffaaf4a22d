/** Is every pending timer going to be noticed?  The timerfd is armed only by addTimer, each time
    with that timer's own delay, and nothing arms it after a drain (TimerHeap.cpp).  This module
    follows the heap, the clock, the timerfd and the queued drains over whole runs. */
module TimerCover {
  import opened Options
  import opened Timers

  /** `queued` counts the handleTimeoutEvents functors waiting in the loop. */
  datatype State = State(pending: multiset<Timer>, clock: int, fd: TimerFd, queued: nat)

  datatype Action =
    | Tick(to: int)       // time passes; the timerfd may expire
    | Add(r: Request)     // addTimerInLoop
    | Read                // the timer channel is readable: handleRead queues a drain
    | Drain               // a queued handleTimeoutEvents runs

  function Seconds(clock: int): int { clock / TICKS_PER_SECOND }

  function Expired(fd: TimerFd, clock: int): TimerFd {
    if fd.deadline.Some? && fd.deadline.value <= clock then TimerFd(None, true) else fd
  }

  /** The steps.  The clock never goes back.  A callback's own addTimer calls appear as Add steps
      after the Drain that ran the callback, which by the contract of HandleTimeoutEvents leaves the
      same timers pending. */
  ghost predicate Next(s: State, a: Action, s': State) {
    match a
    case Tick(to) => s.clock <= to && s' == s.(clock := to, fd := Expired(s.fd, to))
    case Add(r) => r.clock == s.clock && s' == s.(pending := s.pending + multiset{r.Make()}, fd := SetTimer(s.fd, r))
    case Read => s' == s.(fd := s.fd.(readable := false), queued := s.queued + 1)
    case Drain =>
      && s.queued > 0
      && s' == s.(pending := s'.pending, queued := s.queued - 1)
      && (forall t :: s'.pending[t] == if t.expire <= Seconds(s.clock) then 0 else s.pending[t])
  }

  ghost predicate Initial(s: State) {
    s.pending == multiset{} && s.fd == TimerFd(None, false) && s.queued == 0
  }

  ghost predicate Run(ss: seq<State>, acts: seq<Action>) {
    && |ss| == |acts| + 1
    && (forall i :: 0 <= i < |acts| ==> Next(ss[i], acts[i], ss[i + 1]))
  }

  predicate UniformDelay(acts: seq<Action>, d: int) {
    forall i :: 0 <= i < |acts| && acts[i].Add? ==> acts[i].r.delay == d
  }

  /** `t` will be noticed: the fd is armed for a moment at which `t` is due, or `t` is due and
      an expiry is unread or a drain is queued. */
  predicate Covered(s: State, t: Timer) {
    || (s.fd.deadline.Some? && t.expire * TICKS_PER_SECOND <= s.fd.deadline.value)
    || (t.expire <= Seconds(s.clock) && (s.fd.readable || s.queued > 0))
  }

  ghost predicate AllCovered(s: State) { forall t :: t in s.pending ==> Covered(s, t) }

  /** The invariant of runs with one delay `d`: no pending timer is further away than `d`. */
  ghost predicate Inv(s: State, d: int) {
    && AllCovered(s)
    && (forall t :: t in s.pending ==> t.expire <= Seconds(s.clock) + d)
  }

  lemma SecondsMonotone(a: int, b: int)
    requires a <= b
    ensures Seconds(a) <= Seconds(b)
  {
  }

  lemma StepKeepsInv(s: State, a: Action, s': State, d: int)
    requires Inv(s, d) && Next(s, a, s') && d > 0
    requires a.Add? ==> a.r.delay == d
    ensures Inv(s', d)
  {
    forall t | t in s'.pending
      ensures Covered(s', t) && t.expire <= Seconds(s'.clock) + d
    {
      match a
      case Tick(to) =>
        SecondsMonotone(s.clock, to);
        assert Covered(s, t);
      case Add(r) =>
        assert t in s.pending || t == r.Make();
        assert t.expire <= Seconds(s.clock) + d;
      case Read =>
        assert Covered(s, t);
      case Drain =>
        assert t in s.pending;
        assert Covered(s, t);
    }
  }

  /** With one positive delay for all timers, as the server uses, no timer is ever stranded. */
  lemma {:induction false} NoTimerStranded(ss: seq<State>, acts: seq<Action>, d: int, i: nat)
    requires Run(ss, acts) && Initial(ss[0]) && d > 0 && UniformDelay(acts, d)
    requires i < |ss|
    ensures Inv(ss[i], d)
  {
    if i > 0 {
      NoTimerStranded(ss, acts, d, i - 1);
      assert Next(ss[i - 1], acts[i - 1], ss[i]);
      StepKeepsInv(ss[i - 1], acts[i - 1], ss[i], d);
    }
  }

  /** When nothing is armed, unread or queued any more, every timer has fired. */
  lemma QuietMeansEmpty(ss: seq<State>, acts: seq<Action>, i: nat)
    requires Run(ss, acts) && Initial(ss[0]) && UniformDelay(acts, DEFAULT_TIME_DELAY)
    requires i < |ss|
    requires ss[i].fd == TimerFd(None, false) && ss[i].queued == 0
    ensures ss[i].pending == multiset{}
  {
    NoTimerStranded(ss, acts, DEFAULT_TIME_DELAY, i);
  }

  /** An add with a positive delay arms the fd: each pending timer must expire no later than the new one,
      or be due with a drain queued.  One with delay zero disarms it, so that only a drain that is queued
      helps, the new timer too.  One with a negative delay leaves the fd alone. */
  ghost predicate Harmless(s: State, r: Request) {
    if r.delay > 0 then
      forall t :: t in s.pending ==> t.expire <= r.Make().expire || (t.expire <= Seconds(s.clock) && s.queued > 0)
    else if r.delay == 0 then
      s.queued > 0 && forall t :: t in s.pending ==> t.expire <= Seconds(s.clock)
    else
      Covered(s, r.Make())
  }

  /** With mixed delays an add keeps every timer covered exactly when each pending timer is due with
      a drain already queued, or expires no later than the new one; the new deadline then serves it. */
  lemma AddKeepsCoverIff(s: State, r: Request, s': State)
    requires Next(s, Add(r), s') && (r.delay < 0 ==> AllCovered(s))
    ensures AllCovered(s') <==> Harmless(s, r)
  {
    forall t: Timer
      ensures t.expire * TICKS_PER_SECOND <= r.Deadline() <==> t.expire <= r.Make().expire
    {
    }
    assert forall t :: t in s'.pending <==> t in s.pending || t == r.Make();
  }

  /** Time, reading the fd and draining never uncover a timer. */
  lemma OtherStepsKeepCover(s: State, a: Action, s': State)
    requires AllCovered(s) && Next(s, a, s') && !a.Add?
    ensures AllCovered(s')
  {
    forall t | t in s'.pending
      ensures Covered(s', t)
    {
      assert a.Drain? ==> s'.pending[t] <= s.pending[t];
      assert t in s.pending && Covered(s, t);
      if a.Tick? {
        SecondsMonotone(s.clock, a.to);
      }
    }
  }

  /** All timers have been covered in the first `n` states exactly when the adds before were harmless. */
  lemma {:induction false} PrefixCoveredIff(ss: seq<State>, acts: seq<Action>, n: nat)
    requires Run(ss, acts) && Initial(ss[0])
    requires n < |ss|
    ensures (forall i :: 0 <= i <= n ==> AllCovered(ss[i]))
       <==> (forall i :: 0 <= i < n && acts[i].Add? ==> Harmless(ss[i], acts[i].r))
  {
    if n > 0 {
      PrefixCoveredIff(ss, acts, n - 1);
      assert Next(ss[n - 1], acts[n - 1], ss[n]);
      if acts[n - 1].Add? && AllCovered(ss[n - 1]) {
        AddKeepsCoverIff(ss[n - 1], acts[n - 1].r, ss[n]);
      } else if AllCovered(ss[n - 1]) {
        OtherStepsKeepCover(ss[n - 1], acts[n - 1], ss[n]);
      }
    }
  }

  /** Over whole runs with any delays: no timer is ever stranded if and only if every add is harmless
      when it is made. */
  lemma NeverStrandedIff(ss: seq<State>, acts: seq<Action>)
    requires Run(ss, acts) && Initial(ss[0])
    ensures (forall i :: 0 <= i < |ss| ==> AllCovered(ss[i]))
       <==> (forall i :: 0 <= i < |acts| && acts[i].Add? ==> Harmless(ss[i], acts[i].r))
  {
    PrefixCoveredIff(ss, acts, |acts|);
  }

  const TEN := Timer(10, 0)
  const ONE := Timer(1, 1)

  lemma StrandingAdds(s0: State, s1: State, s2: State)
    requires s0 == State(multiset{}, 0, TimerFd(None, false), 0)
    requires s1 == s0.(pending := multiset{TEN}, fd := TimerFd(Some(10 * TICKS_PER_SECOND), false))
    requires s2 == s1.(pending := multiset{TEN} + multiset{ONE}, fd := TimerFd(Some(TICKS_PER_SECOND), false))
    ensures Next(s0, Add(Request(0, 10, 0)), s1) && Next(s1, Add(Request(0, 1, 1)), s2)
  {
    assert Request(0, 10, 0).Make() == TEN && Request(0, 1, 1).Make() == ONE;
    assert s0.pending + multiset{TEN} == multiset{TEN};
  }

  lemma StrandingDrain(s: State, s': State)
    requires s.pending == multiset{TEN} + multiset{ONE} && s.clock == TICKS_PER_SECOND && s.queued == 1
    requires s' == s.(pending := multiset{TEN}, queued := 0)
    ensures Next(s, Drain, s')
  {
    assert Seconds(s.clock) == 1;
    forall t: Timer
      ensures s'.pending[t] == if t.expire <= 1 then 0 else s.pending[t]
    {
      assert s.pending[t] == (if t == TEN then 1 else 0) + if t == ONE then 1 else 0;
      assert s'.pending[t] == if t == TEN then 1 else 0;
    }
  }

  /** An instance of the failing case: a timer of ten seconds, then one of one second; once the
      short one has fired, the long one is pending with nothing armed, unread or queued. */
  lemma MixedDelaysStrand() returns (ss: seq<State>, acts: seq<Action>)
    ensures Run(ss, acts) && Initial(ss[0])
    ensures
      var last := ss[|ss| - 1];
      last.pending == multiset{TEN} && last.fd == TimerFd(None, false) && last.queued == 0
  {
    var s0 := State(multiset{}, 0, TimerFd(None, false), 0);
    var s1 := s0.(pending := multiset{TEN}, fd := TimerFd(Some(10 * TICKS_PER_SECOND), false));
    var s2 := s1.(pending := multiset{TEN} + multiset{ONE}, fd := TimerFd(Some(TICKS_PER_SECOND), false));
    var s3 := s2.(clock := TICKS_PER_SECOND, fd := TimerFd(None, true));
    var s4 := s3.(fd := TimerFd(None, false), queued := 1);
    var s5 := s4.(pending := multiset{TEN}, queued := 0);
    StrandingAdds(s0, s1, s2);
    assert Next(s2, Tick(TICKS_PER_SECOND), s3);
    assert Next(s3, Read, s4);
    StrandingDrain(s4, s5);
    acts := [Add(Request(0, 10, 0)), Add(Request(0, 1, 1)), Tick(TICKS_PER_SECOND), Read, Drain];
    ss := [s0, s1, s2, s3, s4, s5];
  }
}
