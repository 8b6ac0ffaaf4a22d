/** The timer min-heap of an event loop and its timerfd (Timer.h, TimerHeap.h, TimerHeap.cpp). */
module Timers {
  import opened Options

  const DEFAULT_TIME_DELAY: int := 300
  const TICKS_PER_SECOND: int := 1_000_000_000

  /** `expire` is absolute and in seconds; `id` stands for the callback. */
  datatype Timer = Timer(expire: int, id: nat)

  predicate Less(a: Timer, b: Timer) { a.expire < b.expire }

  // ------------------------------------------------------------- heap order

  function Parent(i: nat): nat
    requires i > 0
  {
    (i - 1) / 2
  }

  predicate HeapOrder(h: seq<Timer>) {
    forall i :: 0 < i < |h| ==> h[Parent(i)].expire <= h[i].expire
  }

  /** A heap that may be too small at `x`: what percolateUp repairs. */
  predicate HeapButUp(h: seq<Timer>, x: nat) {
    && (forall i :: 0 < i < |h| && i != x ==> h[Parent(i)].expire <= h[i].expire)
    && (forall i :: 0 < i < |h| && Parent(i) == x && x > 0 ==> h[Parent(x)].expire <= h[i].expire)
  }

  /** A heap that may be too large at `x`: what percolateDown repairs. */
  predicate HeapButDown(h: seq<Timer>, x: nat) {
    && (forall i :: 0 < i < |h| && Parent(i) != x ==> h[Parent(i)].expire <= h[i].expire)
    && (forall i :: 0 < i < |h| && Parent(i) == x && x > 0 ==> h[Parent(x)].expire <= h[i].expire)
  }

  function Swapped(h: seq<Timer>, i: nat, j: nat): seq<Timer>
    requires i < |h| && j < |h|
  {
    h[i := h[j]][j := h[i]]
  }

  lemma SwappedPermutes(h: seq<Timer>, i: nat, j: nat)
    requires i < |h| && j < |h|
    ensures multiset(Swapped(h, i, j)) == multiset(h)
  {
  }

  /** The root of a heap is a minimum. */
  lemma {:induction false} RootIsLeast(h: seq<Timer>, i: nat)
    requires HeapOrder(h) && i < |h|
    ensures h[0].expire <= h[i].expire
    decreases i
  {
    if i > 0 {
      RootIsLeast(h, Parent(i));
    }
  }

  lemma RootIsLeastOf(h: seq<Timer>, t: Timer)
    requires HeapOrder(h) && t in multiset(h)
    ensures h[0].expire <= t.expire
  {
    var i :| 0 <= i < |h| && h[i] == t;
    RootIsLeast(h, i);
  }

  // ------------------------------------------------------- due and not due

  function DuePart(h: seq<Timer>, now: int): (m: multiset<Timer>)
    ensures forall t :: m[t] == if t.expire <= now then multiset(h)[t] else 0
  {
    if h == [] then multiset{}
    else
      assert h == h[..|h| - 1] + [h[|h| - 1]];
      DuePart(h[..|h| - 1], now) + if h[|h| - 1].expire <= now then multiset{h[|h| - 1]} else multiset{}
  }

  function TimersOf(rs: seq<Request>): seq<Timer> {
    seq(|rs|, i requires 0 <= i < |rs| => rs[i].Make())
  }

  predicate SortedByExpiry(s: seq<Timer>) {
    forall i, j :: 0 <= i < j < |s| ==> s[i].expire <= s[j].expire
  }

  // ---------------------------------------------------------------- timerfd

  /** A call of addTimer: the clock it reads (in ticks) and the delay it asks for (in seconds). */
  datatype Request = Request(clock: int, delay: int, id: nat) {
    function Make(): Timer { Timer(clock / TICKS_PER_SECOND + delay, id) }
    function Deadline(): int { clock + delay * TICKS_PER_SECOND }
  }

  /** Seconds are cut off when the expiry is computed: the fd's deadline is never before the expiry, and
      less than a second after it. */
  lemma DeadlineMeetsExpiry(r: Request)
    ensures r.Make().expire * TICKS_PER_SECOND <= r.Deadline() < (r.Make().expire + 1) * TICKS_PER_SECOND
    ensures r.Deadline() - r.clock == r.delay * TICKS_PER_SECOND && r.Make().id == r.id
  {
  }

  /** The kernel's timerfd: when it will expire, and whether an expiry is unread. */
  datatype TimerFd = TimerFd(deadline: Option<int>, readable: bool)

  /** timerfd_settime replaces the deadline and clears an unread expiry; it disarms for 0, and fails
      without effect for a negative delay. */
  function SetTimer(fd: TimerFd, r: Request): TimerFd {
    if r.delay < 0 then fd
    else TimerFd(if r.delay == 0 then None else Some(r.Deadline()), false)
  }

  function SetTimers(fd: TimerFd, rs: seq<Request>): TimerFd {
    if rs == [] then fd else SetTimer(SetTimers(fd, rs[..|rs| - 1]), rs[|rs| - 1])
  }

  // ------------------------------------------------------------------ class

  class TimerHeap {
    var heap: seq<Timer>
    var fd: TimerFd
    var drainsQueued: nat   // handleTimeoutEvents functors queued and not yet run

    ghost predicate Valid()
      reads this
    {
      HeapOrder(heap)
    }

    constructor ()
      ensures Valid() && heap == [] && fd == TimerFd(None, false) && drainsQueued == 0
    {
      heap := [];
      fd := TimerFd(None, false);
      drainsQueued := 0;
    }

    method PercolateDown(index: nat)
      requires HeapButDown(heap, index)
      modifies this`heap
      ensures HeapOrder(heap)
      ensures multiset(heap) == multiset(old(heap))
      decreases |heap| - index
    {
      var size := |heap|;
      if index >= size { return; }
      var left := 2 * index + 1;
      var right := left + 1;
      var next := index;
      if left < size && Less(heap[left], heap[next]) {
        next := left;
      }
      if right < size && Less(heap[right], heap[next]) {
        next := right;
      }
      if next != index {
        SwappedPermutes(heap, index, next);
        SwapDownKeepsShape(heap, index, next);
        heap := Swapped(heap, index, next);
        PercolateDown(next);
      } else {
        NoSmallerChild(heap, index);
      }
    }

    method PercolateUp(index: nat)
      requires index < |heap| && HeapButUp(heap, index)
      modifies this`heap
      ensures HeapOrder(heap)
      ensures multiset(heap) == multiset(old(heap)) && |heap| == |old(heap)|
      ensures heap[0] == old(heap[0]) || (heap[0] == old(heap[index]) && Less(heap[0], old(heap[0])))
      decreases index
    {
      if index == 0 { return; }
      var parent := (index - 1) / 2;
      if Less(heap[index], heap[parent]) {
        SwappedPermutes(heap, index, parent);
        SwapUpKeepsShape(heap, index);
        heap := Swapped(heap, index, parent);
        PercolateUp(parent);
      }
    }

    /** Adds exactly one timer, keeps the order, re-arms the fd with its own delay, and displaces
        the root exactly when the new timer is strictly earlier. */
    method AddTimerInLoop(r: Request)
      requires Valid()
      modifies this`heap, this`fd
      ensures Valid()
      ensures multiset(heap) == multiset(old(heap)) + multiset{r.Make()}
      ensures heap[0] == if old(heap) == [] || Less(r.Make(), old(heap)[0]) then r.Make() else old(heap)[0]
      ensures fd == SetTimer(old(fd), r)
    {
      var timer := r.Make();
      fd := SetTimer(fd, r);
      heap := heap + [timer];
      PercolateUp(|heap| - 1);
      if old(heap) != [] && Less(timer, old(heap)[0]) {
        RootIsLeastOf(heap, timer);
      }
    }

    /** Removes exactly the root. */
    method Pop()
      requires Valid() && heap != []
      modifies this`heap
      ensures Valid()
      ensures multiset(heap) == multiset(old(heap)) - multiset{old(heap)[0]}
    {
      var last := |heap| - 1;
      ghost var before := heap;
      SwappedPermutes(heap, 0, last);
      heap := Swapped(heap, 0, last);
      assert heap == heap[..last] + [before[0]];
      heap := heap[..last];
      LastToRootKeepsShape(before);
      PercolateDown(0);
    }

    /** handleRead: the unread expiry is consumed and one drain is queued. */
    method HandleRead()
      modifies this`fd, this`drainsQueued
      ensures fd == old(fd).(readable := false)
      ensures drainsQueued == old(drainsQueued) + 1
    {
      fd := fd.(readable := false);
      drainsQueued := drainsQueued + 1;
    }

    /** Runs the re-entrant addTimer calls one callback makes.  The firing root stays the root exactly
        when none of the new timers is strictly earlier. */
    method RunCallback(rs: seq<Request>)
      requires Valid() && heap != []
      modifies this`heap, this`fd
      ensures Valid() && heap != []
      ensures heap[0] == old(heap[0]) <==> NoneEarlier(rs, old(heap[0]))
      ensures multiset(heap) == multiset(old(heap)) + multiset(TimersOf(rs))
      ensures fd == SetTimers(old(fd), rs)
    {
      ghost var root := heap[0];
      for k := 0 to |rs|
        invariant Valid() && heap != []
        invariant if NoneEarlier(rs[..k], root) then heap[0] == root else Less(heap[0], root)
        invariant multiset(heap) == multiset(old(heap)) + multiset(TimersOf(rs[..k]))
        invariant fd == SetTimers(old(fd), rs[..k])
      {
        assert rs[..k + 1] == rs[..k] + [rs[k]];
        TimersOfAppend(rs[..k], [rs[k]]);
        assert TimersOf([rs[k]]) == [rs[k].Make()];
        NoneEarlierSnoc(rs[..k], rs[k], root);
        AddTimerInLoop(rs[k]);
      }
      assert rs[..|rs|] == rs;
    }

    /** One turn of the drain loop: the root's callback runs, then the root is popped.  The popped
        timer is the one that fired exactly when its callback added no strictly earlier one. */
    method FireRoot(rs: seq<Request>) returns (popped: Timer)
      requires Valid() && heap != []
      modifies this`heap, this`fd
      ensures Valid()
      ensures popped == old(heap)[0] <==> NoneEarlier(rs, old(heap)[0])
      ensures multiset(heap) == multiset(old(heap)) + multiset(TimersOf(rs)) - multiset{popped}
      ensures fd == SetTimers(old(fd), rs)
    {
      RunCallback(rs);
      popped := heap[0];
      Pop();
    }

    /** The functor handleTimeoutEvents, run at second `now`; `callbacks(k)` are the addTimer calls
        the k-th fired callback makes. */
    method HandleTimeoutEvents(now: int, callbacks: nat -> seq<Request>)
      returns (fired: seq<Timer>, added: seq<Request>)
      requires Valid()
      requires forall k: nat :: Later(callbacks(k), now)
      modifies this`heap, this`fd, this`drainsQueued
      ensures Valid()
      ensures drainsQueued == if old(drainsQueued) > 0 then old(drainsQueued) - 1 else 0
      ensures added == Calls(callbacks, |fired|)
      ensures multiset(fired) == DuePart(old(heap), now)
      ensures SortedByExpiry(fired)
      ensures multiset(heap) == multiset(old(heap)) - multiset(fired) + multiset(TimersOf(added))
      ensures forall t :: t in multiset(heap) ==> t.expire > now
      ensures fd == SetTimers(old(fd), added)
    {
      drainsQueued := if drainsQueued > 0 then drainsQueued - 1 else 0;
      fired, added := DrainHeap(now, callbacks);
    }

    /** Its loop.  Exactly the timers due at `now` fire, once each and in order of expiry; the
        later ones and the new ones stay. */
    method DrainHeap(now: int, callbacks: nat -> seq<Request>)
      returns (fired: seq<Timer>, added: seq<Request>)
      requires Valid()
      requires forall k: nat :: Later(callbacks(k), now)
      modifies this`heap, this`fd
      ensures Valid()
      ensures added == Calls(callbacks, |fired|)
      ensures multiset(fired) == DuePart(old(heap), now)
      ensures SortedByExpiry(fired)
      ensures multiset(heap) == multiset(old(heap)) - multiset(fired) + multiset(TimersOf(added))
      ensures forall t :: t in multiset(heap) ==> t.expire > now
      ensures fd == SetTimers(old(fd), added)
    {
      fired, added := [], [];
      while heap != []
        invariant Valid()
        invariant Draining(multiset(old(heap)), multiset(heap), fired, multiset(TimersOf(added)), now)
        invariant fd == SetTimers(old(fd), added)
        invariant added == Calls(callbacks, |fired|)
        decreases |DuePart(heap, now)|
      {
        if heap[0].expire > now { break; }
        var root, before := heap[0], heap;
        var rs := callbacks(|fired|);
        RootsBound(heap);
        LaterIsNotEarlier(rs, root, now);
        var popped := FireRoot(rs);
        LaterTimers(rs, now);
        ghost var b := multiset(TimersOf(rs));
        DueShrinks(before, heap, b, root, now);
        TimersOfAppend(added, rs);
        DrainStep(multiset(old(heap)), multiset(before), multiset(heap), fired,
                  multiset(TimersOf(added)), b, root, now);
        SetTimersAppend(old(fd), added, rs);
        fired, added := fired + [root], added + rs;
      }
      RootsBound(heap);
      EndBalance(multiset(old(heap)), multiset(heap), multiset(fired), multiset(TimersOf(added)),
                 DuePart(old(heap), now), now);
    }
  }

  /** The addTimer calls of the first `n` callbacks, in the order of the callbacks. */
  function Calls(callbacks: nat -> seq<Request>, n: nat): seq<Request> {
    if n == 0 then [] else Calls(callbacks, n - 1) + callbacks(n - 1)
  }

  /** The new timers are not due in this drain. */
  predicate Later(rs: seq<Request>, now: int) {
    forall i :: 0 <= i < |rs| ==> rs[i].Make().expire > now
  }

  /** As the server's callbacks do: a positive delay, by a clock that has not gone back. */
  lemma PositiveDelaysAreLater(rs: seq<Request>, now: int)
    requires forall i :: 0 <= i < |rs| ==> rs[i].delay > 0 && rs[i].clock >= now * TICKS_PER_SECOND
    ensures Later(rs, now)
  {
  }

  predicate NoneEarlier(rs: seq<Request>, root: Timer) {
    forall i :: 0 <= i < |rs| ==> !Less(rs[i].Make(), root)
  }

  lemma NoneEarlierSnoc(rs: seq<Request>, r: Request, root: Timer)
    ensures NoneEarlier(rs + [r], root) <==> NoneEarlier(rs, root) && !Less(r.Make(), root)
  {
    var s := rs + [r];
    assert s[|rs|] == r && forall i :: 0 <= i < |rs| ==> s[i] == rs[i];
  }

  lemma LaterIsNotEarlier(rs: seq<Request>, root: Timer, now: int)
    requires Later(rs, now) && root.expire <= now
    ensures NoneEarlier(rs, root)
  {
  }

  /** Where a drain at `now` stands: what fired is sorted, due, and no later than anything left;
      nothing is lost; everything added is later than `now`. */
  ghost predicate Draining(h0: multiset<Timer>, h: multiset<Timer>, fired: seq<Timer>, a: multiset<Timer>, now: int) {
    && h + multiset(fired) == h0 + a
    && SortedByExpiry(fired)
    && (forall i :: 0 <= i < |fired| ==> fired[i].expire <= now)
    && (forall i, t :: 0 <= i < |fired| && t in h ==> fired[i].expire <= t.expire)
    && (forall t :: t in a ==> t.expire > now)
  }

  lemma LaterTimers(rs: seq<Request>, now: int)
    requires Later(rs, now)
    ensures forall t :: t in multiset(TimersOf(rs)) ==> t.expire > now
  {
    forall t | t in multiset(TimersOf(rs)) ensures t.expire > now {
      var i :| 0 <= i < |TimersOf(rs)| && TimersOf(rs)[i] == t;
    }
  }

  lemma DrainStep(h0: multiset<Timer>, h: multiset<Timer>, g: multiset<Timer>, fired: seq<Timer>,
                  a: multiset<Timer>, b: multiset<Timer>, root: Timer, now: int)
    requires Draining(h0, h, fired, a, now)
    requires root in h && root.expire <= now && g == h + b - multiset{root}
    requires forall t :: t in h ==> root.expire <= t.expire
    requires forall t :: t in b ==> t.expire > now
    ensures Draining(h0, g, fired + [root], a + b, now)
  {
    StepBalance(h0, h, g, multiset(fired), a, b, root);
    DrainOrder(h, g, b, fired, root, now);
  }

  lemma TimersOfAppend(a: seq<Request>, b: seq<Request>)
    ensures TimersOf(a + b) == TimersOf(a) + TimersOf(b)
    ensures multiset(TimersOf(a + b)) == multiset(TimersOf(a)) + multiset(TimersOf(b))
  {
    assert TimersOf(a + b) == TimersOf(a) + TimersOf(b);
  }

  lemma DrainOrder(h: multiset<Timer>, g: multiset<Timer>, b: multiset<Timer>, fired: seq<Timer>, root: Timer, now: int)
    requires root in h && root.expire <= now && g == h + b - multiset{root}
    requires forall t :: t in h ==> root.expire <= t.expire
    requires forall t :: t in b ==> t.expire > now
    requires SortedByExpiry(fired)
    requires forall i :: 0 <= i < |fired| ==> fired[i].expire <= now
    requires forall i, t :: 0 <= i < |fired| && t in h ==> fired[i].expire <= t.expire
    ensures SortedByExpiry(fired + [root])
    ensures forall i :: 0 <= i < |fired + [root]| ==> (fired + [root])[i].expire <= now
    ensures forall i, t :: 0 <= i < |fired + [root]| && t in g ==> (fired + [root])[i].expire <= t.expire
  {
    forall t | t in g
      ensures t in h || t in b
    {
      assert g[t] <= h[t] + b[t];
    }
  }

  lemma StepBalance(h0: multiset<Timer>, h: multiset<Timer>, g: multiset<Timer>, f: multiset<Timer>,
                    a: multiset<Timer>, b: multiset<Timer>, root: Timer)
    requires h + f == h0 + a && root in h && g == h + b - multiset{root}
    ensures g + (f + multiset{root}) == h0 + (a + b)
  {
    assert g + (f + multiset{root}) == (h + f) + b;
    assert (h0 + a) + b == h0 + (a + b);
  }

  lemma DueShrinks(h: seq<Timer>, g: seq<Timer>, b: multiset<Timer>, root: Timer, now: int)
    requires root in multiset(h) && root.expire <= now
    requires forall t :: t in b ==> t.expire > now
    requires multiset(g) == multiset(h) + b - multiset{root}
    ensures |DuePart(g, now)| < |DuePart(h, now)|
  {
    forall t: Timer
      ensures DuePart(g, now)[t] == (DuePart(h, now) - multiset{root})[t]
    {
      assert multiset(g)[t] == (multiset(h) + b - multiset{root})[t];
    }
    Smaller(DuePart(g, now), DuePart(h, now), root);
  }

  lemma Smaller(x: multiset<Timer>, y: multiset<Timer>, root: Timer)
    requires root in y && forall t: Timer :: x[t] == (y - multiset{root})[t]
    ensures |x| < |y|
  {
    assert y == x + multiset{root};
  }

  lemma EndBalance(h0: multiset<Timer>, h: multiset<Timer>, f: multiset<Timer>, a: multiset<Timer>,
                   due: multiset<Timer>, now: int)
    requires h + f == h0 + a
    requires forall t :: due[t] == if t.expire <= now then h0[t] else 0
    requires forall t :: t in h ==> t.expire > now
    requires forall t :: t in a ==> t.expire > now
    requires forall t :: t in f ==> t.expire <= now
    ensures f == due && h == h0 - f + a
  {
    forall t: Timer
      ensures f[t] == due[t]
    {
      assert h[t] + f[t] == h0[t] + a[t] by { assert (h + f)[t] == (h0 + a)[t]; }
      assert t.expire <= now ==> h[t] == 0 && a[t] == 0;
      assert t.expire > now ==> f[t] == 0;
    }
    assert f == due;
    forall t: Timer
      ensures h[t] == (h0 - f + a)[t]
    {
      assert h[t] + f[t] == h0[t] + a[t] by { assert (h + f)[t] == (h0 + a)[t]; }
    }
  }

  lemma RootsBound(h: seq<Timer>)
    requires HeapOrder(h)
    ensures forall t :: t in multiset(h) ==> h[0].expire <= t.expire
  {
    forall t | t in multiset(h) ensures h[0].expire <= t.expire {
      RootIsLeastOf(h, t);
    }
  }

  lemma {:induction false} SetTimersAppend(fd: TimerFd, a: seq<Request>, b: seq<Request>)
    ensures SetTimers(SetTimers(fd, a), b) == SetTimers(fd, a + b)
    decreases |b|
  {
    if b == [] {
      assert a + b == a;
    } else {
      var k := |b| - 1;
      SetTimersAppend(fd, a, b[..k]);
      assert (a + b)[..|a + b| - 1] == a + b[..k];
    }
  }

  lemma SwapDownKeepsShape(h: seq<Timer>, x: nat, c: nat)
    requires HeapButDown(h, x) && c < |h| && (c == 2 * x + 1 || c == 2 * x + 2)
    requires h[c].expire < h[x].expire
    requires 2 * x + 1 < |h| ==> h[c].expire <= h[2 * x + 1].expire
    requires 2 * x + 2 < |h| ==> h[c].expire <= h[2 * x + 2].expire
    ensures HeapButDown(Swapped(h, x, c), c)
  {
    var g := Swapped(h, x, c);
    forall i | 0 < i < |g| && Parent(i) != c
      ensures g[Parent(i)].expire <= g[i].expire
    {
      assert Parent(i) == x ==> i == 2 * x + 1 || i == 2 * x + 2;
    }
  }

  lemma NoSmallerChild(h: seq<Timer>, x: nat)
    requires HeapButDown(h, x)
    requires 2 * x + 1 < |h| ==> h[x].expire <= h[2 * x + 1].expire
    requires 2 * x + 2 < |h| ==> h[x].expire <= h[2 * x + 2].expire
    ensures HeapOrder(h)
  {
    forall i | 0 < i < |h|
      ensures h[Parent(i)].expire <= h[i].expire
    {
      assert Parent(i) == x ==> i == 2 * x + 1 || i == 2 * x + 2;
    }
  }

  lemma SwapUpKeepsShape(h: seq<Timer>, x: nat)
    requires 0 < x < |h| && HeapButUp(h, x)
    requires Less(h[x], h[Parent(x)])
    ensures HeapButUp(Swapped(h, x, Parent(x)), Parent(x))
  {
    var p := Parent(x);
    var g := Swapped(h, x, p);
    forall i | 0 < i < |g| && i != p
      ensures g[Parent(i)].expire <= g[i].expire
    {
      if i == x {
      } else if Parent(i) == x {
      } else if Parent(i) == p {
        assert h[p].expire <= h[i].expire;
      }
    }
    forall i | 0 < i < |g| && Parent(i) == p && p > 0
      ensures g[Parent(p)].expire <= g[i].expire
    {
      assert h[Parent(p)].expire <= h[p].expire;
      assert i != x ==> h[p].expire <= h[i].expire;
    }
  }

  lemma LastToRootKeepsShape(h: seq<Timer>)
    requires HeapOrder(h) && h != []
    ensures HeapButDown(Swapped(h, 0, |h| - 1)[..|h| - 1], 0)
  {
    var g := Swapped(h, 0, |h| - 1)[..|h| - 1];
    forall i | 0 < i < |g| && Parent(i) != 0
      ensures g[Parent(i)].expire <= g[i].expire
    {
      assert g[i] == h[i] && g[Parent(i)] == h[Parent(i)];
    }
  }
}
