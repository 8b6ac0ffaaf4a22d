/** The double-buffered asynchronous log (base/AsyncLog.cpp).

    Front-end threads append under the mutex; the back end takes all buffers under the mutex, writes
    them without it, and recycles two of them.  A buffer has one owner at a time, so it is a value
    here; `None` is an empty unique pointer.
 */
module AsyncLogs {
  import opened Options
  import opened LogStreams

  const LARGER_BUFFER_SIZE: nat := 4_000_000
  const TOO_MANY: nat := 20

  datatype BackEnd = Waiting | Writing

  datatype Log = Log(
    cur: Option<string>,       // m_cur_buffer
    next: Option<string>,      // m_next_buffer
    queue: seq<string>,        // m_buffers
    spare1: Option<string>,    // new_buffer_1 of the back end
    spare2: Option<string>,    // new_buffer_2
    taken: seq<string>,        // write_to_file
    done: nat,                 // how many of them are in the file
    backEnd: BackEnd,
    file: string,
    appended: string)          // history: all messages, in the order of their append

  datatype Step = Append(msg: string) | Take(notice: string) | Write | Recycle

  const START := Log(Some(""), Some(""), [], Some(""), Some(""), [], 0, Waiting, "", "")

  // ---------------------------------------------------------------- front end

  predicate Fits(g: Log, msg: string)
    requires g.cur.Some?
  {
    |msg| + |g.cur.value| <= LARGER_BUFFER_SIZE
  }

  /** With the current buffer full and no spare, the source refills m_next_buffer and appends through
      the empty m_cur_buffer: a null dereference. */
  predicate AppendCrashes(g: Log, msg: string) {
    g.cur.None? || (!Fits(g, msg) && g.next.None?)
  }

  function AppendSpec(g: Log, msg: string): Log
    requires !AppendCrashes(g, msg)
  {
    var h := g.(appended := g.appended + Padded(msg));
    if Fits(g, msg) then h.(cur := Some(g.cur.value + Padded(msg)))
    else h.(queue := g.queue + [g.cur.value], cur := Some(g.next.value + Padded(msg)), next := None)
  }

  // ----------------------------------------------------------------- back end

  /** The critical section, and the branch that drops buffers when more than twenty piled up. */
  function TakeSpec(g: Log, notice: string): Log
    requires g.cur.Some?
  {
    var all := g.queue + [g.cur.value];
    var h := g.(queue := [], cur := g.spare1, spare1 := None,
                next := if g.next.None? then g.spare2 else g.next,
                spare2 := if g.next.None? then None else g.spare2,
                taken := all, done := 0, backEnd := Writing);
    if |all| > TOO_MANY then h.(file := g.file + notice, taken := all[..2]) else h
  }

  function WriteSpec(g: Log): Log
    requires g.done < |g.taken|
  {
    g.(file := g.file + g.taken[g.done], done := g.done + 1)
  }

  /** Both spares can be refilled from at most two written buffers. */
  predicate CanRecycle(g: Log) {
    var n := if |g.taken| > 2 then 2 else |g.taken|;
    (if g.spare1.None? then 1 else 0) + (if g.spare2.None? then 1 else 0) <= n
  }

  function RecycleSpec(g: Log): Log {
    g.(spare1 := if g.spare1.None? then Some("") else g.spare1,
       spare2 := if g.spare2.None? then Some("") else g.spare2,
       taken := [], done := 0, backEnd := Waiting)
  }

  // ------------------------------------------------------------------- system

  /** When a step is possible; an append needs a message no longer than a buffer, and a spare when the
      current buffer is full. */
  predicate Enabled(g: Log, a: Step) {
    match a
    case Append(msg) => |msg| <= LARGER_BUFFER_SIZE && !AppendCrashes(g, msg)
    case Take(_) => g.backEnd == Waiting && g.cur.Some?
    case Write => g.backEnd == Writing && g.done < |g.taken|
    case Recycle => g.backEnd == Writing && g.done == |g.taken|
  }

  function Apply(g: Log, a: Step): Log
    requires Enabled(g, a)
  {
    match a
    case Append(msg) => AppendSpec(g, msg)
    case Take(notice) => TakeSpec(g, notice)
    case Write => WriteSpec(g)
    case Recycle => RecycleSpec(g)
  }

  function Join(bs: seq<string>): string {
    if bs == [] then "" else Join(bs[..|bs| - 1]) + bs[|bs| - 1]
  }

  /** Everything that has been appended, wherever it is. */
  function Everything(g: Log): string
    requires g.cur.Some? && g.done <= |g.taken|
  {
    g.file + (Join(g.taken[g.done..]) + (Join(g.queue) + g.cur.value))
  }

  ghost predicate Inv(g: Log) {
    && g.cur.Some? && |g.cur.value| <= LARGER_BUFFER_SIZE
    && g.done <= |g.taken|
    && (g.next.Some? ==> g.next == Some("") && g.queue == [])
    && (g.next.None? ==> |g.queue| == 1)
    && (if g.backEnd == Waiting
        then g.spare1 == Some("") && g.spare2 == Some("") && g.taken == []
        else g.spare1.None? && 1 <= |g.taken| <= 2 && if g.spare2.None? then |g.taken| == 2 else g.spare2 == Some(""))
    && Everything(g) == g.appended
  }

  lemma JoinSnoc(bs: seq<string>, b: string)
    ensures Join(bs + [b]) == Join(bs) + b
  {
    assert (bs + [b])[..|bs|] == bs;
  }

  lemma {:induction false} JoinCons(b: string, bs: seq<string>)
    ensures Join([b] + bs) == b + Join(bs)
    decreases |bs|
  {
    if bs == [] {
      assert [b] + bs == [] + [b];
      JoinSnoc([], b);
      assert "" + b == b + "";
    } else {
      var k := |bs| - 1;
      JoinCons(b, bs[..k]);
      assert [b] + bs == ([b] + bs[..k]) + [bs[k]];
      JoinSnoc([b] + bs[..k], bs[k]);
      assert (b + Join(bs[..k])) + bs[k] == b + (Join(bs[..k]) + bs[k]);
    }
  }

  lemma Regroup4(a: string, b: string, c: string, d: string, e: string)
    ensures (a + (b + (c + d))) + e == a + (b + (c + (d + e)))
    ensures a + (b + (c + (d + e))) == a + (b + ((c + d) + e))
    ensures (a + b) + (c + (d + e)) == a + ((b + c) + (d + e))
    ensures a + ("" + (c + d)) == a + ((c + d) + ("" + ""))
  {
  }

  lemma AppendKeepsInv(g: Log, msg: string)
    requires Inv(g) && Enabled(g, Append(msg))
    ensures Inv(AppendSpec(g, msg))
  {
    var rest := Join(g.taken[g.done..]);
    var m, q, c := Padded(msg), Join(g.queue), g.cur.value;
    if Fits(g, msg) {
      Regroup4(g.file, rest, q, c, m);
    } else {
      JoinSnoc(g.queue, c);
      Regroup4(g.file, rest, q, c, m);
      assert "" + m == m;
    }
  }

  lemma TakeKeepsInv(g: Log, notice: string)
    requires Inv(g) && Enabled(g, Take(notice))
    ensures Inv(TakeSpec(g, notice)) && |g.queue| + 1 <= 2
  {
    var h := TakeSpec(g, notice);
    JoinSnoc(g.queue, g.cur.value);
    assert h.taken[0..] == g.queue + [g.cur.value];
    assert g.taken[g.done..] == [];
    Regroup4(g.file, "", Join(g.queue), g.cur.value, "");
  }

  lemma WriteKeepsInv(g: Log)
    requires Inv(g) && Enabled(g, Write)
    ensures Inv(WriteSpec(g))
  {
    var b := g.taken[g.done];
    assert g.taken[g.done..] == [b] + g.taken[g.done + 1..];
    JoinCons(b, g.taken[g.done + 1..]);
    Regroup4(g.file, b, Join(g.taken[g.done + 1..]), Join(g.queue), g.cur.value);
  }

  lemma RecycleKeepsInv(g: Log)
    requires Inv(g) && Enabled(g, Recycle)
    ensures CanRecycle(g) && Inv(RecycleSpec(g))
  {
    assert g.taken[g.done..] == [];
    assert RecycleSpec(g).taken[0..] == [];
  }

  lemma StepKeepsInv(g: Log, a: Step)
    requires Inv(g) && Enabled(g, a)
    ensures Inv(Apply(g, a))
  {
    match a
    case Append(msg) => AppendKeepsInv(g, msg);
    case Take(notice) => TakeKeepsInv(g, notice);
    case Write => WriteKeepsInv(g);
    case Recycle => RecycleKeepsInv(g);
  }

  // --------------------------------------------------------------------- runs

  ghost predicate IsRun(g: Log, acts: seq<Step>)
    decreases |acts|
  {
    acts == [] || (Enabled(g, acts[0]) && IsRun(Apply(g, acts[0]), acts[1..]))
  }

  ghost function After(g: Log, acts: seq<Step>): Log
    requires IsRun(g, acts)
    decreases |acts|
  {
    if acts == [] then g else After(Apply(g, acts[0]), acts[1..])
  }

  lemma {:induction false} RunKeepsInv(g: Log, acts: seq<Step>)
    requires Inv(g) && IsRun(g, acts)
    ensures Inv(After(g, acts))
    decreases |acts|
  {
    if acts != [] {
      StepKeepsInv(g, acts[0]);
      RunKeepsInv(Apply(g, acts[0]), acts[1..]);
    }
  }

  /** The messages of a run, as the buffers store them. */
  function Messages(acts: seq<Step>): string {
    if acts == [] then "" else (if acts[0].Append? then Padded(acts[0].msg) else "") + Messages(acts[1..])
  }

  lemma {:induction false} AppendedIsMessages(g: Log, acts: seq<Step>)
    requires IsRun(g, acts)
    ensures After(g, acts).appended == g.appended + Messages(acts)
    decreases |acts|
  {
    if acts == [] {
      assert g.appended + "" == g.appended;
    } else {
      var h := Apply(g, acts[0]);
      AppendedIsMessages(h, acts[1..]);
      var m := if acts[0].Append? then Padded(acts[0].msg) else "";
      assert h.appended == g.appended + m;
      assert (g.appended + m) + Messages(acts[1..]) == g.appended + (m + Messages(acts[1..]));
    }
  }

  /** Nothing is lost, duplicated or reordered: at every point of every run the file, the buffers
      taken and not yet written, the queued ones and the current one hold all messages in order. */
  lemma MessagesAreConserved(acts: seq<Step>)
    requires IsRun(START, acts)
    ensures
      var g := After(START, acts);
      g.cur.Some? && g.done <= |g.taken| && Everything(g) == Messages(acts)
  {
    RunKeepsInv(START, acts);
    AppendedIsMessages(START, acts);
    assert "" + Messages(acts) == Messages(acts);
  }

  /** The back end never runs out of buffers to recycle and never drops any, and an empty spare means
      a full buffer is waiting for it. */
  lemma BackEndIsNeverStarved(acts: seq<Step>)
    requires IsRun(START, acts)
    ensures
      var g := After(START, acts);
      && (Enabled(g, Recycle) ==> CanRecycle(g))
      && |g.queue| + 1 <= TOO_MANY
      && (g.next.None? ==> |g.queue| == 1)
  {
    RunKeepsInv(START, acts);
    var g := After(START, acts);
    if Enabled(g, Recycle) {
      RecycleKeepsInv(g);
    }
  }

  /** Right after the back end has taken the buffers, both front-end buffers are there and empty. */
  lemma TakeRestoresSpares(acts: seq<Step>, notice: string)
    requires IsRun(START, acts) && Enabled(After(START, acts), Take(notice))
    ensures
      var h := TakeSpec(After(START, acts), notice);
      h.cur == Some("") && h.next == Some("")
  {
    RunKeepsInv(START, acts);
  }

  /** When an append that fits into a buffer crashes: the current buffer is full and the back end has
      not taken anything since the last buffer was queued. */
  lemma AppendCrashesIff(acts: seq<Step>, msg: string)
    requires IsRun(START, acts)
    ensures
      var g := After(START, acts);
      AppendCrashes(g, msg) <==> g.queue != [] && g.cur.Some? && !Fits(g, msg)
  {
    RunKeepsInv(START, acts);
  }

  /** It can happen: three messages of which no two consecutive ones share a buffer, appended before
      the back end wakes up. */
  lemma ThreeLongMessagesCrash(a: string, b: string, c: string)
    requires |a| <= LARGER_BUFFER_SIZE && |b| <= LARGER_BUFFER_SIZE
    requires |a| + |b| > LARGER_BUFFER_SIZE && |b| + |c| > LARGER_BUFFER_SIZE
    ensures IsRun(START, [Append(a), Append(b)])
    ensures AppendCrashes(After(START, [Append(a), Append(b)]), c)
  {
    var acts := [Append(a), Append(b)];
    var g := Apply(START, acts[0]);
    assert g.cur.value == Padded(a) by { assert "" + Padded(a) == Padded(a); }
    var h := Apply(g, acts[1]);
    assert h.cur.value == Padded(b) by { assert "" + Padded(b) == Padded(b); }
    assert acts[1..] == [Append(b)] && [Append(b)][1..] == [];
    assert IsRun(h, []) && IsRun(g, [Append(b)]);
    assert After(g, [Append(b)]) == After(h, []) == h;
  }

  /** Messages that together fit the current buffer go there and nowhere else: the spare and the queue
      are not touched, and nothing crashes. */
  lemma {:induction false} FittingMessagesStay(g: Log, ms: seq<string>)
    requires Inv(g) && |g.cur.value| + Total(ms) <= 4_000_000
    ensures IsRun(g, Appends(ms))
    ensures
      var h := After(g, Appends(ms));
      && h.next == g.next && h.queue == g.queue && h.cur == Some(g.cur.value + Messages(Appends(ms)))
      && h.file == g.file && h.taken == g.taken && h.spare1 == g.spare1 && h.spare2 == g.spare2
    decreases |ms|
  {
    if ms == [] {
      assert g.cur.value + "" == g.cur.value;
    } else {
      var a := Append(ms[0]);
      AppendKeepsInv(g, ms[0]);
      FittingMessagesStay(Apply(g, a), ms[1..]);
      FirstAppend(ms);
      assert (g.cur.value + Padded(ms[0])) + Messages(Appends(ms[1..]))
          == g.cur.value + (Padded(ms[0]) + Messages(Appends(ms[1..])));
    }
  }

  lemma FirstAppend(ms: seq<string>)
    requires ms != []
    ensures Appends(ms)[0] == Append(ms[0]) && Appends(ms)[1..] == Appends(ms[1..])
  {
  }

  function Total(ms: seq<string>): nat {
    if ms == [] then 0 else |ms[0]| + Total(ms[1..])
  }

  function Appends(ms: seq<string>): (acts: seq<Step>)
    ensures |acts| == |ms|
  {
    seq(|ms|, i requires 0 <= i < |ms| => Append(ms[i]))
  }

  /** How many bytes the front end can still take without the back end. */
  function Room(g: Log): nat
    requires g.cur.Some? && |g.cur.value| <= LARGER_BUFFER_SIZE
  {
    LARGER_BUFFER_SIZE - |g.cur.value| + if g.next.Some? then LARGER_BUFFER_SIZE else 0
  }

  /** The messages before `n` are appended, and message `n` finds no buffer. */
  ghost predicate CrashesAt(g: Log, ms: seq<string>, n: nat) {
    n < |ms| && IsRun(g, Appends(ms[..n])) && AppendCrashes(After(g, Appends(ms[..n])), ms[n])
  }

  lemma AppendUsesRoom(g: Log, msg: string)
    requires Inv(g) && Enabled(g, Append(msg))
    ensures Inv(AppendSpec(g, msg)) && Room(AppendSpec(g, msg)) + |msg| <= Room(g)
  {
    AppendKeepsInv(g, msg);
  }

  lemma CrashNow(g: Log, ms: seq<string>)
    requires ms != [] && AppendCrashes(g, ms[0])
    ensures CrashesAt(g, ms, 0)
  {
    assert Appends(ms[..0]) == [];
  }

  lemma CrashLater(g: Log, ms: seq<string>, n: nat)
    requires ms != [] && Enabled(g, Append(ms[0])) && CrashesAt(Apply(g, Append(ms[0])), ms[1..], n)
    ensures CrashesAt(g, ms, n + 1)
  {
    var acts := Appends(ms[..n + 1]);
    assert acts[0] == Append(ms[0]) && acts[1..] == Appends(ms[1..][..n]);
  }

  lemma {:induction false} CrashFrom(g: Log, ms: seq<string>) returns (n: nat)
    requires Inv(g) && Total(ms) > Room(g)
    requires forall i :: 0 <= i < |ms| ==> |ms[i]| <= LARGER_BUFFER_SIZE
    ensures CrashesAt(g, ms, n)
    decreases |ms|
  {
    if AppendCrashes(g, ms[0]) {
      n := 0;
      CrashNow(g, ms);
    } else {
      AppendUsesRoom(g, ms[0]);
      assert forall i :: 0 <= i < |ms[1..]| ==> ms[1..][i] == ms[i + 1];
      n := CrashFrom(AppendSpec(g, ms[0]), ms[1..]);
      CrashLater(g, ms, n);
      n := n + 1;
    }
  }

  /** In any reachable state, messages that each fit a buffer, however short, and together exceed the room
      left in the two front-end buffers crash an append, if the back end takes nothing meanwhile. */
  lemma TooMuchBeforeTakeCrashes(acts: seq<Step>, ms: seq<string>)
    requires IsRun(START, acts)
    requires forall i :: 0 <= i < |ms| ==> |ms[i]| <= LARGER_BUFFER_SIZE
    ensures
      var g := After(START, acts);
      && g.cur.Some? && |g.cur.value| <= LARGER_BUFFER_SIZE
      && (Total(ms) > Room(g) ==> exists n :: CrashesAt(g, ms, n))
  {
    RunKeepsInv(START, acts);
    var g := After(START, acts);
    if Total(ms) > Room(g) {
      var n := CrashFrom(g, ms);
    }
  }

  /** The two buffers together hold eight million bytes: more than that, in messages of at most four
      million, crashes an append that starts from the beginning. */
  lemma EightMillionBytesCrash(ms: seq<string>)
    requires Total(ms) > 8_000_000 && forall i :: 0 <= i < |ms| ==> |ms[i]| <= 4_000_000
    ensures exists n :: CrashesAt(START, ms, n)
  {
    var n := CrashFrom(START, ms);
  }

  // -------------------------------------------------------------------- class

  /** The object and the locals of its back-end thread; each method is one atomic section. */
  class AsyncLog {
    var curBuffer: Option<string>
    var nextBuffer: Option<string>
    var buffers: seq<string>
    var newBuffer1: Option<string>
    var newBuffer2: Option<string>
    var writeToFile: seq<string>
    var done: nat
    var backEnd: BackEnd
    var file: string
    ghost var appended: string

    ghost function Value(): Log
      reads this
    {
      Log(curBuffer, nextBuffer, buffers, newBuffer1, newBuffer2, writeToFile, done, backEnd, file, appended)
    }

    constructor ()
      ensures Value() == START
    {
      curBuffer, nextBuffer, buffers := Some(""), Some(""), [];
      newBuffer1, newBuffer2 := Some(""), Some("");
      writeToFile, done, backEnd, file, appended := [], 0, Waiting, "", "";
    }

    method Append(msg: string)
      requires Enabled(Value(), Step.Append(msg))
      modifies this
      ensures Value() == AppendSpec(old(Value()), msg)
    {
      if LARGER_BUFFER_SIZE - |curBuffer.value| < |msg| {
        buffers := buffers + [curBuffer.value];
        curBuffer := None;
        curBuffer, nextBuffer := nextBuffer, curBuffer;
      }
      curBuffer := Some(curBuffer.value + Padded(msg));
      appended := appended + Padded(msg);
    }

    method TakeBuffers(notice: string)
      requires Enabled(Value(), Take(notice))
      modifies this
      ensures Value() == TakeSpec(old(Value()), notice)
    {
      buffers := buffers + [curBuffer.value];
      curBuffer := None;
      curBuffer, newBuffer1 := newBuffer1, curBuffer;
      writeToFile, buffers := buffers, [];
      done := 0;
      backEnd := Writing;
      if nextBuffer.None? {
        nextBuffer, newBuffer2 := newBuffer2, nextBuffer;
      }
      if |writeToFile| > TOO_MANY {
        file := file + notice;
        writeToFile := writeToFile[..2];
      }
    }

    method WriteBuffer()
      requires Enabled(Value(), Write)
      modifies this`file, this`done
      ensures Value() == WriteSpec(old(Value()))
    {
      file := file + writeToFile[done];
      done := done + 1;
    }

    method RecycleBuffers()
      requires Enabled(Value(), Recycle) && CanRecycle(Value())
      modifies this
      ensures Value() == RecycleSpec(old(Value()))
    {
      if |writeToFile| > 2 {
        writeToFile := writeToFile[..2];
      }
      if newBuffer1.None? {
        newBuffer1 := Some(writeToFile[|writeToFile| - 1]);
        writeToFile := writeToFile[..|writeToFile| - 1];
        newBuffer1 := Some("");
      }
      if newBuffer2.None? {
        newBuffer2 := Some(writeToFile[|writeToFile| - 1]);
        writeToFile := writeToFile[..|writeToFile| - 1];
        newBuffer2 := Some("");
      }
      writeToFile := [];
      done := 0;
      backEnd := Waiting;
    }
  }
}
