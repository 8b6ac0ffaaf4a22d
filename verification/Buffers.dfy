/** The growable byte buffer of a connection (Buffer.h, Buffer.cpp).

    `Buffer` keeps the source's representation: a resizable store with a read
    index and a write index.  Its abstract value is the plain byte queue
    `Contents()`; every method is specified by what it does to that queue.
 */
module Buffers {

  const INITIAL_SIZE: nat := 1024
  const READ_CHUNK: nat := 1024

  /** What one call of ::read on a non-blocking socket can report. */
  datatype ReadOutcome =
    | ReadBytes(bytes: seq<char>)
    | ReadInterrupted      // EINTR
    | ReadWouldBlock       // EAGAIN or EWOULDBLOCK
    | ReadEnd              // 0: the peer closed the connection
    | ReadError            // any other errno

  /** What one call of ::write on a non-blocking socket can report. */
  datatype WriteOutcome =
    | Accepted(n: nat)
    | WriteInterrupted
    | WriteWouldBlock
    | WriteError

  predicate EndsRead(o: ReadOutcome) { o.ReadWouldBlock? || o.ReadEnd? || o.ReadError? }

  /** A read script is what the kernel answers to the successive calls of one
      readFromFd: chunks and interruptions, then one answer that ends the loop. */
  predicate ReadScript(os: seq<ReadOutcome>) {
    && |os| > 0
    && EndsRead(os[|os| - 1])
    && (forall i :: 0 <= i < |os| - 1 ==> !EndsRead(os[i]))
    && (forall i :: 0 <= i < |os| && os[i].ReadBytes? ==> 0 < |os[i].bytes| <= READ_CHUNK)
  }

  /** The bytes delivered by a prefix of a read script. */
  function Delivered(os: seq<ReadOutcome>): seq<char> {
    if os == [] then []
    else Delivered(os[..|os| - 1]) + (if os[|os| - 1].ReadBytes? then os[|os| - 1].bytes else [])
  }

  /** The value readFromFd reports for a script: the byte count, unless the peer
      closed (0) or the call failed (-1), which overwrite it. */
  function ReadReport(os: seq<ReadOutcome>): int
    requires ReadScript(os)
  {
    match os[|os| - 1]
    case ReadWouldBlock => |Delivered(os)|
    case ReadEnd => 0
    case _ => -1
  }

  /** The bytes the kernel accepts over a prefix of a write script. */
  function AcceptedCount(os: seq<WriteOutcome>): nat {
    if os == [] then 0
    else AcceptedCount(os[..|os| - 1]) + (if os[|os| - 1].Accepted? then os[|os| - 1].n else 0)
  }

  predicate EndsWrite(o: WriteOutcome) { o.WriteWouldBlock? || o.WriteError? || o == Accepted(0) }

  /** A write script for a queue of `size` bytes: the kernel never accepts more than
      it is offered, an offer of nothing is accepted with 0, and one answer ends the loop. */
  predicate WriteScript(os: seq<WriteOutcome>, size: nat) {
    && |os| > 0
    && EndsWrite(os[|os| - 1])
    && (forall i :: 0 <= i < |os| - 1 ==> !EndsWrite(os[i]))
    && (forall i :: 0 <= i <= |os| ==> AcceptedCount(os[..i]) <= size)
  }

  /** The value writeToFd reports for a script. */
  function WriteReport(os: seq<WriteOutcome>): int
    requires |os| > 0
  {
    if os[|os| - 1].WriteError? then -1 else AcceptedCount(os)
  }

  /** A read reports a positive count exactly when something was delivered and the socket then would
      block; the count is that of all bytes delivered. */
  lemma ReadReportIff(os: seq<ReadOutcome>)
    requires ReadScript(os)
    ensures ReadReport(os) > 0 <==> os[|os| - 1].ReadWouldBlock? && exists i :: 0 <= i < |os| && os[i].ReadBytes?
    ensures ReadReport(os) > 0 ==> ReadReport(os) == |Delivered(os)|
    ensures ReadReport(os) < 0 <==> os[|os| - 1].ReadError?
  {
    DeliveredIff(os);
  }

  lemma {:induction false} DeliveredIff(os: seq<ReadOutcome>)
    requires forall i :: 0 <= i < |os| && os[i].ReadBytes? ==> 0 < |os[i].bytes|
    ensures Delivered(os) != [] <==> exists i :: 0 <= i < |os| && os[i].ReadBytes?
  {
    if os != [] {
      var last, rest := |os| - 1, os[..|os| - 1];
      DeliveredIff(rest);
      assert forall i :: 0 <= i < last ==> rest[i] == os[i];
      if i :| 0 <= i < |rest| && rest[i].ReadBytes? {
        assert os[i].ReadBytes?;
      }
    }
  }

  /** A write reports -1 exactly after an error, and otherwise all that was accepted, which is nothing
      exactly when no call was accepted for more than nothing. */
  lemma WriteReportIff(os: seq<WriteOutcome>, size: nat)
    requires WriteScript(os, size)
    ensures WriteReport(os) == -1 <==> os[|os| - 1].WriteError?
    ensures !os[|os| - 1].WriteError? ==> 0 <= WriteReport(os) == AcceptedCount(os) <= size
    ensures AcceptedCount(os) == 0 <==> forall i :: 0 <= i < |os| && os[i].Accepted? ==> os[i].n == 0
  {
    assert os[..|os|] == os;
    NothingAcceptedIff(os);
  }

  lemma {:induction false} NothingAcceptedIff(os: seq<WriteOutcome>)
    ensures AcceptedCount(os) == 0 <==> forall i :: 0 <= i < |os| && os[i].Accepted? ==> os[i].n == 0
  {
    if os != [] {
      var rest := os[..|os| - 1];
      NothingAcceptedIff(rest);
      assert forall i :: 0 <= i < |rest| ==> rest[i] == os[i];
      assert os[|os| - 1] in os;
    }
  }

  lemma AcceptedCountSnoc(os: seq<WriteOutcome>, i: nat)
    requires i < |os|
    ensures AcceptedCount(os[..i + 1]) == AcceptedCount(os[..i]) + (if os[i].Accepted? then os[i].n else 0)
  {
    assert os[..i + 1][..i] == os[..i];
  }

  lemma DeliveredSnoc(os: seq<ReadOutcome>, i: nat)
    requires i < |os|
    ensures Delivered(os[..i + 1]) == Delivered(os[..i]) + (if os[i].ReadBytes? then os[i].bytes else [])
  {
    assert os[..i + 1][..i] == os[..i];
  }

  // ---------------------------------------------------------------- lines

  predicate CrlfAt(s: seq<char>, i: int) {
    0 <= i && i + 1 < |s| && s[i] == '\r' && s[i + 1] == '\n'
  }

  /** `i` is where the first CR LF of `s` starts, or |s| when there is none. */
  predicate IsFirstCrlf(s: seq<char>, i: nat) {
    && i <= |s|
    && (i < |s| ==> CrlfAt(s, i))
    && (forall j :: 0 <= j < i ==> !CrlfAt(s, j))
  }

  function FirstCrlf(s: seq<char>, from: nat := 0): (i: nat)
    requires from <= |s|
    requires forall j :: 0 <= j < from ==> !CrlfAt(s, j)
    ensures IsFirstCrlf(s, i)
    decreases |s| - from
  {
    if from == |s| then from
    else if CrlfAt(s, from) then from
    else FirstCrlf(s, from + 1)
  }

  lemma FirstCrlfUnique(s: seq<char>, i: nat, j: nat)
    requires IsFirstCrlf(s, i) && IsFirstCrlf(s, j)
    ensures i == j
  {
  }

  /** The queue meaning of getAnHTTPLine: a complete line leaves the queue; without one
      the queue stays and the caller sees all of it but the last byte. */
  function LineOf(s: seq<char>): seq<char> {
    var i := FirstCrlf(s);
    if i < |s| then s[..i + 2] else if s == [] then [] else s[..|s| - 1]
  }

  function AfterLine(s: seq<char>): seq<char> {
    var i := FirstCrlf(s);
    if i < |s| then s[i + 2..] else s
  }

  lemma OneMore(a: array<char>, lo: nat, i: nat, before: seq<char>, msg: seq<char>, k: nat)
    requires lo <= i < a.Length && k < |msg| && a[i] == msg[k]
    requires a[lo..i] == before + msg[..k]
    ensures a[lo..i + 1] == before + msg[..k + 1]
  {
    assert a[lo..i + 1] == a[lo..i] + [a[i]];
    assert msg[..k + 1] == msg[..k] + [msg[k]];
  }

  lemma LineFound(s: seq<char>, i: nat)
    requires CrlfAt(s, i) && forall j :: 0 <= j < i ==> !CrlfAt(s, j)
    ensures LineOf(s) == s[..i + 2] && AfterLine(s) == s[i + 2..]
  {
    FirstCrlfUnique(s, FirstCrlf(s), i);
  }

  lemma NoLine(s: seq<char>)
    requires s != [] && forall j :: 0 <= j < |s| ==> !CrlfAt(s, j)
    ensures LineOf(s) == s[..|s| - 1] && AfterLine(s) == s
  {
    FirstCrlfUnique(s, FirstCrlf(s), |s|);
  }

  lemma SameSlice(a: array<char>, b: array<char>, i: nat, k: nat)
    requires i <= k <= a.Length && k <= b.Length && a[..k] == b[..k]
    ensures a[i..k] == b[i..k]
  {
    assert a[i..k] == a[..k][i..] && b[i..k] == b[..k][i..];
  }

  lemma SliceOfSlice(a: array<char>, i: nat, k: nat, j: nat)
    requires i <= k <= j <= a.Length
    ensures a[i..k] == a[i..j][..k - i] && a[k..j] == a[i..j][k - i..]
  {
  }

  // --------------------------------------------------------------- class

  class Buffer {
    var store: array<char>
    var readIndex: nat
    var writeIndex: nat

    ghost predicate Valid()
      reads this
    {
      readIndex <= writeIndex <= store.Length
    }

    ghost function Contents(): seq<char>
      requires Valid()
      reads this, store
    {
      store[readIndex..writeIndex]
    }

    constructor ()
      ensures Valid() && fresh(store)
      ensures Contents() == [] && store.Length == 1024
    {
      store := new char[INITIAL_SIZE](_ => '\0');
      readIndex, writeIndex := 0, 0;
    }

    function WritableBytes(): nat
      requires Valid()
      reads this
    {
      store.Length - writeIndex
    }

    function PreWritableBytes(): nat
      reads this
    {
      readIndex
    }

    function ReadableBytes(): (n: nat)
      requires Valid()
      reads this, store
      ensures n == |Contents()|
    {
      writeIndex - readIndex
    }

    /** Moves the readable bytes to the front of the store. */
    method ClearUselessData()
      requires Valid()
      modifies this, store
      ensures Valid() && store == old(store)
      ensures readIndex == 0 && Contents() == old(Contents())
    {
      ghost var before := Contents();
      var n := writeIndex - readIndex;
      var k := 0;
      while k < n
        modifies store
        invariant 0 <= k <= n
        invariant forall j :: 0 <= j < k ==> store[j] == before[j]
        invariant forall j :: readIndex + k <= j < writeIndex ==> store[j] == before[j - readIndex]
      {
        store[k] := store[readIndex + k];
        k := k + 1;
      }
      writeIndex := n;
      readIndex := 0;
      assert store[0..n] == before;
    }

    /** Compacts when the free space on both sides suffices, and grows otherwise. */
    method MakeSpace(len: nat)
      requires Valid()
      modifies this, store
      ensures Valid() && (store == old(store) || fresh(store))
      ensures Contents() == old(Contents())
      ensures WritableBytes() >= len
      ensures if old(PreWritableBytes() + WritableBytes()) >= len then store == old(store) && readIndex == 0
              else fresh(store) && store.Length == old(writeIndex) + len && readIndex == old(readIndex)
    {
      if PreWritableBytes() + WritableBytes() >= len {
        ClearUselessData();
      } else {
        var grown := Resized(store, writeIndex, writeIndex + len);
        SameSlice(store, grown, readIndex, writeIndex);
        store := grown;
      }
    }

    /** vector::resize: a longer store with the same first `n` bytes. */
    static method Resized(a: array<char>, n: nat, size: nat) returns (b: array<char>)
      requires n <= a.Length && n <= size
      ensures fresh(b) && b.Length == size && b[..n] == a[..n]
    {
      b := new char[size](_ => '\0');
      var k := 0;
      while k < n
        modifies b
        invariant 0 <= k <= n
        invariant forall j :: 0 <= j < k ==> b[j] == a[j]
      {
        b[k] := a[k];
        k := k + 1;
      }
    }

    method EnsureEnoughSpace(len: nat)
      requires Valid()
      modifies this, store
      ensures Valid() && (store == old(store) || fresh(store))
      ensures Contents() == old(Contents())
      ensures WritableBytes() >= len
    {
      if WritableBytes() < len {
        MakeSpace(len);
      }
    }

    method Append(msg: seq<char>)
      requires Valid()
      modifies this, store
      ensures Valid() && (store == old(store) || fresh(store))
      ensures Contents() == old(Contents()) + msg
    {
      EnsureEnoughSpace(|msg|);
      CopyIn(store, readIndex, writeIndex, msg);
      writeIndex := writeIndex + |msg|;
    }

    /** std::copy of `msg` to a[at..]. */
    static method CopyIn(a: array<char>, ghost lo: nat, at: nat, msg: seq<char>)
      requires lo <= at && at + |msg| <= a.Length
      modifies a
      ensures a[lo..at + |msg|] == old(a[lo..at]) + msg
    {
      ghost var before := a[lo..at];
      var k := 0;
      assert before + msg[..0] == before;
      while k < |msg|
        invariant 0 <= k <= |msg|
        invariant a[lo..at + k] == before + msg[..k]
      {
        a[at + k] := msg[k];
        OneMore(a, lo, at + k, before, msg, k);
        k := k + 1;
      }
      assert msg[..|msg|] == msg;
    }

    method GetAnHTTPLine() returns (line: seq<char>)
      requires Valid()
      modifies this`readIndex
      ensures Valid()
      ensures line == LineOf(old(Contents()))
      ensures Contents() == AfterLine(old(Contents()))
    {
      ghost var s := Contents();
      var i := readIndex;
      while i < writeIndex
        invariant readIndex <= i <= writeIndex
        invariant readIndex == old(readIndex)
        invariant forall j :: 0 <= j < i - readIndex ==> !CrlfAt(s, j)
        invariant i == writeIndex ==> s == []
      {
        assert s[i - readIndex] == store[i];
        if store[i] == '\r' && i + 1 < writeIndex && store[i + 1] == '\n' {
          LineFound(s, i - readIndex);
          var start := readIndex;
          readIndex := i + 2;
          SliceOfSlice(store, start, i + 2, writeIndex);
          return store[start..readIndex];
        }
        assert i + 1 < writeIndex ==> s[i + 1 - readIndex] == store[i + 1];
        assert !CrlfAt(s, i - readIndex);
        if i == writeIndex - 1 {
          NoLine(s);
          SliceOfSlice(store, readIndex, i, writeIndex);
          return store[readIndex..i];
        }
        i := i + 1;
      }
      line := [];
    }

    /** Reads until the socket would block, ends or fails; every delivered chunk is kept,
        also when the report is 0 or -1. */
    method ReadFromFd(os: seq<ReadOutcome>) returns (allBytes: int)
      requires Valid() && ReadScript(os)
      modifies this, store
      ensures Valid() && (store == old(store) || fresh(store))
      ensures Contents() == old(Contents()) + Delivered(os)
      ensures allBytes == ReadReport(os)
    {
      allBytes := 0;
      var i := 0;
      while true
        invariant 0 <= i < |os|
        invariant Valid() && (store == old(store) || fresh(store))
        invariant Contents() == old(Contents()) + Delivered(os[..i])
        invariant allBytes == |Delivered(os[..i])|
        decreases |os| - i
      {
        DeliveredSnoc(os, i);
        assert i == |os| - 1 ==> os[..i + 1] == os;
        match os[i] {
          case ReadInterrupted =>
            i := i + 1;
          case ReadWouldBlock =>
            break;
          case ReadError =>
            allBytes := -1;
            break;
          case ReadEnd =>
            allBytes := 0;
            break;
          case ReadBytes(bytes) =>
            allBytes := allBytes + |bytes|;
            Append(bytes);
            i := i + 1;
        }
      }
    }

    /** Writes until the queue is empty, the socket would block or fails: exactly the accepted
        bytes leave the front of the queue, whatever the report says. */
    method WriteToFd(os: seq<WriteOutcome>) returns (allBytes: int)
      requires Valid() && WriteScript(os, |Contents()|)
      modifies this`readIndex, this`writeIndex
      ensures Valid()
      ensures Contents() == old(Contents())[AcceptedCount(os)..]
      ensures allBytes == WriteReport(os)
    {
      ghost var s := Contents();
      allBytes := 0;
      var i := 0;
      while true
        invariant 0 <= i < |os|
        invariant Valid() && AcceptedCount(os[..i]) <= |s|
        invariant Contents() == s[AcceptedCount(os[..i])..]
        invariant allBytes == AcceptedCount(os[..i])
        decreases |os| - i
      {
        AcceptedCountSnoc(os, i);
        assert AcceptedCount(os[..i + 1]) <= |s|;
        assert i == |os| - 1 ==> os[..i + 1] == os;
        match os[i] {
          case WriteInterrupted =>
            i := i + 1;
          case WriteWouldBlock =>
            break;
          case WriteError =>
            allBytes := -1;
            break;
          case Accepted(bytes) =>
            if bytes == 0 {
              break;
            }
            readIndex := readIndex + bytes;
            allBytes := allBytes + bytes;
            if readIndex == writeIndex {
              readIndex := 0;
              writeIndex := 0;
            }
            i := i + 1;
        }
      }
    }

    method RetrieveAll()
      requires Valid()
      modifies this`readIndex, this`writeIndex
      ensures Valid() && Contents() == []
    {
      readIndex := 0;
      writeIndex := 0;
    }
  }
}
