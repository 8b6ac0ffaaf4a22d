/** Does a connection ever enter handleHttpRequest where it does not return?  This module follows one
    connection over any number of events: its state, its channel and its parser together
    (TcpConnection.cpp, HttpContext.cpp). */
module Turns {
  import opened Poller
  import opened Connections
  import H = Http
  import RT = RoundTrip

  /** `rest`: what the event being handled was reported for, while its close or error handler has run
      and its read or write handler may follow. */
  datatype Turn = Turn(poll: Poll<nat>, core: Core, ctx: H.Context, unread: string, rest: Interest, aborted: bool)

  datatype Happening =
    | Arrives(data: string, w: WriteResult)   // handleRead with data, and the write that follows
    | Fails(data: string, bytes: int)         // handleRead ends with end of stream or an error
    | Drains(w: WriteResult)                  // handleWrite
    | Hangs                                   // handleClose or handleError
    | Expires                                 // closeLongConnection

  /** The connection waits for a request. */
  predicate Listening(t: Turn) { t.core.state == Connected && t.core.chan.events == ReadEvent }

  /** A handler for `m` may be called: the connection is registered for it, or was so when the event
      under way was reported, though an earlier handler of that event may have closed it. */
  predicate Expects(t: Turn, m: Interest) {
    (t.core.state == Connected && t.core.chan.events == m) || t.rest == m
  }

  predicate Possible(t: Turn, h: Happening) {
    && !t.aborted
    && match h
       case Arrives(data, w) => Expects(t, ReadEvent) && data != "" && CanReport(t.core, w)
       case Fails(_, bytes) => Expects(t, ReadEvent) && bytes <= 0
       case Drains(w) => Expects(t, WriteEvent) && CanReport(t.core, w)
       case Hangs => t.core.state == Connected || t.rest != NoneEvent
       case Expires => t.core.alive
  }

  /** The parser returns from this event. */
  predicate Returns(t: Turn, h: Happening) {
    h.Arrives? ==> !H.Diverges(t.ctx, t.unread + h.data)
  }

  function Parsed(t: Turn, data: string): H.Parse
    requires !H.Diverges(t.ctx, t.unread + data)
  {
    H.Handle(t.ctx, t.unread + data)
  }

  function Effects(t: Turn, k: nat, h: Happening): Effect<nat>
    requires Returns(t, h)
  {
    match h
    case Arrives(data, w) =>
      HandleRead(t.poll, k, t.core, ReadResult(|data|, Parsed(t, data).ctx.connection == H.KEEP_ALIVE, w))
    case Fails(_, bytes) => HandleRead(t.poll, k, t.core, ReadResult(bytes, false, WriteResult(0, 0)))
    case Drains(w) => HandleWrite(t.poll, k, t.core, w)
    case Hangs => HandleClose(t.poll, k, t.core)
    case Expires => CloseLongConnection(t.poll, k, t.core)
  }

  function Next(t: Turn, k: nat, h: Happening): Turn
    requires Returns(t, h)
  {
    var e := Effects(t, k, h);
    var rest := if !h.Hangs? then NoneEvent else if t.rest != NoneEvent then t.rest else t.core.chan.events;
    var p := match h
      case Arrives(data, _) => Parsed(t, data)
      case Fails(data, _) => H.Parse(t.ctx, t.unread + data)
      case _ => H.Parse(t.ctx, t.unread);
    if e.reset then Turn(e.poll, e.core, H.ResetSpec(p.ctx), "", rest, e.aborted)
    else Turn(e.poll, e.core, p.ctx, p.unread, rest, e.aborted)
  }

  /** A request is complete, its answer is stuck (the socket takes no byte of it), and the connection
      is kept alive: handleClose then returns at once, and the parser is not reset. */
  predicate Stalls(t: Turn, h: Happening)
    requires Returns(t, h)
  {
    && h.Arrives? && h.w.bytes <= 0 && Listening(t) && !t.core.timeout
    && Parsed(t, h.data).ctx.check == H.CheckEnd
    && (t.core.alive || Parsed(t, h.data).ctx.connection == H.KEEP_ALIVE)
  }

  /** Whenever a read handler may be called, the parser is not at its end. */
  predicate Ready(t: Turn) { Expects(t, ReadEvent) ==> t.ctx.check != H.CheckEnd }

  /** A connection that is ready always returns from its next event. */
  lemma ReadyReturns(t: Turn, h: Happening)
    requires Ready(t) && Possible(t, h)
    ensures Returns(t, h)
  {
  }

  /** It stays ready if and only if the event does not stall. */
  lemma StaysReadyIff(t: Turn, k: nat, h: Happening)
    requires Ready(t) && Possible(t, h)
    ensures Returns(t, h) && (Ready(Next(t, k, h)) <==> !Stalls(t, h))
  {
    ReadyReturns(t, h);
    match h
    case Arrives(data, w) => ArrivalStaysReadyIff(t, k, data, w);
    case Fails(_, _) =>
    case Drains(_) =>
    case Hangs =>
    case Expires =>
  }

  lemma ArrivalStaysReadyIff(t: Turn, k: nat, data: string, w: WriteResult)
    requires Ready(t) && Possible(t, Arrives(data, w))
    ensures Returns(t, Arrives(data, w))
    ensures Ready(Next(t, k, Arrives(data, w))) <==> !Stalls(t, Arrives(data, w))
  {
    var p := Parsed(t, data);
    var r := ReadResult(|data|, p.ctx.connection == H.KEEP_ALIVE, w);
    var e := HandleRead(t.poll, k, t.core, r);
    var n := Next(t, k, Arrives(data, w));
    assert e == Effects(t, k, Arrives(data, w));
    assert n.core == e.core && n.rest == NoneEvent;
    if Listening(t) {
      ListensAfterRead(t.poll, k, t.core, r);
    } else {
      StaysDeafAfterRead(t.poll, k, t.core, r);
    }
  }

  /** Where a read with data leaves a listening connection. */
  lemma ListensAfterRead(p: Poll<nat>, k: nat, c: Core, r: ReadResult)
    requires c.state == Connected && c.chan.events == ReadEvent && r.bytes > 0
    ensures
      var e := HandleRead(p, k, c, r);
      var kept := (c.alive || r.keepAlive) && !c.timeout;
      && (e.reset <==> kept && r.write.bytes > 0 && r.write.left == 0)
      && (!e.reset ==> (e.core.state == Connected && e.core.chan.events == ReadEvent <==> kept && r.write.bytes <= 0))
  {
  }

  /** A read on a connection that does not listen makes it listen only by a reset. */
  lemma StaysDeafAfterRead(p: Poll<nat>, k: nat, c: Core, r: ReadResult)
    requires !(c.state == Connected && c.chan.events == ReadEvent) && r.bytes > 0
    ensures
      var e := HandleRead(p, k, c, r);
      !e.reset ==> !(e.core.state == Connected && e.core.chan.events == ReadEvent)
  {
  }

  // --------------------------------------------------------------------- runs

  ghost predicate IsRun(t: Turn, k: nat, hs: seq<Happening>)
    decreases |hs|
  {
    hs == [] || (Possible(t, hs[0]) && Returns(t, hs[0]) && IsRun(Next(t, k, hs[0]), k, hs[1..]))
  }

  ghost function After(t: Turn, k: nat, hs: seq<Happening>): Turn
    requires IsRun(t, k, hs)
    decreases |hs|
  {
    if hs == [] then t else After(Next(t, k, hs[0]), k, hs[1..])
  }

  ghost predicate NeverStalls(t: Turn, k: nat, hs: seq<Happening>)
    requires IsRun(t, k, hs)
    decreases |hs|
  {
    hs == [] || (!Stalls(t, hs[0]) && NeverStalls(Next(t, k, hs[0]), k, hs[1..]))
  }

  /** Over any run without a stall, the next event returns too: handleHttpRequest is never entered
      where it loops without end. */
  lemma {:induction false} EveryEventReturns(t: Turn, k: nat, hs: seq<Happening>, h: Happening)
    requires Ready(t) && IsRun(t, k, hs) && NeverStalls(t, k, hs)
    requires Possible(After(t, k, hs), h)
    ensures Ready(After(t, k, hs)) && Returns(After(t, k, hs), h)
    decreases |hs|
  {
    if hs == [] {
      ReadyReturns(t, h);
    } else {
      StaysReadyIff(t, k, hs[0]);
      EveryEventReturns(Next(t, k, hs[0]), k, hs[1..], h);
    }
  }

  /** After a stall it does: the connection still listens, and any data that completes a line makes
      the parser loop without end. */
  lemma StallThenLoops(t: Turn, k: nat, h: Happening, data: string, w: WriteResult)
    requires Possible(t, h) && Returns(t, h) && Stalls(t, h)
    requires data != "" && CanReport(t.core, w) && H.StatusOf(Next(t, k, h).unread + data) == H.LINE_OK
    ensures Possible(Next(t, k, h), Arrives(data, w)) && !Returns(Next(t, k, h), Arrives(data, w))
  {
    var p := Parsed(t, h.data);
    ListensAfterRead(t.poll, k, t.core, ReadResult(|h.data|, p.ctx.connection == H.KEEP_ALIVE, h.w));
  }

  /** Any request of a kept-alive connection, the first or a later one, leads there when the socket
      takes nothing of its answer and the next request arrives. */
  lemma StuckAnswerThenNextRequest(t: Turn, k: nat, m: H.Method, u: string, v: H.Version, hs: seq<string>,
                                   left: nat, w: WriteResult)
    requires Listening(t) && !t.aborted && !t.core.timeout && CanReport(t.core, w)
    requires t.ctx.check == H.CheckRequestLine && t.unread == ""
    requires H.IsToken(u) && RT.NoCr(u)
    requires forall i :: 0 <= i < |hs| ==> RT.HeaderText(hs[i]) && RT.Acceptable(hs[i])
    requires t.core.alive || RT.AskedConnection(hs, t.ctx.connection) == H.KEEP_ALIVE
    ensures
      var request := RT.RequestText(m, u, v, hs);
      var first := Arrives(request, WriteResult(0, left));
      && Possible(t, first) && Returns(t, first) && Stalls(t, first)
      && Possible(Next(t, k, first), Arrives(request, w)) && !Returns(Next(t, k, first), Arrives(request, w))
  {
    var request := RT.RequestText(m, u, v, hs);
    var first := Arrives(request, WriteResult(0, left));
    RT.RequestRoundTrip(t.ctx, m, u, v, hs, "");
    assert t.unread + request == request + "" == request;
    RequestHasALine(m, u, v, hs);
    StuckThenNext(t, k, request, left, w);
  }

  lemma StuckThenNext(t: Turn, k: nat, data: string, left: nat, w: WriteResult)
    requires Listening(t) && !t.aborted && !t.core.timeout && CanReport(t.core, w)
    requires data != "" && H.StatusOf(data) == H.LINE_OK && Returns(t, Arrives(data, WriteResult(0, left)))
    requires Parsed(t, data).ctx.check == H.CheckEnd && Parsed(t, data).unread == ""
    requires t.core.alive || Parsed(t, data).ctx.connection == H.KEEP_ALIVE
    ensures
      var first := Arrives(data, WriteResult(0, left));
      && Possible(t, first) && Stalls(t, first)
      && Possible(Next(t, k, first), Arrives(data, w)) && !Returns(Next(t, k, first), Arrives(data, w))
  {
    var first := Arrives(data, WriteResult(0, left));
    var keep := Parsed(t, data).ctx.connection == H.KEEP_ALIVE;
    ListensAfterRead(t.poll, k, t.core, ReadResult(|data|, keep, first.w));
    assert Next(t, k, first).unread + data == data;
    StallThenLoops(t, k, first, data, w);
  }

  lemma RequestHasALine(m: H.Method, u: string, v: H.Version, hs: seq<string>)
    requires RT.NoCr(u)
    ensures RT.RequestText(m, u, v, hs) != "" && H.StatusOf(RT.RequestText(m, u, v, hs)) == H.LINE_OK
  {
    RT.RequestLineNoCr(m, u, v);
    RT.FetchLine(RT.RequestLine(H.MethodText(m), u, H.VersionText(v)), RT.HeaderBlock(hs));
  }
}
