/** What a connection is for, over whole conversations: requests are read, answered, perhaps in several
    writes, and the kept connection listens for the next one; a connection that is not kept is closed
    and shut (TcpConnection.cpp, HttpContext.cpp). */
module Sessions {
  import opened Poller
  import opened Connections
  import opened Turns
  import H = Http
  import RT = RoundTrip

  /** The connection is open, with its books in order. */
  predicate Open(t: Turn, k: nat) {
    && !t.aborted && t.core.state == Connected && t.core.chan.index == KAdded
    && Consistent(t.poll) && Agrees(t.poll, k, t.core.chan)
  }

  /** What the kernel watches the connection for. */
  predicate WatchedFor(t: Turn, k: nat, m: Interest) {
    t.core.chan.fd in t.poll.kernel && t.poll.kernel[t.core.chan.fd] == Registration(k, m)
  }

  predicate KeptCore(c: Core) { c.alive && !c.timeout }

  // ------------------------------------------------------------- one write

  /** All that handleWrite does to an open connection, by what was sent, what is left and whether the
      connection is kept. */
  lemma WriteOutcomes(p: Poll<nat>, k: nat, c: Core, w: WriteResult)
    requires Consistent(p) && Agrees(p, k, c.chan) && c.state == Connected && c.chan.index == KAdded
    ensures
      var e := HandleWrite(p, k, c, w);
      && !e.aborted && Consistent(e.poll) && Agrees(e.poll, k, e.core.chan) && !e.timer
      && (w.bytes > 0 && w.left > 0 ==>
            e.core == c.(chan := c.chan.(events := WriteEvent)) && !e.closed && !e.reset)
      && (w.bytes > 0 && w.left == 0 && KeptCore(c) ==>
            e.core == c.(chan := c.chan.(events := ReadEvent)) && !e.closed && e.reset)
      && (w.bytes <= 0 && KeptCore(c) ==> e.core == c && !e.closed && !e.reset)
      && ((w.bytes <= 0 || w.left == 0) && !KeptCore(c) ==> e.closed && !e.reset && ClosedCore(c, e.core))
  {
    EnableCleanIff(p, k, c.chan, ReadEvent);
    EnableCleanIff(p, k, c.chan, WriteEvent);
    DisableAllCleanIff(p, k, c.chan);
  }

  /** Closed: out of the interest set, and shut for writing unless it was kept alive. */
  predicate ClosedCore(c: Core, d: Core) {
    && d.state == Disconnected && d.chan.index == KDeleted && d.chan.fd == c.chan.fd
    && d.shut == (c.shut || !c.alive)
  }

  // ---------------------------------------------------------- one event

  /** The write of an event, and whether the connection is kept when it happens. */
  function WriteOf(h: Happening): WriteResult
    requires h.Arrives? || h.Drains?
  {
    h.w
  }

  predicate KeptAt(t: Turn, h: Happening)
    requires Returns(t, h)
  {
    && !t.core.timeout
    && (t.core.alive || (h.Arrives? && Parsed(t, h.data).ctx.connection == H.KEEP_ALIVE))
  }

  /** Both kinds of event end in a write by the connection as the parse leaves it. */
  lemma EventIsWrite(t: Turn, k: nat, h: Happening)
    requires (h.Arrives? && h.data != "") || h.Drains?
    requires Returns(t, h)
    ensures
      var keep := h.Arrives? && Parsed(t, h.data).ctx.connection == H.KEEP_ALIVE;
      var e, f := Effects(t, k, h), HandleWrite(t.poll, k, t.core.(alive := t.core.alive || keep), WriteOf(h));
      e.core == f.core && e.poll == f.poll && e.reset == f.reset && e.aborted == f.aborted && e.closed == f.closed
  {
    if h.Arrives? {
      ReadIsWrite(t.poll, k, t.core,
                  ReadResult(|h.data|, Parsed(t, h.data).ctx.connection == H.KEEP_ALIVE, h.w));
    }
  }

  /** After an event that sent the rest of an answer, a kept connection listens: the kernel watches it
      for reading, and whatever data comes next can arrive. */
  lemma WholeAnswerListens(t: Turn, k: nat, h: Happening)
    requires Open(t, k) && (h.Arrives? || h.Drains?) && Possible(t, h) && Returns(t, h) && KeptAt(t, h)
    requires WriteOf(h).bytes > 0 && WriteOf(h).left == 0
    ensures
      var n := Next(t, k, h);
      && Open(n, k) && Listening(n) && WatchedFor(n, k, ReadEvent) && KeptCore(n.core)
      && (forall data: string, w: WriteResult :: data != "" && CanReport(t.core, w) ==> Possible(n, Arrives(data, w)))
  {
    EventIsWrite(t, k, h);
    WriteOutcomes(t.poll, k, t.core.(alive := true), WriteOf(h));
  }

  /** After one that left output, the connection, kept or not, is watched for writing, and the next
      write can come. */
  lemma PartialAnswerWaits(t: Turn, k: nat, h: Happening)
    requires Open(t, k) && (h.Arrives? || h.Drains?) && Possible(t, h) && Returns(t, h)
    requires WriteOf(h).bytes > 0 && WriteOf(h).left > 0
    ensures
      var n := Next(t, k, h);
      && Open(n, k) && WatchedFor(n, k, WriteEvent)
      && n.core.alive == (t.core.alive || (h.Arrives? && Parsed(t, h.data).ctx.connection == H.KEEP_ALIVE))
      && n.core.timeout == t.core.timeout && n.core.shut == t.core.shut
      && (forall w: WriteResult :: CanReport(t.core, w) ==> Possible(n, Drains(w)))
  {
    EventIsWrite(t, k, h);
    var keep := h.Arrives? && Parsed(t, h.data).ctx.connection == H.KEEP_ALIVE;
    WriteOutcomes(t.poll, k, t.core.(alive := t.core.alive || keep), WriteOf(h));
  }

  /** When nothing more is to be sent and the connection is not kept, it is closed and shut. */
  lemma UnkeptIsClosed(t: Turn, k: nat, h: Happening)
    requires Open(t, k) && (h.Arrives? || h.Drains?) && Possible(t, h) && Returns(t, h)
    requires !t.core.alive && !(h.Arrives? && Parsed(t, h.data).ctx.connection == H.KEEP_ALIVE)
    requires WriteOf(h).bytes <= 0 || WriteOf(h).left == 0
    ensures var n := Next(t, k, h); IsClosed(n) && n.core.shut && Effects(t, k, h).closed
  {
    EventIsWrite(t, k, h);
    WriteOutcomes(t.poll, k, t.core, WriteOf(h));
  }

  predicate IsClosed(t: Turn) {
    !t.aborted && t.core.state == Disconnected && t.core.chan.fd !in t.poll.kernel
  }

  /** The keep-alive timer closes the connection, and that close does not shut it for writing. */
  lemma ExpiryCloses(t: Turn, k: nat)
    requires Open(t, k) && t.core.alive
    ensures
      var n := Next(t, k, Expires);
      IsClosed(n) && n.core.timeout && n.core.shut == t.core.shut && Effects(t, k, Expires).closed
  {
    DisableAllCleanIff(t.poll, k, t.core.chan);
  }

  // ------------------------------------------------------------- conversations

  datatype Request = Request(verb: H.Method, uri: string, version: H.Version, headers: seq<string>)

  function Text(r: Request): string { RT.RequestText(r.verb, r.uri, r.version, r.headers) }

  predicate Printable(r: Request) {
    && H.IsToken(r.uri) && RT.NoCr(r.uri)
    && (forall i :: 0 <= i < |r.headers| ==> RT.HeaderText(r.headers[i]))
  }

  predicate GoodRequest(r: Request) {
    Printable(r) && forall i :: 0 <= i < |r.headers| ==> RT.Acceptable(r.headers[i])
  }

  /** The connection waits for a request, with nothing of it there yet. */
  predicate Waits(t: Turn, k: nat) {
    && Open(t, k) && Listening(t) && t.rest == NoneEvent && !t.core.timeout && !t.core.shut
    && t.ctx.check == H.CheckRequestLine && t.unread == ""
  }

  /** The arriving text is understood as the request it is, and nothing of it is left. */
  predicate ReadAs(t: Turn, r: Request)
    requires !H.Diverges(t.ctx, t.unread + Text(r))
  {
    var p := Parsed(t, Text(r));
    && p.ctx.request == H.GET_REQUEST && p.unread == ""
    && p.ctx.verb == r.verb && p.ctx.uri == r.uri && p.ctx.version == r.version
  }

  lemma TextIsThere(r: Request)
    requires Printable(r)
    ensures Text(r) != ""
  {
    RequestHasALine(r.verb, r.uri, r.version, r.headers);
  }

  lemma RequestIsRead(t: Turn, k: nat, r: Request)
    requires Waits(t, k) && GoodRequest(r)
    ensures !H.Diverges(t.ctx, t.unread + Text(r)) && ReadAs(t, r)
    ensures Parsed(t, Text(r)).ctx.connection == RT.AskedConnection(r.headers, t.ctx.connection)
    ensures forall w: WriteResult :: Possible(t, Arrives(Text(r), w))
  {
    RT.RequestRoundTrip(t.ctx, r.verb, r.uri, r.version, r.headers, "");
    assert Text(r) + "" == Text(r) && t.unread + Text(r) == Text(r);
    TextIsThere(r);
  }

  /** How the socket takes an answer: the first write sends something, each write that sends leaves
      output until the last, which sends the rest. */
  predicate TakesAnswer(ws: seq<WriteResult>) {
    && ws != [] && ws[0].bytes > 0
    && (forall i :: 0 <= i < |ws| - 1 && ws[i].bytes > 0 ==> ws[i].left > 0)
    && ws[|ws| - 1].bytes > 0 && ws[|ws| - 1].left == 0
  }

  /** The write events of an answer, one after the other. */
  predicate CanDrain(t: Turn, k: nat, ws: seq<WriteResult>)
    decreases |ws|
  {
    ws == [] || (Possible(t, Drains(ws[0])) && CanDrain(Next(t, k, Drains(ws[0])), k, ws[1..]))
  }

  function Drained(t: Turn, k: nat, ws: seq<WriteResult>): Turn
    decreases |ws|
  {
    if ws == [] then t else Drained(Next(t, k, Drains(ws[0])), k, ws[1..])
  }

  /** Half an answer is out, and the connection is kept. */
  predicate Answering(t: Turn, k: nat) {
    && Open(t, k) && t.core.chan.events == WriteEvent && KeptCore(t.core) && t.rest == NoneEvent && !t.core.shut
  }

  /** Parser and unread bytes after the reset that follows a whole answer: the next printed request is
      read as itself and asks to keep the connection by default. */
  lemma FreshAgain(t: Turn, k: nat, h: Happening)
    requires Open(t, k) && (h.Arrives? || h.Drains?) && Possible(t, h) && Returns(t, h) && KeptAt(t, h)
    requires WriteOf(h).bytes > 0 && WriteOf(h).left == 0 && !t.core.shut
    ensures Waits(Next(t, k, h), k) && KeptCore(Next(t, k, h).core)
    ensures Next(t, k, h).ctx.connection == H.KEEP_ALIVE
  {
    WholeAnswerListens(t, k, h);
    EventIsWrite(t, k, h);
    var keep := h.Arrives? && Parsed(t, h.data).ctx.connection == H.KEEP_ALIVE;
    WriteOutcomes(t.poll, k, t.core.(alive := t.core.alive || keep), WriteOf(h));
  }

  /** After an event that sent the whole answer of a kept connection, the next request is understood as
      itself, consumes exactly its bytes, and the connection stays kept. */
  lemma NextRequestIsItsOwn(t: Turn, k: nat, h: Happening, r: Request)
    requires Open(t, k) && (h.Arrives? || h.Drains?) && Possible(t, h) && Returns(t, h) && KeptAt(t, h)
    requires WriteOf(h).bytes > 0 && WriteOf(h).left == 0 && !t.core.shut && GoodRequest(r)
    ensures
      var n := Next(t, k, h);
      && !H.Diverges(n.ctx, n.unread + Text(r)) && ReadAs(n, r)
      && Parsed(n, Text(r)).ctx.connection == H.KEEP_ALIVE
      && forall w: WriteResult :: Possible(n, Arrives(Text(r), w)) && KeptAt(n, Arrives(Text(r), w))
  {
    FreshAgain(t, k, h);
    RequestIsRead(Next(t, k, h), k, r);
  }

  /** Once an answer has begun, its remaining writes bring the connection back to waiting. */
  lemma {:induction false} DrainingEnds(t: Turn, k: nat, ws: seq<WriteResult>)
    requires Answering(t, k) && ws != []
    requires forall i :: 0 <= i < |ws| - 1 && ws[i].bytes > 0 ==> ws[i].left > 0
    requires ws[|ws| - 1].bytes > 0 && ws[|ws| - 1].left == 0
    ensures CanDrain(t, k, ws) && Waits(Drained(t, k, ws), k) && KeptCore(Drained(t, k, ws).core)
    ensures Drained(t, k, ws).ctx.connection == H.KEEP_ALIVE
    decreases |ws|
  {
    var h := Drains(ws[0]);
    var n := Next(t, k, h);
    if |ws| == 1 {
      FreshAgain(t, k, h);
      assert ws[1..] == [];
    } else {
      StillAnswering(t, k, ws[0]);
      assert forall i :: 0 <= i < |ws[1..]| ==> ws[1..][i] == ws[i + 1];
      DrainingEnds(n, k, ws[1..]);
    }
  }

  lemma StillAnswering(t: Turn, k: nat, w: WriteResult)
    requires Answering(t, k) && (w.bytes > 0 ==> w.left > 0)
    ensures Answering(Next(t, k, Drains(w)), k)
  {
    WriteOutcomes(t.poll, k, t.core, w);
  }

  /** A request with the writes that answer it. */
  datatype Exchange = Exchange(request: Request, writes: seq<WriteResult>)

  predicate GoodExchanges(xs: seq<Exchange>) {
    forall i :: 0 <= i < |xs| ==> GoodRequest(xs[i].request) && TakesAnswer(xs[i].writes)
  }

  /** Every request of a conversation arrives at a connection that waits for it, is understood as
      itself, is answered to the end, and leaves the connection waiting for the next one. */
  predicate Served(t: Turn, k: nat, xs: seq<Exchange>)
    requires GoodExchanges(xs)
    decreases |xs|
  {
    xs != [] ==>
      var x := xs[0];
      var h := Arrives(Text(x.request), x.writes[0]);
      && Possible(t, h) && Returns(t, h) && ReadAs(t, x.request)
      && CanDrain(Next(t, k, h), k, x.writes[1..])
      && var n := Drained(Next(t, k, h), k, x.writes[1..]);
         Waits(n, k) && KeptCore(n.core) && WatchedFor(n, k, ReadEvent) && Served(n, k, xs[1..])
  }

  lemma ExchangeEnds(t: Turn, k: nat, x: Exchange)
    requires Waits(t, k) && GoodRequest(x.request) && TakesAnswer(x.writes)
    requires t.core.alive || RT.AskedConnection(x.request.headers, t.ctx.connection) == H.KEEP_ALIVE
    ensures
      var h := Arrives(Text(x.request), x.writes[0]);
      && Possible(t, h) && Returns(t, h) && ReadAs(t, x.request)
      && CanDrain(Next(t, k, h), k, x.writes[1..])
      && var n := Drained(Next(t, k, h), k, x.writes[1..]);
         Waits(n, k) && KeptCore(n.core)
  {
    RequestIsRead(t, k, x.request);
    AnswerEnds(t, k, Text(x.request), x.writes);
  }

  lemma AnswerEnds(t: Turn, k: nat, data: string, ws: seq<WriteResult>)
    requires Waits(t, k) && TakesAnswer(ws)
    requires var h := Arrives(data, ws[0]); Possible(t, h) && Returns(t, h) && KeptAt(t, h)
    ensures
      var m := Next(t, k, Arrives(data, ws[0]));
      CanDrain(m, k, ws[1..]) && Waits(Drained(m, k, ws[1..]), k) && KeptCore(Drained(m, k, ws[1..]).core)
  {
    var h := Arrives(data, ws[0]);
    if |ws| == 1 {
      FreshAgain(t, k, h);
      assert ws[1..] == [];
    } else {
      BeginsAnswering(t, k, h);
      LaterWrites(ws);
      DrainingEnds(Next(t, k, h), k, ws[1..]);
    }
  }

  lemma BeginsAnswering(t: Turn, k: nat, h: Happening)
    requires Waits(t, k) && h.Arrives? && Possible(t, h) && Returns(t, h) && KeptAt(t, h)
    requires h.w.bytes > 0 && h.w.left > 0
    ensures Answering(Next(t, k, h), k)
  {
    PartialAnswerWaits(t, k, h);
  }

  lemma LaterWrites(ws: seq<WriteResult>)
    requires TakesAnswer(ws) && |ws| > 1
    ensures
      var vs := ws[1..];
      && vs != [] && vs[|vs| - 1] == ws[|ws| - 1]
      && (forall i :: 0 <= i < |vs| - 1 && vs[i].bytes > 0 ==> vs[i].left > 0)
  {
    assert forall i :: 0 <= i < |ws[1..]| ==> ws[1..][i] == ws[i + 1];
  }

  /** Any number of requests on one connection: once one of them is kept, all are served. */
  lemma {:induction false} KeptConnectionServesAll(t: Turn, k: nat, xs: seq<Exchange>)
    requires Waits(t, k) && GoodExchanges(xs) && xs != []
    requires t.core.alive || RT.AskedConnection(xs[0].request.headers, t.ctx.connection) == H.KEEP_ALIVE
    ensures Served(t, k, xs)
    decreases |xs|
  {
    var x := xs[0];
    ExchangeEnds(t, k, x);
    var n := Drained(Next(t, k, Arrives(Text(x.request), x.writes[0])), k, x.writes[1..]);
    if |xs| > 1 {
      KeptConnectionServesAll(n, k, xs[1..]);
    }
  }

  // ---------------------------------------------------------- from the beginning

  /** A connection as connectEstablished leaves it. */
  function Established(p: Poll<nat>, k: nat, fd: int): Turn {
    var e := ConnectEstablished(p, k, Core(Connecting, false, false, false, Chan(fd, KNew, NoneEvent)));
    Turn(e.poll, e.core, H.INITIAL, "", NoneEvent, e.aborted)
  }

  lemma EstablishedWaits(p: Poll<nat>, k: nat, fd: int)
    requires Consistent(p) && fd !in p.channels && forall g :: g in p.channels ==> p.channels[g] != k
    ensures Waits(Established(p, k, fd), k) && !Established(p, k, fd).core.alive
    ensures Established(p, k, fd).ctx.connection == H.CLOSE
  {
    EnableCleanIff(p, k, Chan(fd, KNew, NoneEvent), ReadEvent);
  }

  /** From the first request on: a client that asks to keep the connection is served as long as it
      likes. */
  lemma NewConnectionServesAll(p: Poll<nat>, k: nat, fd: int, xs: seq<Exchange>)
    requires Consistent(p) && fd !in p.channels && forall g :: g in p.channels ==> p.channels[g] != k
    requires GoodExchanges(xs) && xs != []
    requires exists i :: 0 <= i < |xs[0].request.headers| && H.IsKeepAliveHeader(xs[0].request.headers[i])
    ensures Served(Established(p, k, fd), k, xs)
  {
    EstablishedWaits(p, k, fd);
    KeptConnectionServesAll(Established(p, k, fd), k, xs);
  }

  /** A first request that does not ask to keep the connection, be it accepted or refused for its
      Connection header, is answered, and with the last byte sent the connection is closed and shut. */
  lemma UnkeptRequestIsAnsweredAndClosed(p: Poll<nat>, k: nat, fd: int, r: Request, sent: int)
    requires Consistent(p) && fd !in p.channels && forall g :: g in p.channels ==> p.channels[g] != k
    requires Printable(r) && sent > 0
    requires forall i :: 0 <= i < |r.headers| ==> !H.IsKeepAliveHeader(r.headers[i])
    ensures
      var t, h := Established(p, k, fd), Arrives(Text(r), WriteResult(sent, 0));
      && Possible(t, h) && Returns(t, h)
      && (Parsed(t, Text(r)).ctx.request == H.GET_REQUEST <==> GoodRequest(r))
      && IsClosed(Next(t, k, h)) && Next(t, k, h).core.shut && Effects(t, k, h).closed && !Effects(t, k, h).timer
  {
    var t, h := Established(p, k, fd), Arrives(Text(r), WriteResult(sent, 0));
    EstablishedWaits(p, k, fd);
    TextIsThere(r);
    RT.RequestRoundTrip(t.ctx, r.verb, r.uri, r.version, r.headers, "");
    assert Text(r) + "" == Text(r) && t.unread + Text(r) == Text(r);
    UnkeptIsClosed(t, k, h);
  }
}
