/** The per-connection state machine (TcpConnection.cpp) as functions: what each handler does to the
    connection, its channel and the poller, given what the kernel reports. */
module Connections {
  import opened Poller

  datatype ConnState = Connecting | Connected | Disconnected | Disconnecting

  /** `shut`: the socket has been shut down for writing. */
  datatype Core = Core(state: ConnState, alive: bool, timeout: bool, shut: bool, chan: Chan)

  /** What writeToFd reported and how much output is left. */
  datatype WriteResult = WriteResult(bytes: int, left: nat)

  /** What readFromFd reported, whether the parsed request asks to keep the connection, and the
      write that follows a successful read. */
  datatype ReadResult = ReadResult(bytes: int, keepAlive: bool, write: WriteResult)

  /** A socket that is shut for writing accepts no byte: write fails with EPIPE. */
  predicate CanReport(c: Core, w: WriteResult) { c.shut ==> w.bytes <= 0 }

  /** `closed`: the close callback was called; `timer`: a timer for this connection was added;
      `reset`: the parser was reset; `aborted`: a LOG_FATAL was reached; `troubled`: the poller
      reported an error, fatal or not. */
  datatype Effect<K> = Effect(poll: Poll<K>, core: Core,
                              closed: bool, timer: bool, reset: bool, aborted: bool, troubled: bool)

  function Unchanged<K>(p: Poll<K>, c: Core): Effect<K> { Effect(p, c, false, false, false, false, false) }

  function Polled<K>(o: Outcome<K>, c: Core): Effect<K> {
    Effect(o.poll, c.(chan := o.chan), false, false, false, o.fatal, o.logged || o.fatal)
  }

  function HandleClose<K(==)>(p: Poll<K>, k: K, c: Core): Effect<K> {
    if c.alive && !c.timeout then Unchanged(p, c)
    else if c.state != Connected && c.state != Disconnecting then Unchanged(p, c).(aborted := true)
    else
      var e := Polled(DisableAll(p, k, c.chan), c.(state := Disconnected, shut := c.shut || !c.alive));
      e.(closed := !e.aborted)
  }

  function HandleWrite<K(==)>(p: Poll<K>, k: K, c: Core, w: WriteResult): Effect<K> {
    if w.bytes < 0 then HandleClose(p, k, c)
    else if w.bytes == 0 then HandleClose(p, k, c)
    else if w.left > 0 then Polled(Enable(p, k, c.chan, WriteEvent), c)
    else if c.alive && !c.timeout then Polled(Enable(p, k, c.chan, ReadEvent), c).(reset := true)
    else HandleClose(p, k, c)
  }

  function HandleRead<K(==)>(p: Poll<K>, k: K, c: Core, r: ReadResult): Effect<K> {
    if r.bytes <= 0 then HandleClose(p, k, c)
    else if !c.alive && r.keepAlive then HandleWrite(p, k, c.(alive := true), r.write).(timer := true)
    else HandleWrite(p, k, c, r.write)
  }

  /** For received data, handleRead is handleWrite after the keep-alive decision. */
  lemma ReadIsWrite<K>(p: Poll<K>, k: K, c: Core, r: ReadResult)
    requires r.bytes > 0
    ensures HandleRead(p, k, c, r)
         == HandleWrite(p, k, c.(alive := c.alive || r.keepAlive), r.write).(timer := !c.alive && r.keepAlive)
  {
  }

  function CloseLongConnection<K(==)>(p: Poll<K>, k: K, c: Core): Effect<K> {
    HandleClose(p, k, c.(timeout := true))
  }

  function ConnectEstablished<K(==)>(p: Poll<K>, k: K, c: Core): Effect<K> {
    Polled(Enable(p, k, c.chan, ReadEvent), c.(state := Connected))
  }

  function ConnectDestroyed<K(==)>(p: Poll<K>, k: K, c: Core): Effect<K> {
    if c.state == Connected then
      var o := DisableAll(p, k, c.chan);
      var q := Remove(o.poll, k, o.chan);
      Polled(q.(logged := o.logged || q.logged, fatal := o.fatal || q.fatal), c.(state := Disconnected))
    else Polled(Remove(p, k, c.chan), c)
  }

  /** handleWrite would enable the channel of a connection that is closed already, since no handler
      checks the state before enabling. */
  predicate WriteRearms(c: Core, w: WriteResult) {
    c.state == Disconnected && w.bytes > 0 && (w.left > 0 || (c.alive && !c.timeout))
  }

  predicate ReadRearms(c: Core, r: ReadResult) {
    r.bytes > 0 && WriteRearms(c.(alive := c.alive || r.keepAlive), r.write)
  }

  /** What WriteRearms and ReadRearms say: exactly then a handler puts a closed connection, whose
      channel is disabled, back into the poller. */
  lemma RearmsIff<K>(p: Poll<K>, k: K, c: Core, r: ReadResult)
    requires c.state == Disconnected && c.chan.index == KDeleted
    ensures HandleWrite(p, k, c, r.write).core.chan.index == KAdded <==> WriteRearms(c, r.write)
    ensures HandleRead(p, k, c, r).core.chan.index == KAdded <==> ReadRearms(c, r)
  {
  }

  /** The shutdown in handleClose is what rules that out. */
  lemma ShutNeverRearms(c: Core, r: ReadResult)
    requires c.shut && CanReport(c, r.write)
    ensures !WriteRearms(c, r.write) && !ReadRearms(c, r)
  {
  }
}

/** The connection object itself, with its buffers, its parser, its channel and its loop's poller. */
module ConnectionObjects {
  import opened Buffers
  import opened Http
  import opened HttpContexts
  import opened Poller
  import opened PollerObjects
  import opened Connections

  lemma AppendToAll(wire: string, out: string, more: string)
    ensures wire + (out + more) == (wire + out) + more
  {
  }

  lemma MovedToWire(wire: string, out: string, n: nat)
    requires n <= |out|
    ensures (wire + out[..n]) + out[n..] == wire + out
  {
  }

  /** The parser and the unread bytes once a handler has returned. */
  function AfterReset(reset: bool, p: Parse): Parse {
    if reset then Parse(ResetSpec(p.ctx), "") else p
  }

  class TcpConnection {
    var state: ConnState
    var alive: bool
    var timeout: bool
    var shut: bool                   // the socket is shut down for writing
    const channel: Channel
    const epoll: Epoll
    const input: Buffer
    const output: Buffer
    const context: HttpContext
    ghost var wire: seq<char>        // bytes the socket has accepted
    ghost var responses: seq<char>   // all responses, in order

    ghost predicate Valid()
      reads this, context, input, output, input.store, output.store
    {
      && context.input == input && context.output == output && context.Valid()
      && wire + output.Contents() == responses
    }

    ghost function Value(): Core
      reads this, channel
    {
      Core(state, alive, timeout, shut, channel.Value())
    }

    constructor (fd: int, epoll: Epoll)
      ensures Valid() && fresh(channel) && fresh(context) && fresh(input) && fresh(output)
      ensures fresh(input.store) && fresh(output.store)
      ensures this.epoll == epoll
      ensures Value() == Core(Connecting, false, false, false, Chan(fd, KNew, NoneEvent))
      ensures context.Value() == INITIAL && input.Contents() == [] && responses == []
    {
      var i := new Buffer();
      var o := new Buffer();
      var c := new HttpContext(i, o);
      input, output, context := i, o, c;
      state, alive, timeout, shut := Connecting, false, false, false;
      channel := new Channel(fd);
      this.epoll := epoll;
      wire, responses := [], [];
    }

    method ConnectEstablished() returns (aborted: bool, troubled: bool)
      modifies this`state, channel, epoll
      ensures Effect(epoll.Value(), Value(), false, false, false, aborted, troubled)
           == Connections.ConnectEstablished(old(epoll.Value()), channel, old(Value()))
    {
      state := Connected;
      troubled, aborted := channel.EnableReading(epoll);
      troubled := troubled || aborted;
    }

    method ConnectDestroyed() returns (aborted: bool, troubled: bool)
      modifies this`state, channel, epoll
      ensures Effect(epoll.Value(), Value(), false, false, false, aborted, troubled)
           == Connections.ConnectDestroyed(old(epoll.Value()), channel, old(Value()))
    {
      var l, f := false, false;
      if state == Connected {
        state := Disconnected;
        l, f := channel.DisableAll(epoll);
      }
      troubled, aborted := channel.Remove(epoll);
      aborted := aborted || f;
      troubled := troubled || l || aborted;
    }

    method HandleClose() returns (closed: bool, aborted: bool, troubled: bool)
      modifies this`state, this`shut, channel, epoll
      ensures Effect(epoll.Value(), Value(), closed, false, false, aborted, troubled)
           == Connections.HandleClose(old(epoll.Value()), channel, old(Value()))
    {
      if alive && !timeout {
        return false, false, false;
      }
      if state != Connected && state != Disconnecting {
        return false, true, false;
      }
      state := Disconnected;
      troubled, aborted := channel.DisableAll(epoll);
      troubled := troubled || aborted;
      if !alive {
        shut := true;
      }
      closed := !aborted;
    }

    method CloseLongConnection() returns (closed: bool, aborted: bool, troubled: bool)
      modifies this`state, this`timeout, this`shut, channel, epoll
      ensures Effect(epoll.Value(), Value(), closed, false, false, aborted, troubled)
           == Connections.CloseLongConnection(old(epoll.Value()), channel, old(Value()))
    {
      timeout := true;
      closed, aborted, troubled := HandleClose();
    }

    /** Sends what the socket accepts; the accepted bytes move from the output queue to the wire. */
    method HandleWrite(os: seq<WriteOutcome>) returns (closed: bool, reset: bool, aborted: bool, troubled: bool)
      requires Valid() && WriteScript(os, |output.Contents()|)
      requires shut ==> AcceptedCount(os) == 0
      modifies this`state, this`shut, this`wire, channel, epoll, context, output`readIndex, output`writeIndex,
               input`readIndex, input`writeIndex
      ensures Valid() && responses == old(responses)
      ensures wire == old(wire) + old(output.Contents())[..AcceptedCount(os)]
      ensures Effect(epoll.Value(), Value(), closed, false, reset, aborted, troubled)
           == Connections.HandleWrite(old(epoll.Value()), channel, old(Value()),
                            WriteResult(WriteReport(os), |output.Contents()|))
      ensures Parse(context.Value(), input.Contents())
           == AfterReset(reset, Parse(old(context.Value()), old(input.Contents())))
    {
      closed, reset, aborted, troubled := false, false, false, false;
      var bytes := Send(os);
      if bytes < 0 {
        closed, aborted, troubled := HandleClose();
      } else if bytes == 0 && output.ReadableBytes() == 0 {
        closed, aborted, troubled := HandleClose();
      } else if bytes == 0 && output.ReadableBytes() > 0 {
        closed, aborted, troubled := HandleClose();
      } else if bytes > 0 && output.ReadableBytes() > 0 {
        troubled, aborted := channel.EnableWriting(epoll);
        troubled := troubled || aborted;
      } else if bytes > 0 && alive && !timeout {
        context.Reset();
        reset := true;
        troubled, aborted := channel.EnableReading(epoll);
        troubled := troubled || aborted;
      } else {
        closed, aborted, troubled := HandleClose();
      }
    }

    /** Reads what the socket delivers, parses it, answers, and keeps the connection when asked to. */
    method HandleRead(got: seq<ReadOutcome>, sent: seq<WriteOutcome>, response: string)
      returns (closed: bool, timer: bool, reset: bool, aborted: bool, troubled: bool)
      requires Valid() && ReadScript(got)
      requires ReadReport(got) > 0 ==>
                 && !Diverges(context.Value(), input.Contents() + Delivered(got))
                 && WriteScript(sent, |output.Contents() + response|)
                 && (shut ==> AcceptedCount(sent) == 0)
      modifies this, channel, epoll, context, input, input.store, output, output.store
      ensures Valid()
      ensures responses == old(responses) + if ReadReport(got) > 0 then response else []
      ensures wire == old(wire)
                    + if ReadReport(got) > 0 then (old(output.Contents()) + response)[..AcceptedCount(sent)] else []
      ensures ReadReport(got) > 0 ==>
                var p := Handle(old(context.Value()), old(input.Contents()) + Delivered(got));
                && Effect(epoll.Value(), Value(), closed, timer, reset, aborted, troubled)
                == Connections.HandleRead(old(epoll.Value()), channel, old(Value()),
                     ReadResult(ReadReport(got), p.ctx.connection == KEEP_ALIVE,
                                WriteResult(WriteReport(sent), |output.Contents()|)))
                && Parse(context.Value(), input.Contents()) == AfterReset(reset, p)
      ensures ReadReport(got) <= 0 ==>
                && Effect(epoll.Value(), Value(), closed, timer, reset, aborted, troubled)
                == Connections.HandleClose(old(epoll.Value()), channel, old(Value()))
                && context.Value() == old(context.Value())
                && input.Contents() == old(input.Contents()) + Delivered(got)
    {
      closed, timer, reset, aborted, troubled := false, false, false, false, false;
      var bytes := input.ReadFromFd(got);
      if bytes > 0 {
        closed, timer, reset, aborted, troubled := OnData(bytes, sent, response);
      } else {
        closed, aborted, troubled := HandleClose();
      }
    }

    /** The branch of handleRead for received data. */
    method OnData(bytes: int, sent: seq<WriteOutcome>, response: string)
      returns (closed: bool, timer: bool, reset: bool, aborted: bool, troubled: bool)
      requires Valid() && bytes > 0 && !Diverges(context.Value(), input.Contents())
      requires WriteScript(sent, |output.Contents() + response|) && (shut ==> AcceptedCount(sent) == 0)
      modifies this, channel, epoll, context, input`readIndex, input`writeIndex, output, output.store
      ensures Valid() && responses == old(responses) + response
      ensures wire == old(wire) + (old(output.Contents()) + response)[..AcceptedCount(sent)]
      ensures
        var p := Handle(old(context.Value()), old(input.Contents()));
        && Effect(epoll.Value(), Value(), closed, timer, reset, aborted, troubled)
        == Connections.HandleRead(old(epoll.Value()), channel, old(Value()),
             ReadResult(bytes, p.ctx.connection == KEEP_ALIVE, WriteResult(WriteReport(sent), |output.Contents()|)))
        && Parse(context.Value(), input.Contents()) == AfterReset(reset, p)
    {
      Answer(response);
      closed, timer, reset, aborted, troubled := KeepAndWrite(bytes, sent);
    }

    /** The rest of the branch, once the response is in the output queue. */
    method KeepAndWrite(bytes: int, sent: seq<WriteOutcome>)
      returns (closed: bool, timer: bool, reset: bool, aborted: bool, troubled: bool)
      requires Valid() && bytes > 0
      requires WriteScript(sent, |output.Contents()|) && (shut ==> AcceptedCount(sent) == 0)
      modifies this, channel, epoll, context, input`readIndex, input`writeIndex, output`readIndex, output`writeIndex
      ensures Valid() && responses == old(responses)
      ensures wire == old(wire) + old(output.Contents())[..AcceptedCount(sent)]
      ensures Effect(epoll.Value(), Value(), closed, timer, reset, aborted, troubled)
           == Connections.HandleRead(old(epoll.Value()), channel, old(Value()),
                ReadResult(bytes, old(context.Value()).connection == KEEP_ALIVE,
                           WriteResult(WriteReport(sent), |output.Contents()|)))
      ensures Parse(context.Value(), input.Contents())
           == AfterReset(reset, Parse(old(context.Value()), old(input.Contents())))
    {
      timer := StayAlive();
      ghost var kept := Value();
      closed, reset, aborted, troubled := HandleWrite(sent);
      ghost var w := WriteResult(WriteReport(sent), |output.Contents()|);
      ReadIsWrite(old(epoll.Value()), channel, old(Value()),
                  ReadResult(bytes, old(context.Value()).connection == KEEP_ALIVE, w));
      assert kept == old(Value()).(alive := kept.alive);
    }

    /** The keep-alive decision of handleRead; the timer is added when it is taken. */
    method StayAlive() returns (timer: bool)
      modifies this`alive
      ensures timer == (!old(alive) && context.Value().connection == KEEP_ALIVE)
      ensures alive == (old(alive) || timer)
    {
      timer := !alive && context.IsKeepAlive();
      if timer {
        alive := true;
      }
    }

    /** handleHttpRequest: one response goes to the output queue. */
    method Answer(response: string)
      requires Valid() && !Diverges(context.Value(), input.Contents())
      modifies this`responses, context, input`readIndex, output, output.store
      ensures Valid() && (output.store == old(output.store) || fresh(output.store))
      ensures Parse(context.Value(), input.Contents()) == Handle(old(context.Value()), old(input.Contents()))
      ensures output.Contents() == old(output.Contents()) + response
      ensures responses == old(responses) + response
    {
      ghost var out := output.Contents();
      context.Work(response);
      AppendToAll(wire, out, response);
      responses := responses + response;
    }

    /** The call of writeToFd. */
    method Send(os: seq<WriteOutcome>) returns (bytes: int)
      requires Valid() && WriteScript(os, |output.Contents()|)
      modifies this`wire, output`readIndex, output`writeIndex
      ensures Valid()
      ensures bytes == WriteReport(os)
      ensures wire == old(wire) + old(output.Contents())[..AcceptedCount(os)]
      ensures |output.Contents()| == |old(output.Contents())| - AcceptedCount(os)
      ensures input.Contents() == old(input.Contents())
    {
      ghost var out, n := output.Contents(), AcceptedCount(os);
      assert os[..|os|] == os;
      bytes := output.WriteToFd(os);
      MovedToWire(wire, out, n);
      wire := wire + out[..n];
    }
  }
}
