/** Poller bookkeeping (Epoll.cpp, Channel.cpp): a channel's index, the fd-to-channel map and the
    kernel's interest set.

    The functions follow the source branch by branch; `K` names channels (a reference in the
    classes below, a connection number in module Lifecycle).
 */
module Poller {

  datatype Index = KNew | KAdded | KDeleted

  /** m_events; the server only ever assigns one of the three constants. */
  datatype Interest = NoneEvent | ReadEvent | WriteEvent

  datatype Chan = Chan(fd: int, index: Index, events: Interest)

  datatype Registration<K> = Registration(key: K, mask: Interest)

  /** m_channels, and what the kernel holds for this epoll instance. */
  datatype Poll<K> = Poll(channels: map<int, K>, kernel: map<int, Registration<K>>)

  /** What an operation leaves behind; `logged` and `fatal` tell whether an error was reported. */
  datatype Outcome<K> = Outcome(poll: Poll<K>, chan: Chan, logged: bool, fatal: bool)

  datatype Ctl = CtlAdd | CtlMod | CtlDel

  /** epoll_ctl fails on adding a present fd and on changing or deleting an absent one. */
  predicate CtlFails<K>(kernel: map<int, Registration<K>>, op: Ctl, fd: int) {
    if op == CtlAdd then fd in kernel else fd !in kernel
  }

  function CtlEffect<K>(kernel: map<int, Registration<K>>, op: Ctl, k: K, ch: Chan): map<int, Registration<K>> {
    if CtlFails(kernel, op, ch.fd) then kernel
    else if op == CtlDel then kernel - {ch.fd}
    else kernel[ch.fd := Registration(k, ch.events)]
  }

  /** Epoll::update: a failed DEL is logged, a failed ADD or MOD is fatal. */
  function Update<K>(p: Poll<K>, op: Ctl, k: K, ch: Chan, logged: bool): Outcome<K> {
    var fails := CtlFails(p.kernel, op, ch.fd);
    Outcome(p.(kernel := CtlEffect(p.kernel, op, k, ch)), ch,
            logged || (fails && op == CtlDel), fails && op != CtlDel)
  }

  predicate Mapped<K(==)>(p: Poll<K>, k: K, fd: int) { fd in p.channels && p.channels[fd] == k }

  /** Epoll::updateChannel. */
  function UpdateChannel<K(==)>(p: Poll<K>, k: K, ch: Chan): Outcome<K> {
    match ch.index
    case KNew =>
      Update(p.(channels := p.channels[ch.fd := k]), CtlAdd, k, ch.(index := KAdded), ch.fd in p.channels)
    case KDeleted =>
      Update(p, CtlAdd, k, ch.(index := KAdded), !Mapped(p, k, ch.fd))
    case KAdded =>
      if ch.events == NoneEvent then
        var o := Update(p, CtlDel, k, ch, !Mapped(p, k, ch.fd));
        o.(chan := o.chan.(index := KDeleted))
      else Update(p, CtlMod, k, ch, !Mapped(p, k, ch.fd))
  }

  /** Epoll::removeChannel. */
  function RemoveChannel<K(==)>(p: Poll<K>, k: K, ch: Chan): Outcome<K> {
    if Mapped(p, k, ch.fd) && ch.events == NoneEvent && ch.index != KNew then
      var q := p.(channels := p.channels - {ch.fd});
      var o := if ch.index == KAdded then Update(q, CtlDel, k, ch, false) else Outcome(q, ch, false, false);
      o.(chan := o.chan.(index := KNew))
    else Outcome(p, ch, false, false)
  }

  /** Channel::enableReading and enableWriting. */
  function Enable<K(==)>(p: Poll<K>, k: K, ch: Chan, mask: Interest): Outcome<K> {
    UpdateChannel(p, k, ch.(events := mask))
  }

  /** Channel::disableAll. */
  function DisableAll<K(==)>(p: Poll<K>, k: K, ch: Chan): Outcome<K> {
    UpdateChannel(p, k, ch.(events := NoneEvent))
  }

  /** Channel::remove: the index is forced to kDeleted before the poller sees it. */
  function Remove<K(==)>(p: Poll<K>, k: K, ch: Chan): Outcome<K> {
    RemoveChannel(p, k, ch.(index := KDeleted))
  }

  // ------------------------------------------------------------- agreement

  /** What the kernel holds is what the map holds. */
  predicate Consistent<K(==)>(p: Poll<K>) {
    forall fd :: fd in p.kernel ==> fd in p.channels && p.kernel[fd].key == p.channels[fd]
  }

  /** The three books agree on channel `k`. */
  predicate Agrees<K(==)>(p: Poll<K>, k: K, ch: Chan) {
    match ch.index
    case KNew => !Mapped(p, k, ch.fd) && ch.events == NoneEvent
    case KAdded => Mapped(p, k, ch.fd) && ch.events != NoneEvent
                && ch.fd in p.kernel && p.kernel[ch.fd] == Registration(k, ch.events)
    case KDeleted => Mapped(p, k, ch.fd) && ch.events == NoneEvent && ch.fd !in p.kernel
  }

  /** An operation is clean when it reports nothing and the books agree afterwards. */
  predicate Clean<K(==)>(o: Outcome<K>, k: K) {
    !o.logged && !o.fatal && Consistent(o.poll) && Agrees(o.poll, k, o.chan)
  }

  /** Enabling is clean exactly when a new channel's fd is not in the map under another channel. */
  lemma EnableCleanIff<K>(p: Poll<K>, k: K, ch: Chan, mask: Interest)
    requires Consistent(p) && Agrees(p, k, ch) && mask != NoneEvent
    ensures Clean(Enable(p, k, ch, mask), k) <==> (ch.index == KNew ==> ch.fd !in p.channels)
  {
  }

  /** disableAll is clean exactly while the channel is kAdded: a second call re-adds the fd. */
  lemma DisableAllCleanIff<K>(p: Poll<K>, k: K, ch: Chan)
    requires Consistent(p) && Agrees(p, k, ch)
    ensures Clean(DisableAll(p, k, ch), k) <==> ch.index == KAdded
  {
  }

  /** remove is clean exactly after disableAll has put the channel into kDeleted. */
  lemma RemoveCleanIff<K>(p: Poll<K>, k: K, ch: Chan)
    requires Consistent(p) && Agrees(p, k, ch)
    ensures Clean(Remove(p, k, ch), k) <==> ch.index == KDeleted
    ensures ch.index == KDeleted ==> Remove(p, k, ch).chan.index == KNew && ch.fd !in Remove(p, k, ch).poll.channels
  {
  }

  /** Whatever the books say, an enable is fatal exactly when the kernel has to refuse it: adding an fd
      it watches already, or changing one it does not.  It is logged exactly when the map is wrong. */
  lemma EnableReports<K>(p: Poll<K>, k: K, ch: Chan, mask: Interest)
    requires mask != NoneEvent
    ensures
      var o := Enable(p, k, ch, mask);
      && (o.fatal <==> (ch.index == KAdded) != (ch.fd in p.kernel))
      && (o.logged <==> if ch.index == KNew then ch.fd in p.channels else !Mapped(p, k, ch.fd))
  {
  }

  /** disableAll is fatal exactly when it adds what is there; taking out what is not there is logged. */
  lemma DisableAllReports<K>(p: Poll<K>, k: K, ch: Chan)
    ensures
      var o := DisableAll(p, k, ch);
      && (o.fatal <==> ch.index != KAdded && ch.fd in p.kernel)
      && (ch.index == KAdded ==> (o.logged <==> !Mapped(p, k, ch.fd) || ch.fd !in p.kernel))
      && (ch.index != KAdded && !o.fatal ==> ch.fd in o.poll.kernel)
  {
  }

  /** remove, which forces the index, never reports anything and never asks the kernel. */
  lemma RemoveIsSilent<K>(p: Poll<K>, k: K, ch: Chan)
    ensures var o := Remove(p, k, ch); !o.fatal && !o.logged && o.poll.kernel == p.kernel
    ensures
      Remove(p, k, ch).poll.channels ==
        if Mapped(p, k, ch.fd) && ch.events == NoneEvent then p.channels - {ch.fd} else p.channels
  {
  }

  /** What goes wrong otherwise: disableAll twice and then remove leaves the fd in the kernel set
      with no channel in the map. */
  lemma DisableTwiceLeaks<K>(p: Poll<K>, k: K, ch: Chan)
    requires Consistent(p) && Agrees(p, k, ch) && ch.index == KAdded
    ensures
      var once := DisableAll(p, k, ch);
      var twice := DisableAll(once.poll, k, once.chan);
      var gone := Remove(twice.poll, k, twice.chan);
      ch.fd in gone.poll.kernel && ch.fd !in gone.poll.channels && !Consistent(gone.poll)
  {
    var once := DisableAll(p, k, ch);
    var twice := DisableAll(once.poll, k, once.chan);
    var gone := Remove(twice.poll, k, twice.chan);
    assert ch.fd in gone.poll.kernel && ch.fd !in gone.poll.channels;
  }

  /** The operations touch no entry of another fd, so they leave every other channel agreeing. */
  lemma OthersKeepAgreeing<K>(p: Poll<K>, k: K, ch: Chan, j: K, other: Chan, mask: Interest)
    requires j != k && Agrees(p, j, other)
    requires ch.index == KNew ==> ch.fd !in p.channels
    requires ch.index != KNew ==> Mapped(p, k, ch.fd)
    ensures Agrees(UpdateChannel(p, k, ch.(events := mask)).poll, j, other)
    ensures Agrees(Remove(p, k, ch).poll, j, other)
  {
  }

  // ------------------------------------------------------------------ runs

  /** A poller with any number of channels, and whether any error was ever reported. */
  datatype System<K> = System(poll: Poll<K>, chans: map<K, Chan>, troubled: bool)

  datatype Op<K> = Enabling(k: K, mask: Interest) | Disabling(k: K) | Removing(k: K)

  function OutcomeOf<K(==)>(s: System<K>, op: Op<K>): Outcome<K>
    requires op.k in s.chans
  {
    match op
    case Enabling(k, mask) => Enable(s.poll, k, s.chans[k], mask)
    case Disabling(k) => DisableAll(s.poll, k, s.chans[k])
    case Removing(k) => Remove(s.poll, k, s.chans[k])
  }

  function ApplyOp<K(==)>(s: System<K>, op: Op<K>): System<K>
    requires op.k in s.chans
  {
    var o := OutcomeOf(s, op);
    System(o.poll, s.chans[op.k := o.chan], s.troubled || o.logged || o.fatal)
  }

  /** The server's call discipline. */
  predicate Disciplined<K(==)>(s: System<K>, op: Op<K>) {
    && op.k in s.chans
    && var ch := s.chans[op.k];
       match op
       case Enabling(_, mask) => mask != NoneEvent && (ch.index == KNew ==> ch.fd !in s.poll.channels)
       case Disabling(_) => ch.index == KAdded
       case Removing(_) => ch.index == KDeleted
  }

  predicate Good<K(==)>(s: System<K>) {
    && !s.troubled
    && Consistent(s.poll)
    && (forall k :: k in s.chans ==> Agrees(s.poll, k, s.chans[k]))
    && (forall fd :: fd in s.poll.channels ==>
          s.poll.channels[fd] in s.chans && s.chans[s.poll.channels[fd]].fd == fd)
  }

  /** A single operation by a good system's caller is harmless exactly when it is disciplined. */
  lemma StepGoodIff<K>(s: System<K>, op: Op<K>)
    requires Good(s) && op.k in s.chans && (op.Enabling? ==> op.mask != NoneEvent)
    ensures Good(ApplyOp(s, op)) <==> Disciplined(s, op)
  {
    var k, ch, t, o := op.k, s.chans[op.k], ApplyOp(s, op), OutcomeOf(s, op);
    assert Agrees(s.poll, k, ch);
    assert t.chans[k] == o.chan;
    assert Good(t) ==> Clean(o, k);
    match op {
      case Enabling(_, mask) => EnableCleanIff(s.poll, k, ch, mask);
      case Disabling(_) => DisableAllCleanIff(s.poll, k, ch);
      case Removing(_) => RemoveCleanIff(s.poll, k, ch);
    }
    if Disciplined(s, op) {
      forall j | j in t.chans
        ensures Agrees(t.poll, j, t.chans[j])
      {
        if j != k {
          OthersKeepAgreeing(s.poll, k, ch, j, s.chans[j], if op.Enabling? then op.mask else NoneEvent);
        }
      }
    }
  }

  /** All disciplined prefixes of a run of operations. */
  ghost predicate DisciplinedRun<K>(s: System<K>, ops: seq<Op<K>>)
    decreases |ops|
  {
    ops == [] || (Disciplined(s, ops[0]) && DisciplinedRun(ApplyOp(s, ops[0]), ops[1..]))
  }

  ghost function RunOps<K>(s: System<K>, ops: seq<Op<K>>): System<K>
    requires DisciplinedRun(s, ops)
    decreases |ops|
  {
    if ops == [] then s else RunOps(ApplyOp(s, ops[0]), ops[1..])
  }

  /** Index, map, interest set and mask agree after every disciplined run, for any number of
      channels, and no error was reported on the way. */
  lemma {:induction false} DisciplineKeepsAgreement<K>(s: System<K>, ops: seq<Op<K>>)
    requires Good(s) && DisciplinedRun(s, ops)
    ensures Good(RunOps(s, ops))
    decreases |ops|
  {
    if ops != [] {
      StepGoodIff(s, ops[0]);
      DisciplineKeepsAgreement(ApplyOp(s, ops[0]), ops[1..]);
    }
  }

}

/** The source's objects, proved against the functions of module Poller. */
module PollerObjects {
  import opened Poller

  class Channel {
    const fd: int
    var index: Index
    var events: Interest

    constructor (fd: int)
      ensures Value() == Chan(fd, KNew, NoneEvent)
    {
      this.fd := fd;
      index := KNew;
      events := NoneEvent;
    }

    ghost function Value(): Chan
      reads this
    {
      Chan(fd, index, events)
    }

    method EnableReading(epoll: Epoll) returns (logged: bool, fatal: bool)
      modifies this, epoll
      ensures Outcome(epoll.Value(), Value(), logged, fatal)
           == Enable(old(epoll.Value()), this, old(Value()), ReadEvent)
    {
      events := ReadEvent;
      logged, fatal := epoll.UpdateChannel(this);
    }

    method EnableWriting(epoll: Epoll) returns (logged: bool, fatal: bool)
      modifies this, epoll
      ensures Outcome(epoll.Value(), Value(), logged, fatal)
           == Enable(old(epoll.Value()), this, old(Value()), WriteEvent)
    {
      events := WriteEvent;
      logged, fatal := epoll.UpdateChannel(this);
    }

    method DisableAll(epoll: Epoll) returns (logged: bool, fatal: bool)
      modifies this, epoll
      ensures Outcome(epoll.Value(), Value(), logged, fatal)
           == Poller.DisableAll(old(epoll.Value()), this, old(Value()))
    {
      events := NoneEvent;
      logged, fatal := epoll.UpdateChannel(this);
    }

    method Remove(epoll: Epoll) returns (logged: bool, fatal: bool)
      modifies this, epoll
      ensures Outcome(epoll.Value(), Value(), logged, fatal)
           == Poller.Remove(old(epoll.Value()), this, old(Value()))
    {
      index := KDeleted;
      logged, fatal := epoll.RemoveChannel(this);
    }
  }

  class Epoll {
    var channels: map<int, Channel>
    var kernel: map<int, Registration<Channel>>

    constructor ()
      ensures Value() == Poll(map[], map[])
    {
      channels := map[];
      kernel := map[];
    }

    ghost function Value(): Poll<Channel>
      reads this
    {
      Poll(channels, kernel)
    }

    method Update(op: Ctl, channel: Channel) returns (logged: bool, fatal: bool)
      modifies this`kernel
      ensures Outcome(Value(), channel.Value(), logged, fatal)
           == Poller.Update(old(Value()), op, channel, old(channel.Value()), false)
    {
      logged, fatal := false, false;
      var fd := channel.fd;
      var failed := CtlFails(kernel, op, fd);
      if !failed {
        match op {
          case CtlAdd => kernel := kernel[fd := Registration(channel, channel.events)];
          case CtlMod => kernel := kernel[fd := Registration(channel, channel.events)];
          case CtlDel => kernel := kernel - {fd};
        }
      } else if op == CtlDel {
        logged := true;
      } else {
        fatal := true;
      }
    }

    method UpdateChannel(channel: Channel) returns (logged: bool, fatal: bool)
      modifies this, channel`index
      ensures Outcome(Value(), channel.Value(), logged, fatal)
           == Poller.UpdateChannel(old(Value()), channel, old(channel.Value()))
    {
      logged := false;
      var fd, index := channel.fd, channel.index;
      var more := false;
      if index == KNew || index == KDeleted {
        if index == KNew {
          if fd in channels { logged := true; }
          channels := channels[fd := channel];
        } else {
          if fd !in channels || channels[fd] != channel { logged := true; }
        }
        channel.index := KAdded;
        more, fatal := Update(CtlAdd, channel);
      } else {
        if fd !in channels || channels[fd] != channel { logged := true; }
        if channel.events == NoneEvent {
          more, fatal := Update(CtlDel, channel);
          channel.index := KDeleted;
        } else {
          more, fatal := Update(CtlMod, channel);
        }
      }
      logged := logged || more;
    }

    method RemoveChannel(channel: Channel) returns (logged: bool, fatal: bool)
      modifies this, channel`index
      ensures Outcome(Value(), channel.Value(), logged, fatal)
           == Poller.RemoveChannel(old(Value()), channel, old(channel.Value()))
    {
      logged, fatal := false, false;
      var fd := channel.fd;
      if fd in channels && channels[fd] == channel && channel.events == NoneEvent {
        var index := channel.index;
        if index == KAdded || index == KDeleted {
          channels := channels - {fd};
          if index == KAdded {
            logged, fatal := Update(CtlDel, channel);
          }
          channel.index := KNew;
        }
      }
    }
  }
}
