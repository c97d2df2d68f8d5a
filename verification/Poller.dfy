/** Channel interest bits and the epoll poller: the poller's book-keeping (index, fd map) is
    proved to agree with the kernel's interest set over every sequence of channel operations. */
module PollerModel {

  // Event bits of <sys/epoll.h> and the masks of net/include/enum.h.
  const EPOLLIN: bv32 := 0x1
  const EPOLLPRI: bv32 := 0x2
  const EPOLLOUT: bv32 := 0x4
  const EPOLLERR: bv32 := 0x8
  const EPOLLHUP: bv32 := 0x10
  const EPOLLRDHUP: bv32 := 0x2000
  const READ_EVENT: bv32 := EPOLLIN | EPOLLPRI
  const WRITE_EVENT: bv32 := EPOLLOUT
  const NON_EVENT: bv32 := 0

  datatype Index = KNew | KAdded | KDeleted

  /** The value of a channel object. */
  datatype Chan = Chan(fd: int, events: bv32, index: Index, addedToLoop: bool) {
    predicate IsWriting() { events == WRITE_EVENT }
  }

  /** One entry of the kernel's interest set. */
  datatype Interest<C> = Interest(chan: C, events: bv32)

  datatype Ctl = Add | Mod | Del

  /** The poller: the fd map, the kernel interest set behind the epoll fd, and how often
      epoll_ctl has failed (the code only logs a failure). */
  datatype Poll<C> = Poll(channels: map<int, C>, kernel: map<int, Interest<C>>, failures: nat)

  /** epoll_ctl: ADD fails with EEXIST, MOD and DEL fail with ENOENT. */
  function EpollCtl<C>(p: Poll<C>, op: Ctl, fd: int, entry: Interest<C>): Poll<C> {
    if op.Add? == (fd in p.kernel) then p.(failures := p.failures + 1)
    else if op.Del? then p.(kernel := p.kernel - {fd})
    else p.(kernel := p.kernel[fd := entry])
  }

  /** The two asserts of EPollPoller::updateChannel. */
  predicate UpdateAsserts<C(==)>(p: Poll<C>, c: C, ch: Chan) {
    && (ch.index.KNew? ==> ch.fd !in p.channels)
    && (ch.index.KDeleted? ==> ch.fd in p.channels && p.channels[ch.fd] == c)
  }

  /** The two asserts of EPollPoller::removeChannel. */
  predicate RemoveAsserts<C(==)>(p: Poll<C>, c: C, ch: Chan) {
    ch.fd in p.channels && p.channels[ch.fd] == c
  }

  function UpdatedPoll<C>(p: Poll<C>, c: C, ch: Chan): Poll<C> {
    var entry := Interest(c, ch.events);
    match ch.index
    case KNew => EpollCtl(p.(channels := p.channels[ch.fd := c]), Add, ch.fd, entry)
    case KDeleted => EpollCtl(p, Add, ch.fd, entry)
    case KAdded => EpollCtl(p, if ch.events == NON_EVENT then Del else Mod, ch.fd, entry)
  }

  function UpdatedIndex(ch: Chan): Index {
    if ch.index.KAdded? && ch.events == NON_EVENT then KDeleted else KAdded
  }

  function RemovedPoll<C>(p: Poll<C>, c: C, ch: Chan): Poll<C> {
    var q := if ch.index.KAdded? then EpollCtl(p, Del, ch.fd, Interest(c, ch.events)) else p;
    q.(channels := q.channels - {ch.fd})
  }

  // ---------------------------------------------------------------------------------------
  // Every run of channel operations on one poller
  // ---------------------------------------------------------------------------------------

  datatype Op = EnableReading | DisableReading | EnableWriting | DisableWriting | DisableAll | Remove

  function NewEvents(op: Op, events: bv32): bv32 {
    match op
    case EnableReading => events | READ_EVENT
    case DisableReading => events & !READ_EVENT
    case EnableWriting => events | WRITE_EVENT
    case DisableWriting => events & !WRITE_EVENT
    case DisableAll => NON_EVENT
    case Remove => events
  }

  /** The channel after the interest bits were changed and before the poller is told. */
  function Marked(op: Op, ch: Chan): Chan {
    ch.(events := NewEvents(op, ch.events), addedToLoop := true)
  }

  function OpPoll<C>(op: Op, p: Poll<C>, c: C, ch: Chan): Poll<C> {
    if op.Remove? then RemovedPoll(p, c, ch) else UpdatedPoll(p, c, Marked(op, ch))
  }

  function OpChan(op: Op, ch: Chan): Chan {
    if op.Remove? then ch.(index := KNew, addedToLoop := false)
    else Marked(op, ch).(index := UpdatedIndex(Marked(op, ch)))
  }

  predicate OpAsserts<C(==)>(op: Op, p: Poll<C>, c: C, ch: Chan) {
    if op.Remove? then RemoveAsserts(p, c, ch) else UpdateAsserts(p, c, Marked(op, ch))
  }

  /** What a caller can check before the call: a channel is removed only after it was registered,
      and a new channel is registered only while its fd is free in this poller. */
  predicate Allowed<C>(op: Op, p: Poll<C>, ch: Chan) {
    if op.Remove? then !ch.index.KNew? else ch.index.KNew? ==> ch.fd !in p.channels
  }

  /** All channels of one loop together with its poller. */
  datatype World<C(==)> = World(chans: map<C, Chan>, poll: Poll<C>)

  function Do<C>(w: World<C>, c: C, op: Op): World<C>
    requires c in w.chans
  {
    World(w.chans[c := OpChan(op, w.chans[c])], OpPoll(op, w.poll, c, w.chans[c]))
  }

  ghost predicate ChanAgrees<C(!new)>(p: Poll<C>, c: C, ch: Chan) {
    && (ch.index.KAdded? <==> ch.fd in p.kernel && p.kernel[ch.fd] == Interest(c, ch.events))
    && (!ch.index.KNew? <==> ch.fd in p.channels && p.channels[ch.fd] == c)
  }

  ghost predicate FdAgrees<C(!new)>(w: World<C>, fd: int) {
    && (fd in w.poll.channels ==>
          w.poll.channels[fd] in w.chans && w.chans[w.poll.channels[fd]].fd == fd)
    && (fd in w.poll.kernel ==>
          fd in w.poll.channels && w.poll.kernel[fd].chan == w.poll.channels[fd]
          && w.chans[w.poll.channels[fd]].index.KAdded?)
  }

  /** The poller's state and the kernel's agree: a channel is in the kernel set exactly when its
      index is KAdded, with exactly its current events; the fd map sends an fd to a channel exactly
      when that channel's index is not KNew; and no epoll_ctl was ever refused. */
  ghost predicate Consistent<C(!new)>(w: World<C>) {
    && w.poll.failures == 0
    && (forall c <- w.chans :: ChanAgrees(w.poll, c, w.chans[c]))
    && (forall fd :: FdAgrees(w, fd))
  }

  /** In a consistent world the poller's asserts hold exactly for the allowed operations. */
  lemma AssertsHoldIff<C(!new)>(w: World<C>, c: C, op: Op)
    requires Consistent(w) && c in w.chans
    ensures OpAsserts(op, w.poll, c, w.chans[c]) <==> Allowed(op, w.poll, w.chans[c])
  {
    assert ChanAgrees(w.poll, c, w.chans[c]);
  }

  /** One operation: an allowed operation leads to a consistent world, so its ADD, MOD or DEL was
      accepted by the kernel. */
  lemma OpKeepsConsistent<C(!new)>(w: World<C>, c: C, op: Op)
    requires Consistent(w) && c in w.chans && Allowed(op, w.poll, w.chans[c])
    ensures Consistent(Do(w, c, op))
  {
    var w' := Do(w, c, op);
    CtlAccepted(w, c, op);
    forall d | d in w'.chans ensures ChanAgrees(w'.poll, d, w'.chans[d]) {
      OthersStillAgree(w, c, op, d);
    }
    forall fd ensures FdAgrees(w', fd) {
      FdsStillAgree(w, c, op, fd);
    }
  }

  lemma CtlAccepted<C(!new)>(w: World<C>, c: C, op: Op)
    requires Consistent(w) && c in w.chans && Allowed(op, w.poll, w.chans[c])
    ensures Do(w, c, op).poll.failures == 0
  {
    assert ChanAgrees(w.poll, c, w.chans[c]) && FdAgrees(w, w.chans[c].fd);
  }

  lemma FdsStillAgree<C(!new)>(w: World<C>, c: C, op: Op, fd: int)
    requires Consistent(w) && c in w.chans && Allowed(op, w.poll, w.chans[c])
    ensures FdAgrees(Do(w, c, op), fd)
  {
    assert ChanAgrees(w.poll, c, w.chans[c]) && FdAgrees(w, fd) && FdAgrees(w, w.chans[c].fd);
  }

  lemma OthersStillAgree<C(!new)>(w: World<C>, c: C, op: Op, d: C)
    requires Consistent(w) && c in w.chans && d in w.chans && Allowed(op, w.poll, w.chans[c])
    ensures ChanAgrees(Do(w, c, op).poll, d, Do(w, c, op).chans[d])
  {
    assert ChanAgrees(w.poll, c, w.chans[c]) && ChanAgrees(w.poll, d, w.chans[d]) && FdAgrees(w, w.chans[c].fd);
  }

  predicate AllAllowed<C>(w: World<C>, ops: seq<(C, Op)>)
    decreases |ops|
  {
    ops == [] || (ops[0].0 in w.chans && Allowed(ops[0].1, w.poll, w.chans[ops[0].0])
                  && AllAllowed(Do(w, ops[0].0, ops[0].1), ops[1..]))
  }

  function DoAll<C>(w: World<C>, ops: seq<(C, Op)>): World<C>
    requires AllAllowed(w, ops)
    decreases |ops|
  {
    if ops == [] then w else DoAll(Do(w, ops[0].0, ops[0].1), ops[1..])
  }

  /** Any number of channels, any sequence of allowed operations. */
  lemma {:induction false} RunStaysConsistent<C(!new)>(w: World<C>, ops: seq<(C, Op)>)
    requires Consistent(w) && AllAllowed(w, ops)
    ensures Consistent(DoAll(w, ops))
    decreases |ops|
  {
    if ops == [] {
    } else {
      OpKeepsConsistent(w, ops[0].0, ops[0].1);
      RunStaysConsistent(Do(w, ops[0].0, ops[0].1), ops[1..]);
    }
  }

  /** Disabling everything twice puts the fd back into the kernel set with an empty mask: a KDeleted
      channel is always re-added, whatever its events are. */
  lemma SecondDisableAllReAdds<C(!new)>(w: World<C>, c: C)
    requires Consistent(w) && c in w.chans && w.chans[c].index.KAdded?
    ensures var once := Do(w, c, DisableAll); var twice := Do(once, c, DisableAll);
            && w.chans[c].fd !in once.poll.kernel
            && w.chans[c].fd in twice.poll.kernel && twice.poll.kernel[w.chans[c].fd].events == NON_EVENT
  {
    assert ChanAgrees(w.poll, c, w.chans[c]);
  }

  /** An operation that leaves a channel without interest takes its fd out of the kernel set exactly
      when the channel was added. A new or an already deleted one is added instead, with an empty mask. */
  lemma EmptyMaskLeavesIff<C(!new)>(w: World<C>, c: C, op: Op)
    requires Consistent(w) && c in w.chans && Allowed(op, w.poll, w.chans[c])
    requires !op.Remove? && NewEvents(op, w.chans[c].events) == NON_EVENT
    ensures var fd, kernel := w.chans[c].fd, Do(w, c, op).poll.kernel;
            && (fd !in kernel <==> w.chans[c].index.KAdded?)
            && (fd in kernel ==> kernel[fd] == Interest(c, NON_EVENT))
  {
    assert ChanAgrees(w.poll, c, w.chans[c]) && FdAgrees(w, w.chans[c].fd);
  }

  /** A channel that is not registered joins the world without disturbing it. */
  lemma NewChannelKeepsConsistent<C(!new)>(w: World<C>, c: C, ch: Chan)
    requires Consistent(w) && c !in w.chans && ch.index.KNew?
    ensures Consistent(w.(chans := w.chans[c := ch]))
  {
    var w' := w.(chans := w.chans[c := ch]);
    assert FdAgrees(w, ch.fd);
    forall fd ensures FdAgrees(w', fd) { assert FdAgrees(w, fd); }
  }
}

/** The mutable objects. */
module PollerObjects {
  import opened PollerModel

  class Channel {
    const fd: int
    const poller: EPollPoller
    var events: bv32
    var revents: bv32
    var index: Index
    var addedToLoop: bool

    constructor (poller: EPollPoller, fd: int)
      ensures this.fd == fd && this.poller == poller && View() == Chan(fd, NON_EVENT, KNew, false)
    {
      this.fd, this.poller := fd, poller;
      events, revents, index, addedToLoop := NON_EVENT, NON_EVENT, KNew, false;
    }

    function View(): Chan reads this { Chan(fd, events, index, addedToLoop) }

    method EnableReading()
      requires OpAsserts(PollerModel.EnableReading, poller.View(), this, View())
      modifies this`events, this`index, this`addedToLoop, poller
      ensures poller.View() == OpPoll(PollerModel.EnableReading, old(poller.View()), this, old(View()))
      ensures View() == OpChan(PollerModel.EnableReading, old(View()))
      ensures events == old(events) | EPOLLIN | EPOLLPRI
    { events := events | READ_EVENT; Update(); }

    method DisableReading()
      requires OpAsserts(PollerModel.DisableReading, poller.View(), this, View())
      modifies this`events, this`index, this`addedToLoop, poller
      ensures poller.View() == OpPoll(PollerModel.DisableReading, old(poller.View()), this, old(View()))
      ensures View() == OpChan(PollerModel.DisableReading, old(View()))
      ensures events == old(events) & !EPOLLIN & !EPOLLPRI
    { events := events & !READ_EVENT; Update(); }

    method EnableWriting()
      requires OpAsserts(PollerModel.EnableWriting, poller.View(), this, View())
      modifies this`events, this`index, this`addedToLoop, poller
      ensures poller.View() == OpPoll(PollerModel.EnableWriting, old(poller.View()), this, old(View()))
      ensures View() == OpChan(PollerModel.EnableWriting, old(View()))
      ensures events == old(events) | EPOLLOUT
    { events := events | WRITE_EVENT; Update(); }

    method DisableWriting()
      requires OpAsserts(PollerModel.DisableWriting, poller.View(), this, View())
      modifies this`events, this`index, this`addedToLoop, poller
      ensures poller.View() == OpPoll(PollerModel.DisableWriting, old(poller.View()), this, old(View()))
      ensures View() == OpChan(PollerModel.DisableWriting, old(View()))
      ensures events == old(events) & !EPOLLOUT
    { events := events & !WRITE_EVENT; Update(); }

    method DisableAll()
      requires OpAsserts(PollerModel.DisableAll, poller.View(), this, View())
      modifies this`events, this`index, this`addedToLoop, poller
      ensures poller.View() == OpPoll(PollerModel.DisableAll, old(poller.View()), this, old(View()))
      ensures View() == OpChan(PollerModel.DisableAll, old(View()))
      ensures events == 0
    { events := NON_EVENT; Update(); }

    method Remove()
      requires OpAsserts(PollerModel.Remove, poller.View(), this, View())
      modifies this`events, this`index, this`addedToLoop, poller
      ensures poller.View() == OpPoll(PollerModel.Remove, old(poller.View()), this, old(View()))
      ensures View() == OpChan(PollerModel.Remove, old(View()))
      ensures events == old(events) && index == KNew && !addedToLoop && fd !in poller.channels
    {
      poller.RemoveChannel(this);
      addedToLoop := false;
    }

    method Update()
      requires UpdateAsserts(poller.View(), this, View())
      modifies this`events, this`index, this`addedToLoop, poller
      ensures poller.View() == UpdatedPoll(old(poller.View()), this, old(View()))
      ensures View() == old(View()).(index := UpdatedIndex(old(View())), addedToLoop := true)
    {
      addedToLoop := true;
      poller.UpdateChannel(this);
    }
  }

  class EPollPoller {
    var channels: map<int, Channel>
    var kernel: map<int, Interest<Channel>>
    var failures: nat

    constructor ()
      ensures View() == Poll(map[], map[], 0)
    { channels, kernel, failures := map[], map[], 0; }

    function View(): Poll<Channel> reads this { Poll(channels, kernel, failures) }

    method UpdateChannel(ch: Channel)
      requires UpdateAsserts(View(), ch, ch.View())
      modifies this, ch`index
      ensures View() == UpdatedPoll(old(View()), ch, old(ch.View()))
      ensures ch.index == UpdatedIndex(old(ch.View()))
      ensures channels == if old(ch.index) == KNew then old(channels)[ch.fd := ch] else old(channels)
      ensures old(ch.index) == KAdded && ch.fd in old(kernel) ==>
        if ch.events == 0 then kernel == old(kernel) - {ch.fd} && ch.index == KDeleted
        else kernel == old(kernel)[ch.fd := Interest(ch, ch.events)] && ch.index == KAdded
      ensures old(ch.index) != KAdded && ch.fd !in old(kernel) ==>
        kernel == old(kernel)[ch.fd := Interest(ch, ch.events)] && ch.index == KAdded
    {
      if ch.index == KNew || ch.index == KDeleted {
        var fd := ch.fd;
        if ch.index == KNew {
          assert fd !in channels;
          channels := channels[fd := ch];
        } else {
          assert fd in channels && channels[fd] == ch;
        }
        UpdateKernel(Add, ch);
        ch.index := KAdded;
      } else if ch.events == NON_EVENT {
        UpdateKernel(Del, ch);
        ch.index := KDeleted;
      } else {
        UpdateKernel(Mod, ch);
      }
    }

    method RemoveChannel(ch: Channel)
      requires RemoveAsserts(View(), ch, ch.View())
      modifies this, ch`index
      ensures View() == RemovedPoll(old(View()), ch, old(ch.View()))
      ensures ch.index == KNew && channels == old(channels) - {ch.fd}
      ensures kernel == if old(ch.index) == KAdded then old(kernel) - {ch.fd} else old(kernel)
    {
      if ch.index == KAdded {
        UpdateKernel(Del, ch);
      }
      channels := channels - {ch.fd};
      ch.index := KNew;
    }

    /** The channels that epoll_wait stored in its entries, in the order of the entries, each with its
        reported events; ready lists the reported fds. */
    method FillActiveChannels(ready: seq<(int, bv32)>) returns (active: seq<Channel>)
      requires forall r <- ready :: r.0 in kernel && kernel[r.0].chan.fd == r.0
      requires forall i, j | 0 <= i < j < |ready| :: ready[i].0 != ready[j].0
      modifies (set r | r in ready && r.0 in kernel :: kernel[r.0].chan)`revents
      ensures |active| == |ready|
      ensures forall i | 0 <= i < |ready| :: active[i] == kernel[ready[i].0].chan && active[i].revents == ready[i].1
    {
      active := [];
      for i := 0 to |ready|
        invariant |active| == i
        invariant forall k | 0 <= k < i :: active[k] == kernel[ready[k].0].chan && active[k].revents == ready[k].1
      {
        var ch := kernel[ready[i].0].chan;
        assert ready[i] in ready;
        ch.revents := ready[i].1;
        active := active + [ch];
      }
    }

    method UpdateKernel(op: Ctl, ch: Channel)
      modifies this
      ensures View() == EpollCtl(old(View()), op, ch.fd, Interest(ch, ch.events))
    {
      if op.Add? == (ch.fd in kernel) {
        failures := failures + 1;
      } else if op.Del? {
        kernel := kernel - {ch.fd};
      } else {
        kernel := kernel[ch.fd := Interest(ch, ch.events)];
      }
    }
  }
}
