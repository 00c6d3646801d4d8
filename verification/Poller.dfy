/**
 * include/Channel.h, src/Channel.cc and src/EpollPoller.cc.
 *
 * Interest is the meaning of a channel for the poller: what it waits for and
 * whether the epoll instance knows it. Channel and EpollPoller are the objects.
 */
module Pollers {

  datatype Index = New | Added | Deleted

  /** The interest mask of a channel and its index_. */
  datatype Interest = Interest(reading: bool, writing: bool, index: Index) {
    predicate None() { !reading && !writing }

    /** EpollPoller::updateChannel. An unknown channel is added whatever its mask. */
    function Update(): Interest
    {
      if index != Added then this.(index := Added)
      else if None() then this.(index := Deleted)
      else this
    }

    function EnableReading(): Interest { this.(reading := true).Update() }
    function DisableReading(): Interest { this.(reading := false).Update() }
    function EnableWriting(): Interest { this.(writing := true).Update() }
    function DisableWriting(): Interest { this.(writing := false).Update() }
    function DisableAll(): Interest { this.(reading := false, writing := false).Update() }
    function Remove(): Interest { this.(index := New) }
  }

  datatype ChannelOp = EnableReading | DisableReading | EnableWriting | DisableWriting | DisableAll | Remove

  function Apply(i: Interest, op: ChannelOp): Interest
  {
    match op
    case EnableReading => i.EnableReading()
    case DisableReading => i.DisableReading()
    case EnableWriting => i.EnableWriting()
    case DisableWriting => i.DisableWriting()
    case DisableAll => i.DisableAll()
    case Remove => i.Remove()
  }

  const POLLIN: bv16 := 0x0001
  const POLLPRI: bv16 := 0x0002
  const POLLOUT: bv16 := 0x0004
  const POLLRDHUP: bv16 := 0x2000
  const kNonEvent: bv16 := 0
  const kReadEvent: bv16 := POLLIN | POLLPRI
  const kWriteEvent: bv16 := POLLOUT

  /** Dropping the write interest leaves the rest of a mask alone. */
  lemma WithoutWriting(events: bv16)
    requires events in {kNonEvent, kReadEvent, kWriteEvent, kReadEvent | kWriteEvent}
    ensures events & !kWriteEvent == events & !0x0004 && events & !kWriteEvent in {kNonEvent, kReadEvent}
    ensures (events & !kWriteEvent) & kReadEvent == events & kReadEvent && (events & !kWriteEvent) & kWriteEvent == 0
  {
  }

  const kNew := -1
  const kAdded := 1
  const kDeleted := 2

  datatype Callback = ReadCallback | WriteCallback

  datatype Registration = Registration(events: bv16, channel: Channel)

  datatype ReadyEvent = ReadyEvent(channel: Channel, revents: bv16)

  class Channel {
    const fd: int
    var events: bv16
    var revents: bv16
    var index: int
    var addedToLoop: bool

    ghost predicate Valid()
      reads this
    {
      && events in {kNonEvent, kReadEvent, kWriteEvent, kReadEvent | kWriteEvent}
      && index in {kNew, kAdded, kDeleted}
    }

    ghost function View(): Interest
      reads this
    {
      Interest(events & kReadEvent != 0, events & kWriteEvent != 0,
               if index == kAdded then Added else if index == kDeleted then Deleted else New)
    }

    constructor (fd: int)
      ensures Valid() && this.fd == fd && View() == Interest(false, false, New)
    {
      this.fd := fd;
      events, revents, index, addedToLoop := kNonEvent, 0, kNew, false;
    }

    predicate IsWriting()
      reads this
    {
      events & kWriteEvent != 0
    }

    predicate IsReading()
      reads this
    {
      events & kReadEvent != 0
    }

    predicate IsNoneEvent()
      reads this
    {
      events == kNonEvent
    }

    /** Channel::update, which goes through the loop to the poller. */
    method Update(poller: EpollPoller)
      requires Valid() && this in poller.universe && poller.ValidExceptMaskOf(this)
      modifies `index, `addedToLoop, poller`channels, poller`kernel, poller`fatal
      ensures Valid() && poller.Valid() && addedToLoop
      ensures View() == old(View()).Update()
      ensures poller.channels == old(poller.channels)[fd := this]
      ensures poller.kernel ==
        if old(index) == kAdded && events == 0 then old(poller.kernel) - {fd}
        else old(poller.kernel)[fd := Registration(events, this)]
    {
      addedToLoop := true;
      poller.UpdateChannel(this);
    }

    /** The mask asks for POLLIN and POLLPRI, on which HandleEvent runs the read callback. */
    method EnableReading(poller: EpollPoller)
      requires poller.Valid() && this in poller.universe
      modifies `events, `index, `addedToLoop, poller`channels, poller`kernel, poller`fatal
      ensures events == old(events) | 0x0003
      ensures poller.Valid() && View() == old(View()).EnableReading()
      ensures poller.channels == old(poller.channels)[fd := this]
      ensures poller.kernel == old(poller.kernel)[fd := Registration(events, this)]
    {
      events := events | kReadEvent;
      Update(poller);
    }

    method DisableReading(poller: EpollPoller)
      requires poller.Valid() && this in poller.universe
      modifies `events, `index, `addedToLoop, poller`channels, poller`kernel, poller`fatal
      ensures events == old(events) & !0x0003
      ensures poller.Valid() && View() == old(View()).DisableReading()
    {
      events := events & !kReadEvent;
      Update(poller);
    }

    /** The mask asks for POLLOUT, on which HandleEvent runs the write callback. */
    method EnableWriting(poller: EpollPoller)
      requires poller.Valid() && this in poller.universe
      modifies `events, `index, `addedToLoop, poller`channels, poller`kernel, poller`fatal
      ensures events == old(events) | 0x0004
      ensures poller.Valid() && View() == old(View()).EnableWriting()
    {
      events := events | kWriteEvent;
      Update(poller);
    }

    method DisableWriting(poller: EpollPoller)
      requires poller.Valid() && this in poller.universe
      modifies `events, `index, `addedToLoop, poller`channels, poller`kernel, poller`fatal
      ensures events == old(events) & !0x0004
      ensures poller.Valid() && View() == old(View()).DisableWriting()
    {
      WithoutWriting(events);
      events := events & !kWriteEvent;
      Update(poller);
    }

    method DisableAll(poller: EpollPoller)
      requires poller.Valid() && this in poller.universe
      modifies `events, `index, `addedToLoop, poller`channels, poller`kernel, poller`fatal
      ensures events == 0
      ensures poller.Valid() && View() == old(View()).DisableAll()
    {
      events := kNonEvent;
      Update(poller);
    }

    method Remove(poller: EpollPoller)
      requires poller.Valid() && this in poller.universe
      modifies `index, `addedToLoop, poller`channels, poller`kernel, poller`fatal
      ensures poller.Valid() && View() == old(View()).Remove() && !addedToLoop
      ensures poller.channels == old(poller.channels) - {fd} && poller.kernel == old(poller.kernel) - {fd}
    {
      addedToLoop := false;
      poller.RemoveChannel(this);
    }

    /**
     * handleEvent: a tied channel whose owner is gone runs nothing; otherwise the
     * read callback comes before the write callback. Hang-up and error bits alone
     * run nothing.
     */
    method HandleEvent(tied: bool, ownerAlive: bool) returns (calls: seq<Callback>)
      ensures ReadCallback in calls <==> (tied ==> ownerAlive) && revents & 0x2003 != 0
      ensures WriteCallback in calls <==> (tied ==> ownerAlive) && revents & 0x0004 != 0
      ensures calls == [ReadCallback, WriteCallback] || |calls| <= 1
    {
      calls := [];
      if tied && !ownerAlive {
        return;
      }
      if revents & (POLLIN | POLLPRI | POLLRDHUP) != 0 {
        calls := calls + [ReadCallback];
      }
      if revents & POLLOUT != 0 {
        calls := calls + [WriteCallback];
      }
    }
  }

  datatype CtlOp = CtlAdd | CtlMod | CtlDel

  class EpollPoller {
    var channels: map<int, Channel>
    // The interest set of the epoll instance, and whether LOG_FATAL was reached.
    var kernel: map<int, Registration>
    var fatal: bool
    // The channels in use in this loop. Their descriptors are open at the same time, hence distinct.
    ghost var universe: set<Channel>

    /** index_ says where the channel is known: to the kernel, to channels_ only, or nowhere. */
    ghost predicate Known(c: Channel)
      reads this, c
    {
      && (c.index == kAdded <==> c.fd in kernel)
      && (c.index == kAdded ==> kernel[c.fd].channel == c)
      && (c.index != kNew <==> c.fd in channels)
      && (c.index != kNew ==> channels[c.fd] == c)
    }

    ghost predicate MaskCurrent(c: Channel)
      reads this, c
    {
      c.fd in kernel ==> kernel[c.fd].events == c.events
    }

    ghost predicate ValidExceptMaskOf(x: Channel)
      reads this, universe
    {
      Shape() && forall c :: c in universe && c != x ==> MaskCurrent(c)
    }

    ghost predicate Shape()
      reads this, universe
    {
      && !fatal
      && (forall c, d :: c in universe && d in universe && c.fd == d.fd ==> c == d)
      && (forall c :: c in universe ==> c.Valid() && Known(c))
      && (forall fd :: fd in kernel ==> fd in channels)
      && (forall fd :: fd in channels ==> channels[fd] in universe && channels[fd].fd == fd)
    }

    ghost predicate Valid()
      reads this, universe
    {
      Shape() && forall c :: c in universe ==> MaskCurrent(c)
    }

    constructor (ghost universe: set<Channel>)
      requires forall c, d :: c in universe && d in universe && c.fd == d.fd ==> c == d
      requires forall c :: c in universe ==> c.Valid() && c.index == kNew
      ensures Valid() && this.universe == universe && channels == map[] && kernel == map[]
    {
      channels, kernel, fatal := map[], map[], false;
      this.universe := universe;
    }

    /** A new channel comes into use. Its descriptor may have belonged to a channel that was removed. */
    ghost method Adopt(c: Channel)
      requires Valid() && c.Valid() && c.index == kNew
      requires forall d :: d in universe ==> d.fd != c.fd
      modifies `universe
      ensures Valid() && universe == old(universe) + {c}
    {
      universe := universe + {c};
    }

    /** A removed channel goes out of use: nothing in the poller refers to it. */
    ghost method Discard(c: Channel)
      requires Valid() && c in universe && c.index == kNew
      modifies `universe
      ensures Valid() && universe == old(universe) - {c}
    {
      universe := universe - {c};
    }

    /**
     * A connection is destroyed, its descriptor is closed, and the kernel gives
     * the number to a new connection: the new channel is added as if the number
     * had never been used, and the other channels do not notice.
     */
    method ReuseDescriptor(c: Channel, d: Channel)
      requires Valid() && c in universe && d !in universe
      requires d.Valid() && d.index == kNew && d.fd == c.fd
      modifies `channels, `kernel, `fatal, `universe, c`index, c`addedToLoop, d`events, d`index, d`addedToLoop
      ensures Valid() && universe == old(universe) - {c} + {d}
      ensures d.View() == old(d.View()).EnableReading() && HasChannel(d)
      ensures c.View() == old(c.View()).Remove() && !HasChannel(c)
      ensures kernel == old(kernel)[d.fd := Registration(d.events, d)]
      ensures channels == old(channels)[d.fd := d]
    {
      c.Remove(this);
      Discard(c);
      Adopt(d);
      d.EnableReading(this);
    }

    /** epoll_ctl fails on adding a known descriptor and on changing or deleting an unknown one. */
    method Ctl(op: CtlOp, c: Channel)
      modifies `kernel, `fatal
      ensures fatal == (old(fatal) || (op.CtlAdd? <==> c.fd in old(kernel)))
      ensures !fatal && op.CtlDel? ==> kernel == old(kernel) - {c.fd}
      ensures !fatal && !op.CtlDel? ==> kernel == old(kernel)[c.fd := Registration(c.events, c)]
    {
      if op.CtlAdd? <==> c.fd in kernel {
        fatal := true;
      } else if op.CtlDel? {
        kernel := kernel - {c.fd};
      } else {
        kernel := kernel[c.fd := Registration(c.events, c)];
      }
    }

    method UpdateChannel(c: Channel)
      requires c in universe && ValidExceptMaskOf(c)
      modifies `channels, `kernel, `fatal, c`index
      ensures Valid() && c.View() == old(c.View()).Update()
      ensures channels == old(channels)[c.fd := c]
      ensures kernel == if old(c.index) == kAdded && c.events == 0 then old(kernel) - {c.fd}
        else old(kernel)[c.fd := Registration(c.events, c)]
    {
      if c.index == kNew || c.index == kDeleted {
        if c.index == kNew {
          channels := channels[c.fd := c];
        }
        c.index := kAdded;
        Ctl(CtlAdd, c);
      } else if c.IsNoneEvent() {
        Ctl(CtlDel, c);
        c.index := kDeleted;
      } else {
        Ctl(CtlMod, c);
      }
    }

    method RemoveChannel(c: Channel)
      requires c in universe && Valid()
      modifies `channels, `kernel, `fatal, c`index
      ensures Valid() && c.View() == old(c.View()).Remove()
      ensures channels == old(channels) - {c.fd} && kernel == old(kernel) - {c.fd}
    {
      channels := channels - {c.fd};
      if c.index == kAdded {
        Ctl(CtlDel, c);
      }
      c.index := kNew;
    }

    /** What epoll_wait may report: registered channels, each at most once. */
    ghost predicate Deliverable(ready: seq<ReadyEvent>)
      reads this
    {
      && (forall i :: 0 <= i < |ready| ==>
            ready[i].channel.fd in kernel && kernel[ready[i].channel.fd].channel == ready[i].channel)
      && (forall i, j :: 0 <= i < j < |ready| ==> ready[i].channel != ready[j].channel)
    }

    /** fillActiveChannel: only channels in the epoll set get into the active list, never a removed one. */
    method FillActiveChannel(ready: seq<ReadyEvent>) returns (active: seq<Channel>)
      requires Valid() && Deliverable(ready)
      modifies (set e | e in ready :: e.channel)`revents
      ensures Valid() && |active| == |ready|
      ensures forall i :: 0 <= i < |ready| ==> active[i] == ready[i].channel && active[i].revents == ready[i].revents
      ensures forall c :: c in active ==> c in universe && c.index == kAdded && HasChannel(c)
    {
      active := [];
      for i := 0 to |ready|
        invariant |active| == i
        invariant forall k :: 0 <= k < i ==> active[k] == ready[k].channel && active[k].revents == ready[k].revents
      {
        assert forall k :: 0 <= k < i ==> ready[k].channel != ready[i].channel;
        ready[i].channel.revents := ready[i].revents;
        active := active + [ready[i].channel];
      }
    }

    predicate HasChannel(c: Channel)
      reads this
    {
      c.fd in channels && channels[c.fd] == c
    }

    method Do(c: Channel, op: ChannelOp)
      requires Valid() && c in universe
      modifies `channels, `kernel, `fatal, c`events, c`index, c`addedToLoop
      ensures Valid() && c.View() == Apply(old(c.View()), op)
    {
      match op
      case EnableReading => c.EnableReading(this);
      case DisableReading => c.DisableReading(this);
      case EnableWriting => c.EnableWriting(this);
      case DisableWriting => c.DisableWriting(this);
      case DisableAll => c.DisableAll(this);
      case Remove => c.Remove(this);
    }

    /** Any operations on any channels, in any order: the poller agrees and epoll_ctl never fails. */
    method DoAll(ops: seq<(Channel, ChannelOp)>)
      requires Valid() && forall o :: o in ops ==> o.0 in universe
      modifies `channels, `kernel, `fatal, universe
      ensures Valid()
      ensures forall c :: c in universe ==> c.View() == ApplyAll(old(c.View()), c, ops)
    {
      for i := 0 to |ops|
        invariant Valid()
        invariant forall c :: c in universe ==> ApplyAll(c.View(), c, ops[i..]) == ApplyAll(old(c.View()), c, ops)
      {
        assert ops[i..][0] == ops[i] && ops[i..][1..] == ops[i + 1..];
        Do(ops[i].0, ops[i].1);
      }
    }
  }

  ghost function ApplyAll(i: Interest, c: Channel, ops: seq<(Channel, ChannelOp)>): Interest
    decreases |ops|
  {
    if ops == [] then i
    else ApplyAll(if ops[0].0 == c then Apply(i, ops[0].1) else i, c, ops[1..])
  }
}
