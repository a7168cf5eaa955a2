/** Channels and the epoll poller as objects; every method is tied to `PollerSpec`. */
module EpollPoller {
  import opened PollerSpec

  /** The outcome of `epoll_wait`; no event at all is a timeout. */
  datatype WaitResult = Ready(events: seq<Interest<Channel>>) | WaitError

  class Channel {
    const poller: Poller
    const fd: int
    var events: Events
    var revents: Events
    var index: Index
    /** Whether the channel is tied to an owner that must be alive for a dispatch. */
    var tied: bool

    /** A channel is born on a descriptor that no live channel of its poller uses. */
    constructor (poller: Poller, fd: int)
      requires poller.Valid() && forall c <- poller.live :: c.fd != fd
      modifies poller`live
      ensures this.poller == poller && this.fd == fd && !tied && poller.Valid()
      ensures poller.live == old(poller.live) + {this}
      ensures poller.Abs() == old(poller.Abs()).(chan := old(poller.Abs()).chan[this := Chan(fd, NONE_EVENT, NEW)])
    {
      this.poller := poller;
      this.fd := fd;
      events := NONE_EVENT;
      revents := NONE_EVENT;
      index := NEW;
      tied := false;
      new;
      ghost var w := poller.Abs();
      poller.live := poller.live + {this};
      FreshChannelKeepsMirror(w, this, fd);
      assert poller.Abs().chan == w.chan[this := Chan(fd, NONE_EVENT, NEW)];
    }

    predicate IsNoneEvent() reads this { events == NONE_EVENT }
    predicate IsWriting() reads this { events * WRITE_EVENT != {} }

    ghost predicate Live()
      reads poller
    {
      this in poller.live
    }

    method Tie()
      requires Live()
      modifies this`tied
      ensures tied && poller.Abs() == old(poller.Abs())
    {
      tied := true;
    }

    method SetIndex(index: Index)
      requires Live()
      modifies this`index
      ensures this.index == index
      ensures poller.Abs() == PollerSpec.SetIndex(old(poller.Abs()), this, index)
    {
      this.index := index;
    }

    method Update()
      requires Live()
      modifies poller`channels, poller`kernel, poller`refused, this`index
      ensures poller.Abs() == UpdateChannel(old(poller.Abs()), this)
    {
      poller.UpdateChannel(this);
    }

    method EnableReading()
      requires Live() && poller.Valid()
      modifies poller`channels, poller`kernel, poller`refused, this`index, this`events
      ensures poller.Valid()
      ensures poller.Abs() == Apply(old(poller.Abs()), this, ChannelOp.EnableReading)
    {
      hide Mirror, PollerSpec.UpdateChannel;
      ghost var w := poller.Abs();
      events := events + READ_EVENT;
      assert poller.Abs() == SetEvents(w, this, events);
      ApplyKeepsMirror(w, this, ChannelOp.EnableReading);
      Update();
    }

    method DisableReading()
      requires Live() && poller.Valid()
      modifies poller`channels, poller`kernel, poller`refused, this`index, this`events
      ensures poller.Valid()
      ensures poller.Abs() == Apply(old(poller.Abs()), this, ChannelOp.DisableReading)
    {
      hide Mirror, PollerSpec.UpdateChannel;
      ghost var w := poller.Abs();
      events := events - READ_EVENT;
      assert poller.Abs() == SetEvents(w, this, events);
      ApplyKeepsMirror(w, this, ChannelOp.DisableReading);
      Update();
    }

    method EnableWriting()
      requires Live() && poller.Valid()
      modifies poller`channels, poller`kernel, poller`refused, this`index, this`events
      ensures poller.Valid()
      ensures poller.Abs() == Apply(old(poller.Abs()), this, ChannelOp.EnableWriting)
    {
      hide Mirror, PollerSpec.UpdateChannel;
      ghost var w := poller.Abs();
      events := events + WRITE_EVENT;
      assert poller.Abs() == SetEvents(w, this, events);
      ApplyKeepsMirror(w, this, ChannelOp.EnableWriting);
      Update();
    }

    method DisableWriting()
      requires Live() && poller.Valid()
      modifies poller`channels, poller`kernel, poller`refused, this`index, this`events
      ensures poller.Valid()
      ensures poller.Abs() == Apply(old(poller.Abs()), this, ChannelOp.DisableWriting)
    {
      hide Mirror, PollerSpec.UpdateChannel;
      ghost var w := poller.Abs();
      events := events - WRITE_EVENT;
      assert poller.Abs() == SetEvents(w, this, events);
      ApplyKeepsMirror(w, this, ChannelOp.DisableWriting);
      Update();
    }

    method DisableAll()
      requires Live() && poller.Valid()
      modifies poller`channels, poller`kernel, poller`refused, this`index, this`events
      ensures poller.Valid()
      ensures poller.Abs() == Apply(old(poller.Abs()), this, ChannelOp.DisableAll)
    {
      hide Mirror, PollerSpec.UpdateChannel;
      ghost var w := poller.Abs();
      events := events * NONE_EVENT;
      assert poller.Abs() == SetEvents(w, this, events);
      ApplyKeepsMirror(w, this, ChannelOp.DisableAll);
      Update();
    }

    method Remove()
      requires Live() && poller.Valid()
      modifies poller`channels, poller`kernel, poller`refused, this`index
      ensures poller.Valid()
      ensures poller.Abs() == Apply(old(poller.Abs()), this, ChannelOp.Remove)
    {
      hide Mirror, PollerSpec.RemoveChannel;
      ApplyKeepsMirror(poller.Abs(), this, ChannelOp.Remove);
      poller.RemoveChannel(this);
    }
  }

  const INIT_EVENT_LIST_SIZE := 16

  class Poller {
    var channels: map<int, Channel>
    var kernel: map<int, Interest<Channel>>
    var refused: nat
    var capacity: nat
    ghost var live: set<Channel>

    constructor ()
      ensures Abs() == World(map[], map[], map[], 0) && live == {} && capacity == INIT_EVENT_LIST_SIZE
      ensures Valid()
    {
      channels, kernel, refused := map[], map[], 0;
      capacity := INIT_EVENT_LIST_SIZE;
      live := {};
    }

    /** Between calls on its channels the poller mirrors the kernel, which has refused nothing. */
    ghost predicate Valid()
      reads this, live
    {
      Mirror(Abs()) && refused == 0
    }

    ghost function Abs(): World<Channel>
      reads this, live
    {
      World(map c | c in live :: Chan(c.fd, c.events, c.index), channels, kernel, refused)
    }

    /** `epoll_ctl` on the descriptor of `c`, with the kernel's own error cases. */
    method Update(op: Ctl, c: Channel)
      requires c in live
      modifies this`kernel, this`refused
      ensures Abs() == EpollCtl(old(Abs()), op, c)
    {
      if (op == ADD) == (c.fd in kernel) {
        refused := refused + 1;
      } else if op == DEL {
        kernel := kernel - {c.fd};
      } else {
        kernel := kernel[c.fd := Interest(c, c.events)];
      }
    }

    method UpdateChannel(c: Channel)
      requires c in live && c.poller == this
      modifies this`channels, this`kernel, this`refused, c`index
      ensures Abs() == PollerSpec.UpdateChannel(old(Abs()), c)
    {
      ghost var w := Abs();
      if c.index == NEW || c.index == DELETED {
        ghost var listed := if c.index == NEW then w.(table := w.table[c.fd := c]) else w;
        if c.index == NEW {
          channels := channels[c.fd := c];
        }
        assert Abs() == listed;
        c.SetIndex(ADDED);
        Update(ADD, c);
      } else if c.IsNoneEvent() {
        Update(DEL, c);
        c.SetIndex(DELETED);
      } else {
        Update(MOD, c);
      }
    }

    method RemoveChannel(c: Channel)
      requires c in live && c.poller == this
      modifies this`channels, this`kernel, this`refused, c`index
      ensures Abs() == PollerSpec.RemoveChannel(old(Abs()), c)
    {
      ghost var w := Abs();
      channels := channels - {c.fd};
      ghost var erased := w.(table := w.table - {c.fd});
      assert Abs() == erased;
      if c.index == ADDED {
        Update(DEL, c);
        assert Abs() == EpollCtl(erased, DEL, c);
      }
      c.SetIndex(NEW);
    }

    /** What the kernel watches is at all times exactly the ADDED channels with their current events. */
    lemma KernelSetIsExact(fd: int, e: Interest<Channel>)
      requires Valid()
      ensures fd in kernel && kernel[fd] == e
        <==> e.channel in live && e.channel.fd == fd && e.channel.events == e.events && e.channel.index == ADDED
    {
      MirrorIsExact(Abs(), fd, e);
    }

    /** In a mirrored poller, exactly the ADDED and DELETED channels are found. */
    method HasChannel(c: Channel) returns (found: bool)
      requires c in live && Valid()
      ensures found <==> c.index == ADDED || c.index == DELETED
    {
      found := c.fd in channels && channels[c.fd] == c;
      assert InStep(Abs(), c);
    }

    /** Reports every ready channel once, in the kernel's order, and stores what happened on it. */
    method FillActiveChannels(events: seq<Interest<Channel>>) returns (active: seq<Channel>)
      requires forall i, j :: 0 <= i < j < |events| ==> events[i].channel != events[j].channel
      modifies set i | 0 <= i < |events| :: events[i].channel`revents
      ensures |active| == |events|
      ensures forall i :: 0 <= i < |events| ==>
        active[i] == events[i].channel && active[i].revents == events[i].events
    {
      active := [];
      for i := 0 to |events|
        invariant |active| == i
        invariant forall k :: 0 <= k < i ==> active[k] == events[k].channel && active[k].revents == events[k].events
      {
        var channel := events[i].channel;
        channel.revents := events[i].events;
        active := active + [channel];
      }
    }

    /** The kernel reports members of its interest set, as many as there is room for, each once. */
    ghost predicate Reportable(events: seq<Interest<Channel>>)
      reads this
    {
      && |events| <= capacity
      && (forall i :: 0 <= i < |events| ==>
            events[i].channel.fd in kernel && kernel[events[i].channel.fd].channel == events[i].channel)
      && (forall i, j :: 0 <= i < j < |events| ==> events[i].channel != events[j].channel)
    }

    lemma ReportedIsAdded(events: seq<Interest<Channel>>, i: nat)
      requires Valid() && Reportable(events) && i < |events|
      ensures events[i].channel in live && events[i].channel.index == ADDED
    {
      var c := events[i].channel;
      assert c in Abs().chan;
      assert InStep(Abs(), c);
    }

    /** Only members of the kernel set are reported; the event list doubles when it came back full. */
    method Poll(result: WaitResult) returns (active: seq<Channel>)
      requires Valid()
      requires result.Ready? ==> Reportable(result.events)
      modifies this`capacity, (set c | c in live :: c)`revents
      ensures Valid() && Abs() == old(Abs())
      ensures result.WaitError? ==> active == [] && capacity == old(capacity)
      ensures result.Ready? ==>
        && |active| == |result.events|
        && (forall i :: 0 <= i < |active| ==>
              && active[i] == result.events[i].channel && active[i].revents == result.events[i].events
              && active[i] in live && active[i].index == ADDED)
        && capacity == if |active| > 0 && |active| == old(capacity) then 2 * old(capacity) else old(capacity)
    {
      hide Mirror;
      active := [];
      if result.Ready? && |result.events| > 0 {
        forall i | 0 <= i < |result.events|
          ensures result.events[i].channel in live && result.events[i].channel.index == ADDED
        {
          ReportedIsAdded(result.events, i);
        }
        active := FillActiveChannels(result.events);
        if |result.events| == capacity {
          capacity := capacity * 2;
        }
      }
      assert Abs() == old(Abs());
    }
  }
}
