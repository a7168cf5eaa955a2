/**
 The poller protocol on values: the three-state index of each channel, the poller's own table, and
 the kernel's interest set, which the operations must keep in step. `C` is the identity of a channel.
 */
module PollerSpec {

  /** One bit of an epoll event mask; a mask is the set of its bits. */
  datatype Flag = IN | PRI | OUT | ERR | HUP
  type Events = set<Flag>

  const NONE_EVENT: Events := {}
  const READ_EVENT: Events := {IN, PRI}
  const WRITE_EVENT: Events := {OUT}

  datatype Index = NEW | ADDED | DELETED
  datatype Chan = Chan(fd: int, events: Events, index: Index)
  datatype Interest<C> = Interest(channel: C, events: Events)
  datatype Ctl = ADD | MOD | DEL

  /** `refused` counts the `epoll_ctl` calls that the kernel rejected. */
  datatype World<!C> = World(
    chan: map<C, Chan>,
    table: map<int, C>,
    kernel: map<int, Interest<C>>,
    refused: nat)

  /** The kernel: ADD needs an absent descriptor, MOD and DEL a present one. */
  function EpollCtl<C>(w: World<C>, op: Ctl, c: C): World<C>
    requires c in w.chan
  {
    var fd := w.chan[c].fd;
    if (op == ADD) == (fd in w.kernel) then w.(refused := w.refused + 1)
    else if op == DEL then w.(kernel := w.kernel - {fd})
    else w.(kernel := w.kernel[fd := Interest(c, w.chan[c].events)])
  }

  function SetIndex<C>(w: World<C>, c: C, index: Index): World<C>
    requires c in w.chan
  {
    w.(chan := w.chan[c := w.chan[c].(index := index)])
  }

  function SetEvents<C>(w: World<C>, c: C, events: Events): World<C>
    requires c in w.chan
  {
    w.(chan := w.chan[c := w.chan[c].(events := events)])
  }

  function UpdateChannel<C>(w: World<C>, c: C): World<C>
    requires c in w.chan
  {
    if w.chan[c].index != ADDED then
      var listed := if w.chan[c].index == NEW then w.(table := w.table[w.chan[c].fd := c]) else w;
      EpollCtl(SetIndex(listed, c, ADDED), ADD, c)
    else if w.chan[c].events == NONE_EVENT then
      SetIndex(EpollCtl(w, DEL, c), c, DELETED)
    else
      EpollCtl(w, MOD, c)
  }

  function RemoveChannel<C>(w: World<C>, c: C): World<C>
    requires c in w.chan
  {
    var erased := w.(table := w.table - {w.chan[c].fd});
    SetIndex(if w.chan[c].index == ADDED then EpollCtl(erased, DEL, c) else erased, c, NEW)
  }

  predicate HasChannel<C>(w: World<C>, c: C)
    requires c in w.chan
  {
    w.chan[c].fd in w.table && w.table[w.chan[c].fd] == c
  }

  datatype ChannelOp = EnableReading | DisableReading | EnableWriting | DisableWriting | DisableAll | Remove

  function NewEvents(events: Events, op: ChannelOp): Events {
    match op
    case EnableReading => events + READ_EVENT
    case DisableReading => events - READ_EVENT
    case EnableWriting => events + WRITE_EVENT
    case DisableWriting => events - WRITE_EVENT
    case DisableAll => events * NONE_EVENT
    case Remove => events
  }

  /** One call on a channel: change the mask and report to the poller, or leave the poller. */
  function Apply<C>(w: World<C>, c: C, op: ChannelOp): World<C>
    requires c in w.chan
  {
    if op == Remove then RemoveChannel(w, c)
    else UpdateChannel(SetEvents(w, c, NewEvents(w.chan[c].events, op)), c)
  }

  predicate IsWriting<C>(w: World<C>, c: C)
    requires c in w.chan
  {
    w.chan[c].events * WRITE_EVENT != {}
  }

  /** What each operation does to the mask, flag by flag. */
  lemma OperationsByFlag(events: Events, op: ChannelOp, f: Flag)
    ensures f in NewEvents(events, op) <==> match op
      case EnableReading => f in events || f == IN || f == PRI
      case DisableReading => f in events && f != IN && f != PRI
      case EnableWriting => f in events || f == OUT
      case DisableWriting => f in events && f != OUT
      case DisableAll => false
      case Remove => f in events
  {
  }

  /** An operation on the mask leaves exactly that mask behind, whatever the index was; and a channel that
      still wants something is then watched for just that. */
  lemma ApplyLeaves<C>(w: World<C>, c: C, op: ChannelOp)
    requires c in w.chan && op != Remove
    ensures var v := Apply(w, c, op);
      && c in v.chan && v.chan[c].events == NewEvents(w.chan[c].events, op) && v.chan[c].fd == w.chan[c].fd
      && (v.chan[c].events != NONE_EVENT ==> v.chan[c].index == ADDED)
  {
  }

  /** In a mirrored poller the kernel then watches the channel for the new mask, unless it is empty. */
  lemma KernelWatchesNewMask<C>(w: World<C>, c: C, op: ChannelOp)
    requires Mirror(w) && c in w.chan && op != Remove && NewEvents(w.chan[c].events, op) != NONE_EVENT
    ensures var v := Apply(w, c, op); var fd := w.chan[c].fd;
      fd in v.kernel && v.kernel[fd] == Interest(c, NewEvents(w.chan[c].events, op))
  {
    ApplyKeepsMirror(w, c, op);
    ApplyLeaves(w, c, op);
    assert InStep(Apply(w, c, op), c);
  }

  lemma IsWritingByFlag<C>(w: World<C>, c: C)
    requires c in w.chan
    ensures IsWriting(w, c) <==> OUT in w.chan[c].events
  {
    assert OUT in w.chan[c].events ==> OUT in w.chan[c].events * WRITE_EVENT;
  }

  /** Live channels have live descriptors, which the operating system keeps distinct. */
  ghost predicate DistinctFds<C>(w: World<C>) {
    forall c, d :: c in w.chan && d in w.chan && w.chan[c].fd == w.chan[d].fd ==> c == d
  }

  /** What table and kernel say about one channel follows from its index alone. */
  ghost predicate InStep<C>(w: World<C>, c: C)
    requires c in w.chan
  {
    var ch := w.chan[c];
    && (HasChannel(w, c) <==> ch.index != NEW)
    && (ch.index == ADDED ==> ch.fd in w.kernel && w.kernel[ch.fd] == Interest(c, ch.events))
    && (ch.index != ADDED ==> ch.fd !in w.kernel)
    && (ch.index == DELETED ==> ch.events == NONE_EVENT)
  }

  /** The mirror: nothing but live channels is listed, and every channel is in step. */
  ghost predicate Mirror<C>(w: World<C>) {
    && DistinctFds(w)
    && (forall fd :: fd in w.table ==> w.table[fd] in w.chan && w.chan[w.table[fd]].fd == fd)
    && (forall fd :: fd in w.kernel ==> w.kernel[fd].channel in w.chan && w.chan[w.kernel[fd].channel].fd == fd)
    && (forall c :: c in w.chan ==> InStep(w, c))
  }

  /** `v` differs from `w` at most in channel `c` and in what is listed under its descriptor. */
  ghost predicate OnlyTouches<C>(w: World<C>, v: World<C>, c: C)
    requires c in w.chan
  {
    && v.chan.Keys == w.chan.Keys && v.chan[c].fd == w.chan[c].fd
    && (forall d :: d in w.chan && d != c ==> v.chan[d] == w.chan[d])
    && v.table - {w.chan[c].fd} == w.table - {w.chan[c].fd}
    && v.kernel - {w.chan[c].fd} == w.kernel - {w.chan[c].fd}
  }

  /** The kernel set is exactly the ADDED channels with their current events. */
  lemma MirrorIsExact<C>(w: World<C>, fd: int, e: Interest<C>)
    requires Mirror(w)
    ensures fd in w.kernel && w.kernel[fd] == e
      <==> e.channel in w.chan && w.chan[e.channel] == Chan(fd, e.events, ADDED)
  {
    if fd in w.kernel {
      assert InStep(w, w.kernel[fd].channel);
    }
    if e.channel in w.chan {
      assert InStep(w, e.channel);
    }
  }

  lemma OthersStayInStep<C>(w: World<C>, v: World<C>, c: C)
    requires Mirror(w) && c in w.chan && OnlyTouches(w, v, c)
    requires InStep(v, c)
    requires w.chan[c].fd in v.table ==> v.table[w.chan[c].fd] == c
    requires w.chan[c].fd in v.kernel ==> v.kernel[w.chan[c].fd].channel == c
    ensures Mirror(v)
  {
    var fd := w.chan[c].fd;
    forall d | d in v.chan ensures InStep(v, d) {
      if d != c {
        assert InStep(w, d) && w.chan[d].fd != fd;
        var g := w.chan[d].fd;
        assert (g in v.table <==> g in v.table - {fd}) && (g in w.table <==> g in w.table - {fd});
        assert (g in v.kernel <==> g in v.kernel - {fd}) && (g in w.kernel <==> g in w.kernel - {fd});
        assert g in v.table ==> v.table[g] == (v.table - {fd})[g] == w.table[g];
        assert g in v.kernel ==> v.kernel[g] == (v.kernel - {fd})[g] == w.kernel[g];
      }
    }
    forall g | g in v.table ensures v.table[g] in v.chan && v.chan[v.table[g]].fd == g {
      if g != fd {
        assert g in v.table - {fd} && v.table[g] == (v.table - {fd})[g] == w.table[g];
      }
    }
    forall g | g in v.kernel ensures v.kernel[g].channel in v.chan && v.chan[v.kernel[g].channel].fd == g {
      if g != fd {
        assert g in v.kernel - {fd} && v.kernel[g] == (v.kernel - {fd})[g] == w.kernel[g];
      }
    }
  }

  /** What one operation owes its own channel: in step, nothing else touched, no call refused. */
  ghost predicate KeepsStep<C>(w: World<C>, v: World<C>, c: C)
    requires c in w.chan
  {
    && OnlyTouches(w, v, c) && InStep(v, c) && v.refused == w.refused
    && (w.chan[c].fd in v.table ==> v.table[w.chan[c].fd] == c)
    && (w.chan[c].fd in v.kernel ==> v.kernel[w.chan[c].fd].channel == c)
  }

  lemma RemoveKeepsStep<C>(w: World<C>, c: C)
    requires c in w.chan && InStep(w, c)
    ensures KeepsStep(w, RemoveChannel(w, c), c)
  {
    var v := RemoveChannel(w, c);
    assert v.table - {w.chan[c].fd} == w.table - {w.chan[c].fd};
    assert v.kernel - {w.chan[c].fd} == w.kernel - {w.chan[c].fd};
  }

  lemma UpdateKeepsStep<C>(w: World<C>, c: C, events: Events)
    requires c in w.chan && InStep(w, c) && (w.chan[c].fd in w.table ==> w.table[w.chan[c].fd] == c)
    ensures KeepsStep(w, UpdateChannel(SetEvents(w, c, events), c), c)
  {
    var v := UpdateChannel(SetEvents(w, c, events), c);
    assert v.table - {w.chan[c].fd} == w.table - {w.chan[c].fd};
    assert v.kernel - {w.chan[c].fd} == w.kernel - {w.chan[c].fd};
  }

  /** One channel that is in step stays so, whatever the rest of the world looks like. */
  lemma ApplyKeepsStep<C>(w: World<C>, c: C, op: ChannelOp)
    requires c in w.chan && InStep(w, c) && (w.chan[c].fd in w.table ==> w.table[w.chan[c].fd] == c)
    ensures KeepsStep(w, Apply(w, c, op), c)
  {
    hide UpdateChannel, RemoveChannel, KeepsStep;
    RemoveKeepsStep(w, c);
    UpdateKeepsStep(w, c, NewEvents(w.chan[c].events, op));
  }

  /** Every channel operation keeps the mirror, issues no illegal `epoll_ctl`, and touches no other channel. */
  lemma ApplyKeepsMirror<C>(w: World<C>, c: C, op: ChannelOp)
    requires Mirror(w) && c in w.chan
    ensures Mirror(Apply(w, c, op))
    ensures Apply(w, c, op).refused == w.refused
    ensures OnlyTouches(w, Apply(w, c, op), c)
  {
    ApplyKeepsStep(w, c, op);
    OthersStayInStep(w, Apply(w, c, op), c);
  }

  ghost predicate Run<C>(w: World<C>, ops: seq<(C, ChannelOp)>, v: World<C>)
    decreases |ops|
  {
    if ops == [] then w == v
    else ops[0].0 in w.chan && Run(Apply(w, ops[0].0, ops[0].1), ops[1..], v)
  }

  /** Over every run of channel operations the mirror holds and no `epoll_ctl` was ever refused. */
  lemma {:induction false} RunKeepsMirror<C>(w: World<C>, ops: seq<(C, ChannelOp)>, v: World<C>)
    requires Mirror(w) && Run(w, ops, v)
    ensures Mirror(v) && v.refused == w.refused
    decreases |ops|
  {
    if ops != [] {
      ApplyKeepsMirror(w, ops[0].0, ops[0].1);
      RunKeepsMirror(Apply(w, ops[0].0, ops[0].1), ops[1..], v);
    }
  }

  /** A new channel on an unused descriptor joins without disturbing anyone. */
  lemma FreshChannelKeepsMirror<C>(w: World<C>, c: C, fd: int)
    requires Mirror(w) && c !in w.chan && forall d <- w.chan :: w.chan[d].fd != fd
    ensures Mirror(w.(chan := w.chan[c := Chan(fd, NONE_EVENT, NEW)]))
  {
    var v := w.(chan := w.chan[c := Chan(fd, NONE_EVENT, NEW)]);
    forall d | d in v.chan ensures InStep(v, d) {
      if d != c {
        assert InStep(w, d);
      }
    }
  }

  /** A channel that is NEW can leave the world: nothing in table or kernel names it. */
  lemma NewChannelMayLeave<C>(w: World<C>, c: C)
    requires Mirror(w) && c in w.chan && w.chan[c].index == NEW
    ensures Mirror(w.(chan := w.chan - {c}))
  {
    var v := w.(chan := w.chan - {c});
    assert InStep(w, c);
    forall d | d in v.chan ensures InStep(v, d) {
      assert InStep(w, d);
    }
  }

  /** A second `disableAll` puts a channel back into the kernel set, with no events. */
  lemma DisableAllTwiceReAdds<C>(w: World<C>, c: C)
    requires Mirror(w) && c in w.chan && w.chan[c].index == ADDED
    ensures var once := Apply(w, c, DisableAll);
      && once.chan[c].index == DELETED && w.chan[c].fd !in once.kernel
      && Apply(once, c, DisableAll).chan[c].index == ADDED
      && w.chan[c].fd in Apply(once, c, DisableAll).kernel
      && Apply(once, c, DisableAll).kernel[w.chan[c].fd] == Interest(c, NONE_EVENT)
  {
    assert InStep(w, c);
  }

  /** Without distinct descriptors the mirror breaks: adding a second channel on the same one is refused. */
  lemma SharedFdIsRefused<C>(w: World<C>, c: C, d: C)
    requires c != d && c in w.chan && d in w.chan && w.chan[c].fd == w.chan[d].fd
    requires w.chan[c].index == NEW && w.chan[d].index == ADDED && w.chan[d].fd in w.kernel
    ensures Apply(w, c, EnableReading).refused == w.refused + 1
    ensures !HasChannel(Apply(w, c, EnableReading), d)
  {
  }

  /** Removal is final and idempotent on the whole world. */
  lemma RemoveIsIdempotent<C>(w: World<C>, c: C)
    requires Mirror(w) && c in w.chan
    ensures var v := Apply(w, c, Remove);
      && v.chan[c].index == NEW && !HasChannel(v, c) && w.chan[c].fd !in v.kernel
      && Apply(v, c, Remove) == v
  {
    assert InStep(w, c);
    ApplyKeepsMirror(w, c, Remove);
    var v := Apply(w, c, Remove);
    assert InStep(v, c);
    assert v.table - {v.chan[c].fd} == v.table;
    assert v.chan[c := v.chan[c].(index := NEW)] == v.chan;
  }
}
