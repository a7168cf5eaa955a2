/**
 The life of connections across the base loop and the I/O loops, as a step system. Each loop's thread
 polls, dispatches and runs its functors; connections are accepted and erased on the base loop,
 established, closed and destroyed on their own. Shared ownership moves between the server's map,
 queued functors and the call stack. Loop 0 is the base loop; alone, it is every connection's own loop.
 */
module Lifecycle {
  import P = PollerSpec
  import C = ConnectionSpec
  import Decimal

  type ConnId = nat

  /** Functors that hold a shared pointer, and one kind for everything the user queues. */
  datatype Functor = Established(c: ConnId) | Remove(c: ConnId) | Destroyed(c: ConnId) | User

  /**
   What a loop's thread is in the middle of: inside `newConnection` with the connection in the map;
   inside `connectEstablished`, at its callback; inside `handleEvent`; inside `handleClose`, before the
   close callback; in `removeConnectionInLoop`, after the erase; inside `connectDestroyed`, before the
   removal of the channel.
   */
  datatype Frame =
    | Free
    | Accepted(c: ConnId)
    | Establishing(c: ConnId)
    | Dispatching(c: ConnId)
    | Closing(c: ConnId)
    | Erased(c: ConnId, dispatching: bool)
    | Destroying(c: ConnId)

  datatype Phase = Polling | Handling | Running

  datatype Loop = Loop(
    phase: Phase,
    frame: Frame,
    pending: seq<Functor>,
    batch: seq<Functor>,
    active: seq<ConnId>,
    io: P.World<ConnId>)

  /** `gone`: `connectDestroyed` has completed. `alive`: the object has not been freed. */
  datatype Rec = Rec(loop: nat, status: C.Status, est: bool, gone: bool, alive: bool)

  /** Connections are numbered in order of acceptance; the server's map is keyed by name. */
  datatype State = State(
    prefix: string,
    loops: seq<Loop>,
    conns: seq<Rec>,
    connections: map<string, ConnId>)

  // ---------------------------------------------------------------- primitive moves

  function Name(s: State, c: ConnId): string { s.prefix + Decimal.ToString(c + 1) }

  predicate InMap(s: State, c: ConnId) {
    Name(s, c) in s.connections && s.connections[Name(s, c)] == c
  }

  /** The identifiers in use. */
  predicate Known(s: State, c: ConnId) { c < |s.conns| && s.conns[c].loop < |s.loops| }

  predicate Live(s: State, c: ConnId) { Known(s, c) && c in s.loops[s.conns[c].loop].io.chan }

  function Own(s: State, c: ConnId): Loop
    requires Known(s, c)
  {
    s.loops[s.conns[c].loop]
  }

  function SetLoop(s: State, l: nat, loop: Loop): State
    requires l < |s.loops|
  {
    s.(loops := s.loops[l := loop])
  }

  function Push(s: State, l: nat, f: Functor): State
    requires l < |s.loops|
  {
    SetLoop(s, l, s.loops[l].(pending := s.loops[l].pending + [f]))
  }

  function Reframe(s: State, l: nat, frame: Frame): State
    requires l < |s.loops|
  {
    SetLoop(s, l, s.loops[l].(frame := frame))
  }

  function SetRec(s: State, c: ConnId, r: Rec): State
    requires c < |s.conns|
  {
    s.(conns := s.conns[c := r])
  }

  function SetStatus(s: State, c: ConnId, status: C.Status): State
    requires c < |s.conns|
  {
    SetRec(s, c, s.conns[c].(status := status))
  }

  /** A channel operation, on the poller of the connection's own loop. */
  function Io(s: State, c: ConnId, op: P.ChannelOp): State
    requires Live(s, c)
  {
    SetLoop(s, s.conns[c].loop, Own(s, c).(io := P.Apply(Own(s, c).io, c, op)))
  }

  function Erase(s: State, c: ConnId): State {
    s.(connections := s.connections - {Name(s, c)})
  }

  function Pop(s: State, l: nat): State
    requires l < |s.loops| && s.loops[l].batch != []
  {
    SetLoop(s, l, s.loops[l].(batch := s.loops[l].batch[1..]))
  }

  // ---------------------------------------------------------------- ownership

  predicate Queued(loop: Loop, f: Functor) { f in loop.pending || f in loop.batch }

  predicate FrameHolds(frame: Frame, c: ConnId) { !frame.Free? && frame.c == c }

  /** Some shared pointer of the library owns the connection: the map, a functor, or a call in progress. */
  ghost predicate Held(s: State, c: ConnId) {
    || InMap(s, c)
    || exists l :: 0 <= l < |s.loops| && HeldBy(s.loops[l], c)
  }

  predicate HeldBy(loop: Loop, c: ConnId) {
    || Queued(loop, Established(c)) || Queued(loop, Remove(c)) || Queued(loop, Destroyed(c))
    || FrameHolds(loop.frame, c)
  }

  // ---------------------------------------------------------------- steps

  datatype Action =
    // the server's acceptor, on the base loop
    | Accept(fd: int, own: nat)
    | HandOff
    | EndEstablish(l: nat)
    // one turn of loop l
    | Poll(l: nat, ready: seq<ConnId>)
    | Dispatch(l: nat)
    | Drained(l: nat)
    | CloseBegin(l: nat)
    | CloseEnd(l: nat)
    | EraseEnd
    | EndDispatch(l: nat)
    | EndHandlers(l: nat)
    | RunFunctor(l: nat)
    | EndDestroy(l: nat)
    | EndBatch(l: nat)
    // user code and other threads
    | UserSend(c: ConnId)
    | ShutDown(c: ConnId)
    | UserTask(l: nat)
    // the last shared pointer is dropped
    | FreeObject(c: ConnId)

  /** The kernel reports a channel at most once, and only if it is in the interest set. */
  predicate Reportable(io: P.World<ConnId>, ready: seq<ConnId>) {
    && (forall i :: 0 <= i < |ready| ==>
          ready[i] in io.chan && io.chan[ready[i]].fd in io.kernel && io.kernel[io.chan[ready[i]].fd].channel == ready[i])
    && (forall i, j :: 0 <= i < j < |ready| ==> ready[i] != ready[j])
  }

  /** The operating system gives out a descriptor that no open socket has. */
  ghost predicate FreshFd(s: State, fd: int) {
    forall l, c :: 0 <= l < |s.loops| && c in s.loops[l].io.chan ==> s.loops[l].io.chan[c].fd != fd
  }

  predicate AtFrame(s: State, l: nat, phase: Phase) { l < |s.loops| && s.loops[l].phase == phase }

  ghost predicate Enabled(s: State, a: Action) {
    match a
    case Accept(fd, own) =>
      && AtFrame(s, 0, Handling) && s.loops[0].frame == Free && FreshFd(s, fd)
      && own < |s.loops| && (own == 0 <==> |s.loops| == 1)
    case HandOff => AtFrame(s, 0, Handling) && s.loops[0].frame.Accepted? && Live(s, s.loops[0].frame.c)
    case EndEstablish(l) => l < |s.loops| && s.loops[l].frame.Establishing?
    case Poll(l, ready) => AtFrame(s, l, Polling) && Reportable(s.loops[l].io, ready)
    case Dispatch(l) => AtFrame(s, l, Handling) && s.loops[l].frame == Free && s.loops[l].active != []
    case Drained(l) =>
      && l < |s.loops| && s.loops[l].frame.Dispatching? && Live(s, s.loops[l].frame.c)
      && P.IsWriting(Own(s, s.loops[l].frame.c).io, s.loops[l].frame.c)
    case CloseBegin(l) => l < |s.loops| && s.loops[l].frame.Dispatching? && Live(s, s.loops[l].frame.c)
    case CloseEnd(l) => l < |s.loops| && s.loops[l].frame.Closing?
    case EraseEnd => |s.loops| > 0 && s.loops[0].frame.Erased? && Known(s, s.loops[0].frame.c)
    case EndDispatch(l) => l < |s.loops| && s.loops[l].frame.Dispatching?
    case EndHandlers(l) => AtFrame(s, l, Handling) && s.loops[l].frame == Free && s.loops[l].active == []
    case RunFunctor(l) =>
      && AtFrame(s, l, Running) && s.loops[l].frame == Free && s.loops[l].batch != []
      && (!s.loops[l].batch[0].User? ==> Live(s, s.loops[l].batch[0].c))
    case EndDestroy(l) => l < |s.loops| && s.loops[l].frame.Destroying? && Live(s, s.loops[l].frame.c)
    case EndBatch(l) => AtFrame(s, l, Running) && s.loops[l].frame == Free && s.loops[l].batch == []
    case UserSend(c) => Live(s, c) && Own(s, c).phase != Polling
    case ShutDown(c) => Live(s, c)
    case UserTask(l) => l < |s.loops|
    case FreeObject(c) => Live(s, c) && !Held(s, c)
  }

  /** `connectEstablished` up to its callback. */
  function Establish(s: State, l: nat, c: ConnId): State
    requires l < |s.loops| && Live(s, c)
  {
    Reframe(Io(SetRec(s, c, s.conns[c].(status := C.Connected, est := true)), c, P.EnableReading), l, Establishing(c))
  }

  /** `connectDestroyed` up to its callback: a connection still connected is disconnected first. */
  function Disconnect(s: State, c: ConnId): State
    requires Live(s, c)
  {
    if s.conns[c].status == C.Connected then Io(SetStatus(s, c, C.Disconnected), c, P.DisableAll) else s
  }

  function BeginDestroy(s: State, l: nat, c: ConnId): State
    requires l < |s.loops| && Live(s, c)
  {
    Reframe(Disconnect(s, c), l, Destroying(c))
  }

  function Step(s: State, a: Action): State
    requires Enabled(s, a)
  {
    match a
    case Accept(fd, own) =>
      var c := |s.conns|;
      var io := s.loops[own].io;
      var joined := SetLoop(s, own, s.loops[own].(io := io.(chan := io.chan[c := P.Chan(fd, P.NONE_EVENT, P.NEW)])));
      Reframe(
        joined.(conns := s.conns + [Rec(own, C.Connecting, false, false, true)],
                connections := s.connections[Name(s, c) := c]),
        0, Accepted(c))
    case HandOff =>
      var c := s.loops[0].frame.c;
      if s.conns[c].loop == 0 then Establish(s, 0, c)
      else Reframe(Push(s, s.conns[c].loop, Established(c)), 0, Free)
    case EndEstablish(l) => Reframe(s, l, Free)
    case Poll(l, ready) => SetLoop(s, l, s.loops[l].(phase := Handling, active := ready))
    case Dispatch(l) =>
      Reframe(SetLoop(s, l, s.loops[l].(active := s.loops[l].active[1..])), l, Dispatching(s.loops[l].active[0]))
    case Drained(l) => Io(s, s.loops[l].frame.c, P.DisableWriting)
    case CloseBegin(l) => Reframe(Io(s, s.loops[l].frame.c, P.DisableAll), l, Closing(s.loops[l].frame.c))
    case CloseEnd(l) =>
      var c := s.loops[l].frame.c;
      if l == 0 then Reframe(Erase(s, c), 0, Erased(c, true))
      else Reframe(Push(s, 0, Remove(c)), l, Dispatching(c))
    case EraseEnd =>
      var f := s.loops[0].frame;
      Reframe(Push(s, s.conns[f.c].loop, Destroyed(f.c)), 0, if f.dispatching then Dispatching(f.c) else Free)
    case EndDispatch(l) => Reframe(s, l, Free)
    case EndHandlers(l) =>
      SetLoop(s, l, s.loops[l].(phase := Running, batch := s.loops[l].pending, pending := []))
    case RunFunctor(l) =>
      var f := s.loops[l].batch[0];
      var popped := Pop(s, l);
      (match f
       case Established(c) => Establish(popped, l, c)
       case Remove(c) => Reframe(Erase(popped, c), l, Erased(c, false))
       case Destroyed(c) => BeginDestroy(popped, l, c)
       case User => popped)
    case EndDestroy(l) =>
      var c := s.loops[l].frame.c;
      Reframe(SetRec(Io(s, c, P.Remove), c, s.conns[c].(gone := true)), l, Free)
    case EndBatch(l) => SetLoop(s, l, s.loops[l].(phase := Polling))
    case UserSend(c) => if s.conns[c].status == C.Connected then Io(s, c, P.EnableWriting) else s
    case ShutDown(c) => if s.conns[c].status == C.Connected then SetStatus(s, c, C.Disconnected) else s
    case UserTask(l) => Push(s, l, User)
    case FreeObject(c) =>
      var own := Own(s, c);
      SetLoop(SetRec(s, c, s.conns[c].(alive := false)), s.conns[c].loop,
              own.(io := own.io.(chan := own.io.chan - {c})))
  }
}
