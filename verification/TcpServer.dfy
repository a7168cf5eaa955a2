/**
 The server as an object: its map of connections, its connection counter and the functors it gives to
 the loops. `trace` records the steps of `Lifecycle` its methods take, so the theorems of
 `LifecycleSafety` hold of every server object.
 */
module TcpServer {
  import opened Lifecycle
  import P = PollerSpec
  import S = LifecycleSafety
  import Decimal
  import LoopPool

  class TcpServer {
    const prefix: string
    const threadPool: LoopPool.EventLoopThreadPool
    var nextConnId: nat
    var connections: map<string, ConnId>
    /** `getLoop()` of each connection, in order of acceptance. */
    var loopOf: seq<nat>
    /** The queues of the loops, base loop first. */
    var queues: seq<seq<Functor>>
    ghost var view: State
    ghost var trace: seq<Action>

    ghost predicate Valid()
      reads this, threadPool
    {
      && threadPool.Valid() && |view.loops| == |threadPool.loops| + 1
      && view.prefix == prefix && view.connections == connections && nextConnId == |view.conns| + 1
      && |loopOf| == |view.conns| && (forall c :: 0 <= c < |loopOf| ==> loopOf[c] == view.conns[c].loop)
      && |queues| == |view.loops| && (forall l :: 0 <= l < |queues| ==> queues[l] == view.loops[l].pending)
      && S.Run(S.Start(prefix, |threadPool.loops|), trace, view)
    }

    constructor (prefix: string, pool: LoopPool.EventLoopThreadPool)
      requires pool.Valid()
      ensures Valid() && this.threadPool == pool && this.prefix == prefix
      ensures view == S.Start(prefix, |pool.loops|) && connections == map[]
    {
      this.prefix, threadPool := prefix, pool;
      nextConnId, connections, loopOf := 1, map[], [];
      queues := seq(|pool.loops| + 1, _ => []);
      view := S.Start(prefix, |pool.loops|);
      trace := [];
    }

    ghost method Take(a: Action)
      requires S.Run(S.Start(prefix, |threadPool.loops|), trace, view) && Enabled(view, a)
      modifies this`view, this`trace
      ensures view == Step(old(view), a) && trace == old(trace) + [a]
      ensures S.Run(S.Start(prefix, |threadPool.loops|), trace, view)
    {
      S.RunSnoc(S.Start(prefix, |threadPool.loops|), trace, view, a);
      view := Step(view, a);
      trace := trace + [a];
    }

    /** `runInLoop` of loop `l`, called on loop `current`: run at once at home, queued elsewhere. */
    method RunInLoop(l: nat, current: nat, f: Functor) returns (now: bool)
      requires l < |queues|
      modifies this`queues
      ensures now <==> l == current
      ensures queues == if now then old(queues) else old(queues)[l := old(queues)[l] + [f]]
    {
      now := l == current;
      if !now {
        QueueInLoop(l, f);
      }
    }

    method QueueInLoop(l: nat, f: Functor)
      requires l < |queues|
      modifies this`queues
      ensures queues == old(queues)[l := old(queues)[l] + [f]]
    {
      queues := queues[l := queues[l] + [f]];
    }

    /** The first half of `newConnection`: the connection enters the map under a name of its own. */
    method Register(fd: int, ioLoop: nat) returns (c: ConnId)
      requires Valid() && Enabled(view, Accept(fd, ioLoop))
      modifies this`nextConnId, this`connections, this`loopOf, this`view, this`trace
      ensures Valid() && trace == old(trace) + [Accept(fd, ioLoop)] && Enabled(view, HandOff)
      ensures c == |old(view.conns)| && |view.conns| == c + 1 && view.loops[0].frame == Accepted(c)
      ensures connections == old(connections)[prefix + Decimal.ToString(old(nextConnId)) := c]
      ensures nextConnId == old(nextConnId) + 1
      ensures view.conns[c].loop == ioLoop && |connections| == |old(connections)| + 1 && loopOf == old(loopOf) + [ioLoop]
      ensures forall d :: InMap(view, d) <==> d == c || old(InMap(view, d))
    {
      hide S.Inv, S.Run;
      c := nextConnId - 1;
      var connName := prefix + Decimal.ToString(nextConnId);
      nextConnId := nextConnId + 1;
      connections := connections[connName := c];
      loopOf := loopOf + [ioLoop];
      S.ReachedIsOk(prefix, |threadPool.loops|, trace, view);
      S.NewNameIsUnused(view);
      S.AcceptOpens(view, fd, ioLoop);
      Take(Accept(fd, ioLoop));
    }

    /** The second half: `connectEstablished` runs at once or becomes a functor of the I/O loop. */
    method HandOver(c: ConnId, ioLoop: nat)
      requires Valid() && Enabled(view, HandOff) && view.loops[0].frame == Accepted(c)
      requires view.conns[c].loop == ioLoop
      modifies this`queues, this`view, this`trace
      ensures connections == old(connections) && nextConnId == old(nextConnId)
      ensures Valid() && trace == old(trace) + [HandOff] && |view.conns| == |old(view.conns)| && loopOf == old(loopOf)
      ensures forall d :: InMap(view, d) <==> old(InMap(view, d))
      ensures if ioLoop == 0 then view.conns[c].est else Established(c) in queues[ioLoop]
    {
      hide S.Inv, S.Run, P.Apply;
      var now := RunInLoop(ioLoop, 0, Established(c));
      S.HandOffKeepsTheMap(view);
      Take(HandOff);
      if !now {
        assert queues[ioLoop][|queues[ioLoop]| - 1] == Established(c);
      }
    }

    /** The acceptor's callback, in the handler phase of the base loop. */
    method NewConnection(fd: int) returns (c: ConnId, ioLoop: nat)
      requires Valid() && AtFrame(view, 0, Handling) && view.loops[0].frame == Free && FreshFd(view, fd)
      modifies this`nextConnId, this`connections, this`loopOf, this`queues, this`view, this`trace
      modifies threadPool`next, threadPool`history
      ensures Valid() && trace == old(trace) + [Accept(fd, ioLoop), HandOff]
      ensures c == |old(view.conns)| && InMap(view, c) && |connections| == |old(connections)| + 1
      ensures nextConnId == old(nextConnId) + 1 && prefix + Decimal.ToString(old(nextConnId)) in connections
      ensures connections[prefix + Decimal.ToString(old(nextConnId))] == c && old(nextConnId) == c + 1
      ensures loopOf == old(loopOf) + [ioLoop] && threadPool.loops == old(threadPool.loops)
      ensures threadPool.loops == [] ==> ioLoop == LoopPool.BASE
      ensures threadPool.loops != [] ==>
        var turn := LoopPool.Position(|threadPool.loops|, |old(threadPool.history)|);
        turn < |threadPool.loops| && ioLoop == threadPool.loops[turn]
      ensures forall d :: d != c ==> (InMap(view, d) <==> old(InMap(view, d)))
    {
      hide S.Inv, S.Run, P.Apply, Step;
      ioLoop := threadPool.GetNextLoop();
      c := Register(fd, ioLoop);
      HandOver(c, ioLoop);
    }

    /** The close callback, from `handleClose` on loop `current`. */
    method RemoveConnection(c: ConnId, current: nat)
      requires Valid() && current < |view.loops| && view.loops[current].frame == Closing(c)
      modifies this`connections, this`queues, this`view, this`trace
      ensures Valid() && c < |view.conns|
      ensures current != 0 ==> connections == old(connections) && Remove(c) in queues[0]
      ensures current == 0 ==> !InMap(view, c) && view.conns[c].loop < |queues| && Destroyed(c) in queues[view.conns[c].loop]
      ensures view.loops[current].frame == Dispatching(c) && view.conns == old(view.conns)
    {
      S.ReachedIsOk(prefix, |threadPool.loops|, trace, view);
      S.FrameIsKnown(view, current);
      var now := RunInLoop(0, current, Remove(c));
      Take(CloseEnd(current));
      if now {
        connections := connections - {prefix + Decimal.ToString(c + 1)};
        FinishRemoval(c);
      }
    }

    /** `removeConnectionInLoop` as a functor of the base loop. */
    method RemoveConnectionInLoop(c: ConnId)
      requires Valid() && Enabled(view, RunFunctor(0)) && view.loops[0].batch[0] == Remove(c)
      modifies this`connections, this`queues, this`view, this`trace
      ensures Valid() && !InMap(view, c) && view.conns == old(view.conns)
      ensures trace == old(trace) + [RunFunctor(0), EraseEnd]
      ensures c < |view.conns| && view.conns[c].loop < |queues| && Destroyed(c) in queues[view.conns[c].loop]
    {
      connections := connections - {prefix + Decimal.ToString(c + 1)};
      Take(RunFunctor(0));
      FinishRemoval(c);
    }

    /** After the erase: the destruction is queued on the connection's own loop, never run in place. */
    method FinishRemoval(c: ConnId)
      requires Valid() && view.loops[0].frame.Erased? && view.loops[0].frame.c == c
      modifies this`queues, this`view, this`trace
      ensures Valid() && view.conns == old(view.conns) && view.connections == old(view.connections)
      ensures trace == old(trace) + [EraseEnd]
      ensures c < |view.conns| && view.conns[c].loop < |queues| && Destroyed(c) in queues[view.conns[c].loop]
      ensures view.loops[0].frame == if old(view.loops[0].frame.dispatching) then Dispatching(c) else Free
    {
      S.ReachedIsOk(prefix, |threadPool.loops|, trace, view);
      S.FrameIsKnown(view, 0);
      ghost var own := view.conns[c].loop;
      QueueInLoop(loopOf[c], Destroyed(c));
      Take(EraseEnd);
      assert queues[own][|queues[own]| - 1] == Destroyed(c);
    }
  }
}
