/**
 One connection on values: its state, its pending output, its channel inside the poller's world, and
 the bytes the kernel has taken. The theorems range over every run of its entry points with arbitrary
 short writes and errors; `TcpConnection` proves that its methods take exactly these steps.
 */
module ConnectionSpec {
  import opened Bytes
  import P = PollerSpec

  datatype Status = Disconnected | Connecting | Connected | Disconnecting

  /** Functors the connection hands to its loop's queue. */
  datatype Task = HighWater(pending: nat) | WriteComplete | ShutdownInLoop

  /** `write` on the socket: a short count, or -1 with one of the error numbers told apart by the code. */
  datatype WriteResult = Wrote(n: nat) | WouldBlock | BrokenPipe | ConnReset | OtherError

  /**
   `wire` is what the kernel accepted, `queued` every functor ever queued, `shutdownsDue` how many of
   the queued half-closes have not run yet, and `accepted` the payloads the connection took on.
   */
  datatype Conn<!C> = Conn(
    status: Status,
    io: P.World<C>,
    me: C,
    output: seq<byte>,
    mark: nat,
    notify: bool,
    wire: seq<byte>,
    halfClosed: bool,
    queued: seq<Task>,
    shutdownsDue: nat,
    accepted: seq<byte>)
  {
    predicate Ok() { me in io.chan }

    predicate IsWriting()
      requires Ok()
    {
      P.IsWriting(io, me)
    }

    function Channel(op: P.ChannelOp): (c: Conn<C>)
      requires Ok()
      ensures c.Ok()
    {
      this.(io := P.Apply(io, me, op))
    }
  }

  // ---------------------------------------------------------------- entry points

  /** The direct attempt to write: allowed only when nothing is pending before the new bytes. */
  predicate DirectWrite<C>(c: Conn<C>)
    requires c.Ok()
  {
    !c.IsWriting() && c.output == []
  }

  function DirectCount<C>(c: Conn<C>, r: WriteResult): nat
    requires c.Ok()
  {
    if DirectWrite(c) && r.Wrote? then r.n else 0
  }

  /** Only a broken pipe or a reset makes the rest of the payload be given up. */
  predicate Fault<C>(c: Conn<C>, r: WriteResult)
    requires c.Ok()
  {
    DirectWrite(c) && (r == BrokenPipe || r == ConnReset)
  }

  /** The connection after the direct attempt; a payload that is not given up counts as accepted. */
  function AfterWrite<C>(c: Conn<C>, data: seq<byte>, r: WriteResult): (c': Conn<C>)
    requires c.Ok() && (r.Wrote? ==> r.n <= |data|)
    ensures c'.Ok()
  {
    var n := DirectCount(c, r);
    var done := DirectWrite(c) && r.Wrote? && n == |data| && c.notify;
    c.(wire := c.wire + data[..n],
       accepted := c.accepted + if Fault(c, r) then [] else data,
       queued := c.queued + if done then [WriteComplete] else [])
  }

  /** What the kernel did not take waits in the output buffer, and the channel waits to write. */
  function Hold<C>(c: Conn<C>, rest: seq<byte>): (c': Conn<C>)
    requires c.Ok()
    ensures c'.Ok()
  {
    var total := |c.output| + |rest|;
    var crossed := total >= c.mark && |c.output| < c.mark && c.mark != 0;
    var held := c.(output := c.output + rest, queued := c.queued + if crossed then [HighWater(total)] else []);
    if held.IsWriting() then held else held.Channel(P.EnableWriting)
  }

  function SendInLoop<C>(c: Conn<C>, data: seq<byte>, r: WriteResult): (c': Conn<C>)
    requires c.Ok() && (r.Wrote? ==> r.n <= |data|)
    ensures c'.Ok()
  {
    if c.status == Disconnected then c
    else
      var sent := AfterWrite(c, data, r);
      var rest := data[DirectCount(c, r)..];
      if Fault(c, r) || rest == [] then sent else Hold(sent, rest)
  }

  function ShutdownNow<C>(c: Conn<C>): Conn<C>
    requires c.Ok()
  {
    if c.IsWriting() then c else c.(halfClosed := true)
  }

  /** The output has just run empty: stop waiting to write, tell the user, and finish a shutdown. */
  function AfterDrain<C>(c: Conn<C>): (c': Conn<C>)
    requires c.Ok()
    ensures c'.Ok()
  {
    var idle := c.Channel(P.DisableWriting);
    var told := idle.(queued := idle.queued + if idle.notify then [WriteComplete] else []);
    if told.status == Disconnected then ShutdownNow(told) else told
  }

  function HandleWrite<C>(c: Conn<C>, r: WriteResult): (c': Conn<C>)
    requires c.Ok() && (r.Wrote? ==> r.n <= |c.output|)
    ensures c'.Ok()
  {
    if !c.IsWriting() || !r.Wrote? || r.n == 0 then c
    else
      var sent := c.(wire := c.wire + c.output[..r.n], output := c.output[r.n..]);
      if sent.output == [] then AfterDrain(sent) else sent
  }

  /** `shutdown`: in the loop's own thread the half-close is tried at once, elsewhere it is queued. */
  function Shutdown<C>(c: Conn<C>, inLoop: bool): (c': Conn<C>)
    requires c.Ok()
    ensures c'.Ok()
  {
    if c.status != Connected then c
    else if inLoop then ShutdownNow(c.(status := Disconnected))
    else c.(status := Disconnected, queued := c.queued + [ShutdownInLoop], shutdownsDue := c.shutdownsDue + 1)
  }

  function RunShutdown<C>(c: Conn<C>): (c': Conn<C>)
    requires c.Ok() && c.shutdownsDue > 0
    ensures c'.Ok()
  {
    ShutdownNow(c.(shutdownsDue := c.shutdownsDue - 1))
  }

  function HandleClose<C>(c: Conn<C>): (c': Conn<C>)
    requires c.Ok()
    ensures c'.Ok()
  {
    c.Channel(P.DisableAll)
  }

  /** `handleRead` after `readv` returned `n`: only end of stream concerns the output side. */
  function HandleRead<C>(c: Conn<C>, n: int): (c': Conn<C>)
    requires c.Ok()
    ensures c'.Ok()
  {
    if n == 0 then HandleClose(c) else c
  }

  function ConnectEstablished<C>(c: Conn<C>): (c': Conn<C>)
    requires c.Ok()
    ensures c'.Ok()
  {
    c.(status := Connected).Channel(P.EnableReading)
  }

  function ConnectDestroyed<C>(c: Conn<C>): (c': Conn<C>)
    requires c.Ok()
    ensures c'.Ok()
  {
    (if c.status == Connected then c.(status := Disconnected).Channel(P.DisableAll) else c).Channel(P.Remove)
  }

  // ---------------------------------------------------------------- runs

  datatype Action =
    | Establish
    | Send(data: seq<byte>, r: WriteResult)
    | Write(w: WriteResult)
    | Read(n: int)
    | Close
    | ShutDown(inLoop: bool)
    | QueuedShutdown
    | Destroy

  predicate Enabled<C>(c: Conn<C>, a: Action)
    requires c.Ok()
  {
    match a
    case Establish => c.status == Connecting
    case Send(data, r) => r.Wrote? ==> r.n <= |data|
    case Write(w) => w.Wrote? ==> w.n <= |c.output|
    case QueuedShutdown => c.shutdownsDue > 0
    case Destroy => c.status != Connecting
    case _ => true
  }

  function Step<C>(c: Conn<C>, a: Action): (c': Conn<C>)
    requires c.Ok() && Enabled(c, a)
    ensures c'.Ok()
  {
    match a
    case Establish => ConnectEstablished(c)
    case Send(data, r) => SendInLoop(c, data, r)
    case Write(w) => HandleWrite(c, w)
    case Read(n) => HandleRead(c, n)
    case Close => HandleClose(c)
    case ShutDown(inLoop) => Shutdown(c, inLoop)
    case QueuedShutdown => RunShutdown(c)
    case Destroy => ConnectDestroyed(c)
  }

  ghost predicate Run<C>(c: Conn<C>, acts: seq<Action>, d: Conn<C>)
    requires c.Ok()
    decreases |acts|
  {
    if acts == [] then c == d else Enabled(c, acts[0]) && Run(Step(c, acts[0]), acts[1..], d)
  }

  lemma RunOne<C>(c: Conn<C>, a: Action)
    requires c.Ok() && Enabled(c, a)
    ensures Run(c, [a], Step(c, a))
  {
    assert [a][1..] == [];
  }

  lemma {:induction false} RunConcat<C>(c: Conn<C>, xs: seq<Action>, d: Conn<C>, ys: seq<Action>, e: Conn<C>)
    requires c.Ok() && Run(c, xs, d) && d.Ok() && Run(d, ys, e)
    ensures Run(c, xs + ys, e)
    decreases |xs|
  {
    if xs == [] {
      assert xs + ys == ys;
    } else {
      assert (xs + ys)[1..] == xs[1..] + ys;
      RunConcat(Step(c, xs[0]), xs[1..], d, ys, e);
    }
  }

  /** A connection as the server creates it: its channel is new and nothing has moved. */
  ghost predicate Fresh<C>(c: Conn<C>) {
    && c.Ok() && P.Mirror(c.io) && c.io.chan[c.me].index == P.NEW && c.io.chan[c.me].events == P.NONE_EVENT
    && c.status == Connecting && c.output == [] && c.wire == [] && c.accepted == []
    && !c.halfClosed && c.queued == [] && c.shutdownsDue == 0
  }

  // ---------------------------------------------------------------- stream conservation

  /** Bytes given to the kernel followed by bytes still pending are the accepted payloads, in order. */
  ghost predicate Conserved<C>(c: Conn<C>) { c.wire + c.output == c.accepted }

  lemma Splice<T>(wire: seq<T>, output: seq<T>, data: seq<T>, n: nat)
    requires n <= |data| && (n > 0 ==> output == [])
    ensures (wire + data[..n]) + (output + data[n..]) == (wire + output) + data
  {
    assert data[..n] + data[n..] == data;
  }

  /** A send that is neither refused nor broken splits its payload between the wire and the output. */
  lemma SendSplits<C>(c: Conn<C>, data: seq<byte>, r: WriteResult)
    requires c.Ok() && (r.Wrote? ==> r.n <= |data|) && c.status != Disconnected && !Fault(c, r)
    ensures var d := SendInLoop(c, data, r); var n := DirectCount(c, r);
      && d.wire == c.wire + data[..n] && d.output == c.output + data[n..]
      && d.accepted == c.accepted + data && (n > 0 ==> c.output == [])
  {
  }

  lemma SendConserves<C>(c: Conn<C>, data: seq<byte>, r: WriteResult)
    requires c.Ok() && (r.Wrote? ==> r.n <= |data|) && Conserved(c)
    ensures Conserved(SendInLoop(c, data, r))
  {
    if c.status != Disconnected && !Fault(c, r) {
      SendSplits(c, data, r);
      Splice(c.wire, c.output, data, DirectCount(c, r));
    }
  }

  lemma WriteConserves<C>(c: Conn<C>, w: WriteResult)
    requires c.Ok() && (w.Wrote? ==> w.n <= |c.output|) && Conserved(c)
    ensures Conserved(HandleWrite(c, w))
  {
    if c.IsWriting() && w.Wrote? && w.n > 0 {
      assert c.output[..w.n] + c.output[w.n..] == c.output;
      assert (c.wire + c.output[..w.n]) + c.output[w.n..] == c.wire + c.output;
    }
  }

  lemma StepConserves<C>(c: Conn<C>, a: Action)
    requires c.Ok() && Enabled(c, a) && Conserved(c)
    ensures Conserved(Step(c, a))
  {
    match a
    case Send(data, r) => SendConserves(c, data, r);
    case Write(w) => WriteConserves(c, w);
    case _ =>
  }

  /** A payload is accepted whole or not at all: never after disconnection, never on a fault. */
  lemma AcceptedWholeOrNotAtAll<C>(c: Conn<C>, data: seq<byte>, r: WriteResult)
    requires c.Ok() && Enabled(c, Send(data, r))
    ensures SendInLoop(c, data, r).accepted
      == if c.status == Disconnected || Fault(c, r) then c.accepted else c.accepted + data
    ensures Fault(c, r) || c.status == Disconnected ==>
      SendInLoop(c, data, r).wire == c.wire && SendInLoop(c, data, r).output == c.output
  {
  }

  lemma {:induction false} RunConserves<C>(c: Conn<C>, acts: seq<Action>, d: Conn<C>)
    requires c.Ok() && Conserved(c) && Run(c, acts, d)
    ensures Conserved(d)
    decreases |acts|
  {
    if acts != [] {
      StepConserves(c, acts[0]);
      RunConserves(Step(c, acts[0]), acts[1..], d);
    }
  }

  /** Output stream conservation over every run of a connection. */
  lemma OutputIsOneStream<C>(c: Conn<C>, acts: seq<Action>, d: Conn<C>)
    requires Fresh(c) && Run(c, acts, d)
    ensures d.wire + d.output == d.accepted && d.wire <= d.accepted
  {
    RunConserves(c, acts, d);
  }

  // ---------------------------------------------------------------- what each entry point does

  predicate WantsToWrite<C>(c: Conn<C>)
    requires c.Ok()
  {
    P.OUT in c.io.chan[c.me].events
  }

  lemma WantsToWriteAfter<C>(c: Conn<C>, op: P.ChannelOp)
    requires c.Ok() && op != P.Remove
    ensures WantsToWrite(c) <==> c.IsWriting()
    ensures var d := c.Channel(op);
      && (WantsToWrite(d) <==> d.IsWriting())
      && (WantsToWrite(d) <==> op == P.EnableWriting || (WantsToWrite(c) && op != P.DisableWriting && op != P.DisableAll))
  {
    P.IsWritingByFlag(c.io, c.me);
    P.IsWritingByFlag(P.Apply(c.io, c.me, op), c.me);
    P.ApplyLeaves(c.io, c.me, op);
    P.OperationsByFlag(c.io.chan[c.me].events, op, P.OUT);
  }

  /**
   A send by its outcome. Nothing happens on a disconnected connection. While something is pending, or the
   channel waits to write, the kernel is not asked and the payload joins the output. Otherwise the kernel
   takes a part and the rest is held; a failing `write` holds everything, except that a broken pipe or a
   reset gives the payload up.
   */
  lemma SendOutcome<C>(c: Conn<C>, data: seq<byte>, r: WriteResult)
    requires c.Ok() && Enabled(c, Send(data, r))
    ensures var d := SendInLoop(c, data, r);
      var busy := WantsToWrite(c) || c.output != [];
      if c.status == Disconnected then d == c
      else if !busy && (r == BrokenPipe || r == ConnReset) then d == c
      else
        var n := if !busy && r.Wrote? then r.n else 0;
        && d.wire == c.wire + data[..n] && d.output == c.output + data[n..] && d.accepted == c.accepted + data
        && d.status == c.status && d.halfClosed == c.halfClosed && d.shutdownsDue == c.shutdownsDue
        && (WantsToWrite(d) <==> n < |data| || WantsToWrite(c))
  {
    hide P.Apply;
    WantsToWriteAfter(c, P.EnableWriting);
    if c.status != Disconnected {
      if Fault(c, r) {
        assert c.wire + data[..0] == c.wire;
      } else {
        SendSplits(c, data, r);
      }
    }
  }

  /** Exactly when a payload is given up. */
  lemma GivenUpIff<C>(c: Conn<C>, data: seq<byte>, r: WriteResult)
    requires c.Ok() && Enabled(c, Send(data, r)) && data != []
    ensures SendInLoop(c, data, r).accepted == c.accepted
      <==> c.status == Disconnected || (!WantsToWrite(c) && c.output == [] && (r == BrokenPipe || r == ConnReset))
  {
    hide P.Apply, SendInLoop;
    SendOutcome(c, data, r);
    assert |c.accepted + data| > |c.accepted|;
  }

  /** A drain by its outcome, in every state of the connection: what the kernel takes leaves the output, and
      the channel goes on waiting exactly while something is left; without write interest, on an error or on
      a count of zero nothing changes. */
  lemma WriteOutcome<C>(c: Conn<C>, w: WriteResult)
    requires c.Ok() && Enabled(c, Write(w))
    ensures var d := HandleWrite(c, w);
      if WantsToWrite(c) && w.Wrote? && w.n > 0 then
        && d.wire == c.wire + c.output[..w.n] && d.output == c.output[w.n..]
        && d.status == c.status && d.accepted == c.accepted && d.shutdownsDue == c.shutdownsDue
        && (WantsToWrite(d) <==> w.n < |c.output|)
        && (d.halfClosed <==> c.halfClosed || (w.n == |c.output| && c.status == Disconnected))
      else d == c
  {
    hide P.Apply;
    WantsToWriteAfter(c, P.DisableWriting);
  }

  /** A shutdown by its outcome: it disconnects a connected connection once, and either half-closes at once
      unless the channel waits to write, or owes the loop one half-close. */
  lemma ShutdownOutcome<C>(c: Conn<C>, inLoop: bool)
    requires c.Ok()
    ensures var d := Shutdown(c, inLoop);
      if c.status != Connected then d == c
      else if inLoop then d == c.(status := Disconnected, halfClosed := c.halfClosed || !WantsToWrite(c))
      else d == c.(status := Disconnected, queued := c.queued + [ShutdownInLoop], shutdownsDue := c.shutdownsDue + 1)
  {
    P.IsWritingByFlag(c.io, c.me);
  }

  /** A queued half-close is run once, and does nothing while the channel waits to write. */
  lemma QueuedShutdownOutcome<C>(c: Conn<C>)
    requires c.Ok() && c.shutdownsDue > 0
    ensures RunShutdown(c)
      == c.(shutdownsDue := c.shutdownsDue - 1, halfClosed := c.halfClosed || !WantsToWrite(c))
  {
    P.IsWritingByFlag(c.io, c.me);
  }

  /** End of stream turns every event off and nothing else; other reads leave the output side alone. */
  lemma ReadOutcome<C>(c: Conn<C>, n: int)
    requires c.Ok()
    ensures var d := HandleRead(c, n);
      && (n == 0 ==> d == c.(io := d.io) && d.io.chan[c.me].events == {})
      && (n != 0 ==> d == c)
  {
    P.ApplyLeaves(c.io, c.me, P.DisableAll);
    forall f ensures f !in HandleClose(c).io.chan[c.me].events {
      P.OperationsByFlag(c.io.chan[c.me].events, P.DisableAll, f);
    }
  }

  /** Destruction by its outcome: whatever it was, the connection ends disconnected and unlisted; one that was
      still connected also stops wanting any event first, one that was not keeps its mask. */
  lemma DestroyOutcome<C>(c: Conn<C>)
    requires c.Ok()
    ensures var d := ConnectDestroyed(c);
      && d == c.(status := if c.status == Connected then Disconnected else c.status, io := d.io)
      && d.io.chan[c.me].index == P.NEW && d.io.chan[c.me].fd !in d.io.table
      && d.io.chan[c.me].events == if c.status == Connected then {} else c.io.chan[c.me].events
  {
    P.ApplyLeaves(c.io, c.me, P.DisableAll);
    forall f ensures f !in P.NewEvents(c.io.chan[c.me].events, P.DisableAll) {
      P.OperationsByFlag(c.io.chan[c.me].events, P.DisableAll, f);
    }
  }

  /** Exactly which drains tell the user that everything is written: one that takes all that was pending. */
  lemma DrainCompletesIff<C>(c: Conn<C>, w: WriteResult)
    requires c.Ok() && Enabled(c, Write(w))
    ensures HandleWrite(c, w).queued == c.queued + [WriteComplete] <==>
      c.notify && WantsToWrite(c) && c.output != [] && w == Wrote(|c.output|)
  {
    hide P.Apply;
    P.IsWritingByFlag(c.io, c.me);
    assert |c.queued + [WriteComplete]| > |c.queued|;
  }

  /** And exactly which sends: one that the kernel takes whole, at once. */
  lemma SendCompletesIff<C>(c: Conn<C>, data: seq<byte>, r: WriteResult)
    requires c.Ok() && Enabled(c, Send(data, r))
    ensures SendInLoop(c, data, r).queued == c.queued + [WriteComplete] <==>
      c.notify && c.status != Disconnected && !WantsToWrite(c) && c.output == [] && r == Wrote(|data|)
  {
    hide P.Apply;
    P.IsWritingByFlag(c.io, c.me);
    assert |c.queued + [WriteComplete]| > |c.queued|;
    assert (c.queued + [WriteComplete])[|c.queued|] == WriteComplete;
  }

  // ---------------------------------------------------------------- graceful half-close

  /** The actions that tear the channel down; a run is gentle until the first of them. */
  predicate Gentle(acts: seq<Action>) {
    forall i :: 0 <= i < |acts| ==> !TearsDown(acts[i])
  }

  predicate TearsDown(a: Action) { a == Close || a == Read(0) || a == Destroy }

  /** Once established, the connection asks for input and the poller has it registered. */
  ghost predicate Listens<C>(c: Conn<C>)
    requires c.Ok()
  {
    var ch := c.io.chan[c.me];
    c.status != Connecting ==> P.IN in ch.events && P.PRI in ch.events && ch.index == P.ADDED
  }

  ghost predicate Graceful<C>(c: Conn<C>)
    requires c.Ok()
  {
    && Listens(c)
    && (c.IsWriting() <==> c.output != [])
    && (c.halfClosed || c.shutdownsDue > 0 ==> c.status == Disconnected)
    && (c.halfClosed ==> c.output == [])
    && (c.status == Disconnected && c.output == [] && c.shutdownsDue == 0 ==> c.halfClosed)
  }

  lemma WritingAfter<C>(w: P.World<C>, c: C, op: P.ChannelOp)
    requires c in w.chan
    ensures P.Apply(w, c, op).chan[c].events == P.NewEvents(w.chan[c].events, op)
    ensures P.Apply(w, c, op).chan.Keys == w.chan.Keys
    ensures P.IsWriting(P.Apply(w, c, op), c) <==> match op
      case EnableWriting => true
      case DisableWriting => false
      case DisableAll => false
      case _ => P.IsWriting(w, c)
  {
    assert P.OUT in P.WRITE_EVENT && forall f <- P.WRITE_EVENT :: f == P.OUT;
    var e := P.NewEvents(w.chan[c].events, op);
    assert (e * P.WRITE_EVENT != {}) <==> P.OUT in e by {
      if P.OUT in e { assert P.OUT in e * P.WRITE_EVENT; }
    }
    var e0 := w.chan[c].events;
    assert (e0 * P.WRITE_EVENT != {}) <==> P.OUT in e0 by {
      if P.OUT in e0 { assert P.OUT in e0 * P.WRITE_EVENT; }
    }
  }

  lemma ChannelListens<C>(c: Conn<C>, op: P.ChannelOp)
    requires c.Ok() && op != P.Remove && op != P.DisableReading && op != P.DisableAll
    requires op == P.EnableReading || (P.IN in c.io.chan[c.me].events && P.PRI in c.io.chan[c.me].events)
    ensures var ch := c.Channel(op).io.chan[c.me]; P.IN in ch.events && P.PRI in ch.events && ch.index == P.ADDED
  {
    P.ApplyLeaves(c.io, c.me, op);
    P.OperationsByFlag(c.io.chan[c.me].events, op, P.IN);
    P.OperationsByFlag(c.io.chan[c.me].events, op, P.PRI);
  }

  lemma StepKeepsListening<C>(c: Conn<C>, a: Action)
    requires c.Ok() && Enabled(c, a) && Listens(c) && !TearsDown(a)
    ensures Listens(Step(c, a))
  {
    hide P.Apply;
    if a == Establish { ChannelListens(c, P.EnableReading); }
    if a.Send? && c.status != Connecting { ChannelListens(c, P.EnableWriting); }
    if a.Write? && c.status != Connecting { ChannelListens(c, P.DisableWriting); }
  }

  lemma StepKeepsGraceful<C>(c: Conn<C>, a: Action)
    requires c.Ok() && Enabled(c, a) && Graceful(c) && !TearsDown(a)
    ensures Graceful(Step(c, a))
  {
    hide P.Apply, Listens;
    StepKeepsListening(c, a);
    match a
    case Establish => WritingAfter(c.io, c.me, P.EnableReading);
    case Send(_, _) => WritingAfter(c.io, c.me, P.EnableWriting);
    case Write(_) => WritingAfter(c.io, c.me, P.DisableWriting);
    case _ =>
  }

  lemma {:induction false} RunKeepsGraceful<C>(c: Conn<C>, acts: seq<Action>, d: Conn<C>)
    requires c.Ok() && Graceful(c) && Gentle(acts) && Run(c, acts, d)
    ensures d.Ok() && Graceful(d)
    decreases |acts|
  {
    if acts != [] {
      StepKeepsGraceful(c, acts[0]);
      RunKeepsGraceful(Step(c, acts[0]), acts[1..], d);
    }
  }

  /**
   In every run before the first close, write interest holds exactly while output is pending, and the
   write side is half-closed only once everything accepted is on the wire; a shut-down connection with
   nothing pending and no queued half-close has been half-closed.
   */
  lemma HalfCloseIsGraceful<C>(c: Conn<C>, acts: seq<Action>, d: Conn<C>)
    requires Fresh(c) && Gentle(acts) && Run(c, acts, d)
    ensures d.Ok() && (d.IsWriting() <==> d.output != [])
    ensures d.halfClosed ==> d.wire == d.accepted
    ensures d.status == Disconnected && d.shutdownsDue == 0 ==> (d.halfClosed <==> d.wire == d.accepted)
  {
    RunKeepsGraceful(c, acts, d);
    RunConserves(c, acts, d);
  }

  /**
   In every run before the first close, once the connection is established the kernel watches it for input
   and urgent data, and for room to write exactly while output is pending.
   */
  lemma EstablishedListens<C>(c: Conn<C>, acts: seq<Action>, d: Conn<C>)
    requires Fresh(c) && Gentle(acts) && Run(c, acts, d) && d.status != Connecting
    ensures d.Ok() && var fd := d.io.chan[d.me].fd;
      && fd in d.io.kernel && d.io.kernel[fd].channel == d.me
      && P.IN in d.io.kernel[fd].events && P.PRI in d.io.kernel[fd].events
      && (P.OUT in d.io.kernel[fd].events <==> d.output != [])
  {
    hide P.Apply;
    RunKeepsGraceful(c, acts, d);
    RunKeepsMirror(c, acts, d);
    P.IsWritingByFlag(d.io, d.me);
    assert P.InStep(d.io, d.me);
  }

  /** Establishing does that at once, from whatever the channel wanted before. */
  lemma EstablishRegisters<C>(c: Conn<C>)
    requires c.Ok() && P.Mirror(c.io)
    ensures var d := ConnectEstablished(c); var fd := c.io.chan[c.me].fd;
      && d.status == Connected && fd in d.io.kernel && d.io.kernel[fd].channel == c.me
      && P.IN in d.io.kernel[fd].events && P.PRI in d.io.kernel[fd].events
      && (P.OUT in d.io.kernel[fd].events <==> P.OUT in c.io.chan[c.me].events)
      && d == c.(status := Connected, io := d.io)
  {
    var events := c.io.chan[c.me].events;
    P.OperationsByFlag(events, P.EnableReading, P.IN);
    P.OperationsByFlag(events, P.EnableReading, P.PRI);
    P.OperationsByFlag(events, P.EnableReading, P.OUT);
    P.KernelWatchesNewMask(c.io, c.me, P.EnableReading);
  }

  /** Whatever else happens, closes included, a half-closed connection is disconnected and writes nothing. */
  ghost predicate EndedIsSilent<C>(c: Conn<C>)
    requires c.Ok()
  {
    && (c.halfClosed || c.shutdownsDue > 0 ==> c.status == Disconnected)
    && (c.halfClosed ==> !c.IsWriting())
  }

  lemma StepKeepsEnded<C>(c: Conn<C>, a: Action)
    requires c.Ok() && Enabled(c, a) && EndedIsSilent(c)
    ensures EndedIsSilent(Step(c, a))
    ensures c.halfClosed ==> Step(c, a).wire == c.wire && Step(c, a).accepted == c.accepted && Step(c, a).halfClosed
  {
    hide P.Apply;
    match a
    case Establish => WritingAfter(c.io, c.me, P.EnableReading);
    case Write(_) => WritingAfter(c.io, c.me, P.DisableWriting);
    case Read(_) => WritingAfter(c.io, c.me, P.DisableAll);
    case Close => WritingAfter(c.io, c.me, P.DisableAll);
    case Destroy =>
      WritingAfter(c.io, c.me, P.DisableAll);
      WritingAfter(c.io, c.me, P.Remove);
      WritingAfter(c.Channel(P.DisableAll).io, c.me, P.Remove);
    case _ =>
  }

  lemma {:induction false} RunKeepsEnded<C>(c: Conn<C>, acts: seq<Action>, d: Conn<C>)
    requires c.Ok() && EndedIsSilent(c) && Run(c, acts, d)
    ensures d.Ok() && EndedIsSilent(d)
    ensures c.halfClosed ==> d.wire == c.wire && d.accepted == c.accepted && d.halfClosed
    decreases |acts|
  {
    hide Step, Enabled;
    if acts != [] {
      StepKeepsEnded(c, acts[0]);
      RunKeepsEnded(Step(c, acts[0]), acts[1..], d);
    }
  }

  /** In every run, with closes, destruction and all: after the half-close the kernel is given no further
      byte and none is accepted. */
  lemma NothingAfterHalfClose<C>(c: Conn<C>, before: seq<Action>, d: Conn<C>, after: seq<Action>, e: Conn<C>)
    requires Fresh(c) && Run(c, before, d) && d.Ok() && d.halfClosed && Run(d, after, e)
    ensures e.wire == d.wire && e.accepted == d.accepted && e.halfClosed
  {
    RunKeepsEnded(c, before, d);
    RunKeepsEnded(d, after, e);
  }

  /** A half-close reached before any close is the end of the stream: everything accepted is on the wire and
      stays all there ever is, even through later closes and the destruction. */
  lemma HalfCloseEndsTheStream<C>(c: Conn<C>, before: seq<Action>, d: Conn<C>, after: seq<Action>, e: Conn<C>)
    requires Fresh(c) && Gentle(before) && Run(c, before, d) && d.Ok() && d.halfClosed && Run(d, after, e)
    ensures e.wire == e.accepted == d.wire == d.accepted
  {
    hide Run, Gentle;
    HalfCloseIsGraceful(c, before, d);
    NothingAfterHalfClose(c, before, d, after, e);
  }

  /** How many `handleWrite` calls of a run made progress. */
  ghost function Progress<C>(c: Conn<C>, acts: seq<Action>): nat
    requires c.Ok()
    decreases |acts|
  {
    if acts == [] || !Enabled(c, acts[0]) then 0
    else
      (if acts[0].Write? && c.IsWriting() && acts[0].w.Wrote? && acts[0].w.n > 0 then 1 else 0)
      + Progress(Step(c, acts[0]), acts[1..])
  }

  /** After `shutdown` every successful `handleWrite` strictly shortens the output, so there are at most
      as many as there are pending bytes, and when nothing is left the half-close has fired. */
  lemma {:induction false} DrainAfterShutdown<C>(c: Conn<C>, acts: seq<Action>, d: Conn<C>)
    requires c.Ok() && Graceful(c) && c.status == Disconnected && Gentle(acts) && Run(c, acts, d)
    ensures Progress(c, acts) + |d.output| <= |c.output|
    ensures d.status == Disconnected
    ensures d.output == [] && d.shutdownsDue == 0 ==> d.halfClosed
    decreases |acts|
  {
    if acts != [] {
      StepKeepsGraceful(c, acts[0]);
      DrainAfterShutdown(Step(c, acts[0]), acts[1..], d);
    }
  }

  predicate NoSend(acts: seq<Action>) {
    forall i :: 0 <= i < |acts| ==> !acts[i].Send?
  }

  /** In whatever state the connection is: over every run without sends or teardown each successful
      `handleWrite` shortens the output, so there are at most as many as there are pending bytes. */
  lemma {:induction false} DrainWithoutSends<C>(c: Conn<C>, acts: seq<Action>, d: Conn<C>)
    requires c.Ok() && Gentle(acts) && NoSend(acts) && Run(c, acts, d)
    ensures Progress(c, acts) + |d.output| <= |c.output|
    decreases |acts|
  {
    if acts != [] {
      StepShortens(c, acts[0]);
      hide Step, Enabled, P.IsWriting;
      DrainWithoutSends(Step(c, acts[0]), acts[1..], d);
    }
  }

  lemma StepShortens<C>(c: Conn<C>, a: Action)
    requires c.Ok() && Enabled(c, a) && !a.Send?
    ensures |Step(c, a).output| <= |c.output|
    ensures a.Write? && c.IsWriting() && a.w.Wrote? && a.w.n > 0 ==> |Step(c, a).output| < |c.output|
  {
    hide P.Apply;
  }

  /** Sending two bytes of which the kernel takes one leaves the other pending, through a close. */
  lemma ShortSendThenClose<C>(c: Conn<C>)
    requires c.Ok() && c.status == Connected && !c.IsWriting() && c.output == [] && c.wire == [] && c.accepted == []
    ensures var d := HandleClose(SendInLoop(c, [1, 2], Wrote(1)));
      d.status == Connected && d.wire == [1] && d.output == [2] && d.accepted == [1, 2] && !d.IsWriting()
  {
    hide P.Apply;
    var s := SendInLoop(c, [1, 2], Wrote(1));
    SendSplits(c, [1, 2], Wrote(1));
    WritingAfter(s.io, s.me, P.DisableAll);
  }

  /** After a close the guarantee is gone: a half-close with bytes still pending. */
  lemma HalfCloseAfterCloseLosesBytes<C>(c: Conn<C>)
    requires Fresh(c)
    ensures exists acts, d :: Run(c, acts, d) && d.halfClosed && d.wire != d.accepted
  {
    hide P.Apply, P.Mirror, SendInLoop, HandleClose;
    var send := Send([1, 2], Wrote(1));
    var c1 := Step(c, Establish);
    WritingAfter(c.io, c.me, P.EnableReading);
    ShortSendThenClose(c1);
    var c2 := Step(c1, send);
    var c3 := Step(c2, Close);
    var c4 := Step(c3, ShutDown(true));
    assert c4.halfClosed && c4.wire == [1] && c4.accepted == [1, 2];
    RunOne(c, Establish);
    RunOne(c1, send);
    RunOne(c2, Close);
    RunOne(c3, ShutDown(true));
    hide Run, Step;
    RunConcat(c, [Establish], c1, [send], c2);
    RunConcat(c2, [Close], c3, [ShutDown(true)], c4);
    RunConcat(c, [Establish] + [send], c2, [Close] + [ShutDown(true)], c4);
  }

  /** Exactly when a half-close loses bytes: pending output that the channel no longer waits to write. */
  lemma HalfCloseLosesBytesIff<C>(c: Conn<C>)
    requires c.Ok() && Conserved(c)
    ensures ShutdownNow(c).halfClosed && ShutdownNow(c).wire != c.accepted
      <==> (c.halfClosed || !c.IsWriting()) && c.output != []
  {
  }

  // ---------------------------------------------------------------- notifications

  /** The pending length rises from below the mark to the mark or above. */
  ghost predicate Crosses<C>(c: Conn<C>, d: Conn<C>) { |c.output| < c.mark <= |d.output| }

  ghost function HighWaters(tasks: seq<Task>): nat {
    if tasks == [] then 0 else HighWaters(tasks[..|tasks| - 1]) + if tasks[|tasks| - 1].HighWater? then 1 else 0
  }

  lemma HighWatersOne(tasks: seq<Task>, t: Task)
    ensures HighWaters(tasks + [t]) == HighWaters(tasks) + if t.HighWater? then 1 else 0
  {
    assert (tasks + [t])[..|tasks|] == tasks;
  }

  /**
   What the step from `c` to `d` queued: a high-water callback exactly when the pending length crosses
   the mark upwards, with the new pending length; a write-complete callback only when everything
   accepted is on the wire; a half-close only by `shutdown` from another thread; at most one of them.
   */
  ghost predicate TellsTruly<C>(c: Conn<C>, a: Action, d: Conn<C>) {
    && d.mark == c.mark && c.queued <= d.queued && |d.queued| <= |c.queued| + 1
    && (d.queued != c.queued ==>
         match d.queued[|c.queued|]
         case HighWater(n) => n == |d.output| && Crosses(c, d)
         case WriteComplete => c.notify && d.wire == d.accepted && d.output == []
         case ShutdownInLoop => a == ShutDown(false) && c.status == Connected)
    && (Crosses(c, d) ==> d.queued == c.queued + [HighWater(|d.output|)])
  }

  lemma SendTellsTruly<C>(c: Conn<C>, data: seq<byte>, r: WriteResult)
    requires c.Ok() && Enabled(c, Send(data, r)) && Conserved(c)
    ensures TellsTruly(c, Send(data, r), SendInLoop(c, data, r))
  {
    hide P.Apply;
    SendConserves(c, data, r);
    if c.status != Disconnected && !Fault(c, r) {
      SendSplits(c, data, r);
    }
  }

  lemma WriteTellsTruly<C>(c: Conn<C>, w: WriteResult)
    requires c.Ok() && Enabled(c, Write(w)) && Conserved(c)
    ensures TellsTruly(c, Write(w), HandleWrite(c, w))
  {
    hide P.Apply;
    WriteConserves(c, w);
  }

  lemma StepNotifies<C>(c: Conn<C>, a: Action)
    requires c.Ok() && Enabled(c, a) && Conserved(c)
    ensures TellsTruly(c, a, Step(c, a))
  {
    hide P.Apply, SendInLoop, HandleWrite;
    match a
    case Send(data, r) => SendTellsTruly(c, data, r);
    case Write(w) => WriteTellsTruly(c, w);
    case _ =>
  }

  ghost function Crossings<C>(c: Conn<C>, acts: seq<Action>): nat
    requires c.Ok()
    decreases |acts|
  {
    if acts == [] || !Enabled(c, acts[0]) then 0
    else (if Crosses(c, Step(c, acts[0])) then 1 else 0) + Crossings(Step(c, acts[0]), acts[1..])
  }

  /** Over every run, exactly one high-water callback is queued per upward crossing. */
  lemma {:induction false} OneHighWaterPerCrossing<C>(c: Conn<C>, acts: seq<Action>, d: Conn<C>)
    requires c.Ok() && Conserved(c) && Run(c, acts, d)
    ensures HighWaters(d.queued) == HighWaters(c.queued) + Crossings(c, acts)
    decreases |acts|
  {
    if acts != [] {
      var b := Step(c, acts[0]);
      StepConserves(c, acts[0]);
      StepNotifies(c, acts[0]);
      if b.queued != c.queued {
        assert b.queued == c.queued + [b.queued[|c.queued|]];
        HighWatersOne(c.queued, b.queued[|c.queued|]);
      }
      OneHighWaterPerCrossing(b, acts[1..], d);
    }
  }

  /** Between two crossings of one run the pending length was below the mark again. */
  lemma {:induction false} CrossingsAreSeparated<C>(c: Conn<C>, acts: seq<Action>) returns (k: nat, e: Conn<C>)
    requires c.Ok() && c.mark <= |c.output| && Crossings(c, acts) > 0
    ensures 0 < k < |acts| && Run(c, acts[..k], e) && |e.output| < c.mark
    decreases |acts|
  {
    var b := Step(c, acts[0]);
    StepKeepsMark(c, acts[0]);
    if |b.output| < b.mark {
      k, e := 1, b;
      assert acts[..1][1..] == [];
    } else {
      k, e := CrossingsAreSeparated(b, acts[1..]);
      assert acts[..k + 1][1..] == acts[1..][..k];
      k := k + 1;
    }
  }

  lemma StepKeepsMark<C>(c: Conn<C>, a: Action)
    requires c.Ok() && Enabled(c, a)
    ensures Step(c, a).mark == c.mark
  {
  }

  // ---------------------------------------------------------------- the poller's view

  lemma ChannelKeepsMirror<C>(c: Conn<C>, op: P.ChannelOp)
    requires c.Ok() && P.Mirror(c.io)
    ensures var d := c.Channel(op);
      P.Mirror(d.io) && d.io.refused == c.io.refused && P.OnlyTouches(c.io, d.io, c.me)
  {
    P.ApplyKeepsMirror(c.io, c.me, op);
  }

  lemma StepTouchesChannel<C>(c: Conn<C>, a: Action)
    requires c.Ok() && Enabled(c, a)
    ensures Step(c, a).me == c.me
    ensures var io := Step(c, a).io; match a
      case Establish => io == c.Channel(P.EnableReading).io
      case Send(_, _) => io == c.io || io == c.Channel(P.EnableWriting).io
      case Write(_) => io == c.io || io == c.Channel(P.DisableWriting).io
      case Destroy => io == c.Channel(P.Remove).io || io == c.Channel(P.DisableAll).Channel(P.Remove).io
      case _ => io == c.io || io == c.Channel(P.DisableAll).io
  {
  }

  lemma StepKeepsMirror<C>(c: Conn<C>, a: Action)
    requires c.Ok() && Enabled(c, a) && P.Mirror(c.io)
    ensures P.Mirror(Step(c, a).io) && Step(c, a).io.refused == c.io.refused && Step(c, a).me == c.me
  {
    StepTouchesChannel(c, a);
    match a
    case Establish => ChannelKeepsMirror(c, P.EnableReading);
    case Send(_, _) => ChannelKeepsMirror(c, P.EnableWriting);
    case Write(_) => ChannelKeepsMirror(c, P.DisableWriting);
    case Destroy =>
      ChannelKeepsMirror(c, P.DisableAll);
      ChannelKeepsMirror(c.Channel(P.DisableAll), P.Remove);
      ChannelKeepsMirror(c, P.Remove);
    case _ => ChannelKeepsMirror(c, P.DisableAll);
  }

  /** Over every run of a connection no `epoll_ctl` is refused and the poller stays a mirror. */
  lemma {:induction false} RunKeepsMirror<C>(c: Conn<C>, acts: seq<Action>, d: Conn<C>)
    requires c.Ok() && P.Mirror(c.io) && Run(c, acts, d)
    ensures P.Mirror(d.io) && d.io.refused == c.io.refused && d.me == c.me && d.Ok()
    decreases |acts|
  {
    if acts != [] {
      StepKeepsMirror(c, acts[0]);
      RunKeepsMirror(Step(c, acts[0]), acts[1..], d);
    }
  }

  // ---------------------------------------------------------------- destruction

  ghost predicate Gone<C>(c: Conn<C>)
    requires c.Ok()
  {
    && c.status == Disconnected && c.io.chan[c.me].index == P.NEW
    && !P.HasChannel(c.io, c.me) && c.io.chan[c.me].fd !in c.io.kernel
  }

  /**
   From any established state (closed any number of times, shut down, or neither) destruction leaves
   the connection disconnected and its channel new and unlisted; a second call changes nothing at all.
   */
  lemma DestroyIsFinal<C>(c: Conn<C>)
    requires c.Ok() && P.Mirror(c.io) && (c.status == Connected || c.status == Disconnected)
    ensures Gone(ConnectDestroyed(c))
    ensures ConnectDestroyed(ConnectDestroyed(c)) == ConnectDestroyed(c)
  {
    P.ApplyKeepsMirror(c.io, c.me, P.DisableAll);
    P.RemoveIsIdempotent(c.io, c.me);
    P.RemoveIsIdempotent(P.Apply(c.io, c.me, P.DisableAll), c.me);
  }

  /** What may still be called on a destroyed connection when the loop never dispatches its channel. */
  predicate Undispatched(acts: seq<Action>) {
    forall a <- acts :: a.Send? || a.ShutDown? || a == QueuedShutdown || a == Destroy
  }

  lemma {:induction false} DestroyedStaysGone<C>(c: Conn<C>, acts: seq<Action>, d: Conn<C>)
    requires c.Ok() && P.Mirror(c.io) && Gone(c) && Undispatched(acts) && Run(c, acts, d)
    ensures d.io == c.io && d.Ok() && Gone(d)
    decreases |acts|
  {
    if acts != [] {
      assert acts[0] in acts;
      P.RemoveIsIdempotent(c.io, c.me);
      assert Step(c, acts[0]).io == c.io by {
        if acts[0] == Destroy {
          assert P.InStep(c.io, c.me);
          assert c.io.table - {c.io.chan[c.me].fd} == c.io.table;
          assert c.io.chan[c.me := c.io.chan[c.me].(index := P.NEW)] == c.io.chan;
        }
      }
      DestroyedStaysGone(Step(c, acts[0]), acts[1..], d);
    }
  }

  /** Dispatching a destroyed channel would list it again: the loop must never do so. */
  lemma DispatchAfterDestroyReAdds<C>(c: Conn<C>)
    requires c.Ok() && P.Mirror(c.io) && Gone(c)
    ensures P.HasChannel(HandleClose(c).io, c.me) && c.io.chan[c.me].fd in HandleClose(c).io.kernel
  {
    assert P.InStep(c.io, c.me);
  }

  // ---------------------------------------------------------------- user callbacks

  /** What a callback may call on its connection, in the loop's own thread, with the kernel's answers. */
  datatype Call = SendCall(data: seq<byte>, r: WriteResult) | ShutdownCall | RetrieveCall(len: nat)

  predicate CallsOk(calls: seq<Call>) {
    forall k <- calls :: k.SendCall? && k.r.Wrote? ==> k.r.n <= |k.data|
  }

  /** `send` in the loop's own thread goes through only on a connected connection. */
  function UserSend<C>(c: Conn<C>, data: seq<byte>, r: WriteResult): (c': Conn<C>)
    requires c.Ok() && (r.Wrote? ==> r.n <= |data|)
    ensures c'.Ok()
  {
    if c.status == Connected then SendInLoop(c, data, r) else c
  }

  /** Retrieving concerns the input buffer only. */
  function AfterCall<C>(c: Conn<C>, k: Call): (c': Conn<C>)
    requires c.Ok() && CallsOk([k])
    ensures c'.Ok()
  {
    match k
    case SendCall(data, r) => assert k in [k]; UserSend(c, data, r)
    case ShutdownCall => Shutdown(c, true)
    case RetrieveCall(_) => c
  }

  function AfterCalls<C>(c: Conn<C>, calls: seq<Call>): (c': Conn<C>)
    requires c.Ok() && CallsOk(calls)
    ensures c'.Ok()
  {
    if calls == [] then c
    else AfterCall(AfterCalls(c, calls[..|calls| - 1]), calls[|calls| - 1])
  }

  function ActionOf<C>(c: Conn<C>, k: Call): seq<Action> {
    match k
    case SendCall(data, r) => if c.status == Connected then [Send(data, r)] else []
    case ShutdownCall => [ShutDown(true)]
    case RetrieveCall(_) => []
  }

  function ActionsOf<C>(c: Conn<C>, calls: seq<Call>): seq<Action>
    requires c.Ok() && CallsOk(calls)
  {
    if calls == [] then []
    else
      var init := calls[..|calls| - 1];
      ActionsOf(c, init) + ActionOf(AfterCalls(c, init), calls[|calls| - 1])
  }

  /** What a callback's calls come to: `send` needs a connected connection, `shutdown` acts at once and
      queues nothing, retrieving input leaves the output side alone. */
  lemma CallOutcome<C>(c: Conn<C>, k: Call)
    requires c.Ok() && CallsOk([k])
    ensures k.SendCall? && c.status != Connected ==> AfterCall(c, k) == c
    ensures k.SendCall? && c.status == Connected && (WantsToWrite(c) || c.output != []) ==>
      AfterCall(c, k).output == c.output + k.data && AfterCall(c, k).wire == c.wire
    ensures k.ShutdownCall? && c.status != Connected ==> AfterCall(c, k) == c
    ensures k.ShutdownCall? && c.status == Connected ==>
      AfterCall(c, k) == c.(status := Disconnected, halfClosed := c.halfClosed || !WantsToWrite(c))
    ensures k.RetrieveCall? ==> AfterCall(c, k) == c
  {
    hide SendInLoop, Shutdown;
    assert k in [k];
    ShutdownOutcome(c, true);
    if k.SendCall? { SendOutcome(c, k.data, k.r); }
  }

  lemma CallIsRun<C>(c: Conn<C>, k: Call)
    requires c.Ok() && CallsOk([k])
    ensures Run(c, ActionOf(c, k), AfterCall(c, k))
  {
    hide P.Apply, SendInLoop;
    assert k in [k];
    match k
    case SendCall(data, r) => if c.status == Connected { RunOne(c, Send(data, r)); }
    case ShutdownCall => RunOne(c, ShutDown(true));
    case RetrieveCall(_) =>
  }

  /** A callback is a run of the connection's steps. */
  lemma {:induction false} CallsAreRun<C>(c: Conn<C>, calls: seq<Call>)
    requires c.Ok() && CallsOk(calls)
    ensures Run(c, ActionsOf(c, calls), AfterCalls(c, calls))
  {
    if calls != [] {
      var init, k := calls[..|calls| - 1], calls[|calls| - 1];
      CallsAreRun(c, init);
      CallIsRun(AfterCalls(c, init), k);
      RunConcat(c, ActionsOf(c, init), AfterCalls(c, init), ActionOf(AfterCalls(c, init), k), AfterCalls(c, calls));
    }
  }

  /** The connection callback inside `connectDestroyed` finds the connection disconnected: whatever it
      calls changes nothing, so the destruction is one step. */
  lemma {:induction false} CallsOnDisconnected<C>(c: Conn<C>, calls: seq<Call>)
    requires c.Ok() && CallsOk(calls) && c.status == Disconnected
    ensures AfterCalls(c, calls) == c
  {
    if calls != [] { CallsOnDisconnected(c, calls[..|calls| - 1]); }
  }

  // ---------------------------------------------------------------- dispatch of one event

  predicate HangsUp(revents: P.Events) { P.HUP in revents && P.IN !in revents }
  predicate Readable(revents: P.Events) { revents * P.READ_EVENT != {} }
  predicate Writable(revents: P.Events) { revents * P.WRITE_EVENT != {} }

  /** `handleClose` with its connection callback. */
  function AfterClose<C>(c: Conn<C>, calls: seq<Call>): (c': Conn<C>)
    requires c.Ok() && CallsOk(calls)
    ensures c'.Ok()
  {
    AfterCalls(HandleClose(c), calls)
  }

  /** `handleRead` with its message callback, or at end of stream the close with its own. */
  function AfterRead<C>(c: Conn<C>, n: int, calls: seq<Call>): (c': Conn<C>)
    requires c.Ok() && CallsOk(calls)
    ensures c'.Ok()
  {
    if n < 0 then c else AfterCalls(HandleRead(c, n), calls)
  }

  function HangupStep<C>(c: Conn<C>, revents: P.Events, calls: seq<Call>): (c': Conn<C>)
    requires c.Ok() && CallsOk(calls)
    ensures c'.Ok()
  {
    if HangsUp(revents) then AfterClose(c, calls) else c
  }

  function ReadStep<C>(c: Conn<C>, revents: P.Events, n: int, calls: seq<Call>): (c': Conn<C>)
    requires c.Ok() && CallsOk(calls)
    ensures c'.Ok()
  {
    if Readable(revents) then AfterRead(c, n, calls) else c
  }

  function WriteStep<C>(c: Conn<C>, revents: P.Events, w: WriteResult): (c': Conn<C>)
    requires c.Ok() && (w.Wrote? ==> w.n <= |c.output|)
    ensures c'.Ok()
  {
    if Writable(revents) then HandleWrite(c, w) else c
  }

  /** The connection when a dispatch comes to its write event. */
  function BeforeWrite<C>(c: Conn<C>, revents: P.Events, n: int, onHangup: seq<Call>, onRead: seq<Call>): (c': Conn<C>)
    requires c.Ok() && CallsOk(onHangup) && CallsOk(onRead)
    ensures c'.Ok()
  {
    ReadStep(HangupStep(c, revents, onHangup), revents, n, onRead)
  }

  /** The connection after one dispatch. An error event only writes a log line. */
  function AfterDispatch<C>(
      c: Conn<C>, revents: P.Events, n: int, w: WriteResult, onHangup: seq<Call>, onRead: seq<Call>): (c': Conn<C>)
    requires c.Ok() && CallsOk(onHangup) && CallsOk(onRead)
    requires w.Wrote? ==> w.n <= |BeforeWrite(c, revents, n, onHangup, onRead).output|
    ensures c'.Ok()
  {
    WriteStep(BeforeWrite(c, revents, n, onHangup, onRead), revents, w)
  }

  function HangupActions<C>(c: Conn<C>, revents: P.Events, calls: seq<Call>): seq<Action>
    requires c.Ok() && CallsOk(calls)
  {
    if HangsUp(revents) then [Close] + ActionsOf(HandleClose(c), calls) else []
  }

  function ReadActions<C>(c: Conn<C>, revents: P.Events, n: int, calls: seq<Call>): seq<Action>
    requires c.Ok() && CallsOk(calls)
  {
    if !Readable(revents) then [] else if n < 0 then [Read(n)] else [Read(n)] + ActionsOf(HandleRead(c, n), calls)
  }

  function WriteActions(revents: P.Events, w: WriteResult): seq<Action> {
    if Writable(revents) then [Write(w)] else []
  }

  /** The steps of one dispatch: close, what its callback calls, read, what its callback calls, write. */
  function Dispatch<C>(
      c: Conn<C>, revents: P.Events, n: int, w: WriteResult, onHangup: seq<Call>, onRead: seq<Call>): seq<Action>
    requires c.Ok() && CallsOk(onHangup) && CallsOk(onRead)
  {
    HangupActions(c, revents, onHangup)
    + ReadActions(HangupStep(c, revents, onHangup), revents, n, onRead)
    + WriteActions(revents, w)
  }

  lemma HangupIsRun<C>(c: Conn<C>, revents: P.Events, calls: seq<Call>)
    requires c.Ok() && CallsOk(calls)
    ensures Run(c, HangupActions(c, revents, calls), HangupStep(c, revents, calls))
  {
    hide P.Apply;
    if HangsUp(revents) {
      RunOne(c, Close);
      CallsAreRun(HandleClose(c), calls);
      RunConcat(c, [Close], HandleClose(c), ActionsOf(HandleClose(c), calls), AfterClose(c, calls));
    }
  }

  lemma ReadIsRun<C>(c: Conn<C>, revents: P.Events, n: int, calls: seq<Call>)
    requires c.Ok() && CallsOk(calls)
    ensures Run(c, ReadActions(c, revents, n, calls), ReadStep(c, revents, n, calls))
  {
    hide P.Apply;
    if Readable(revents) {
      RunOne(c, Read(n));
      if n >= 0 {
        CallsAreRun(HandleRead(c, n), calls);
        RunConcat(c, [Read(n)], HandleRead(c, n), ActionsOf(HandleRead(c, n), calls), AfterRead(c, n, calls));
      }
    }
  }

  lemma WriteIsRun<C>(c: Conn<C>, revents: P.Events, w: WriteResult)
    requires c.Ok() && (w.Wrote? ==> w.n <= |c.output|)
    ensures Run(c, WriteActions(revents, w), WriteStep(c, revents, w))
  {
    hide HandleWrite;
    if Writable(revents) { RunOne(c, Write(w)); }
  }

  lemma BeforeWriteIsRun<C>(c: Conn<C>, revents: P.Events, n: int, onHangup: seq<Call>, onRead: seq<Call>)
    requires c.Ok() && CallsOk(onHangup) && CallsOk(onRead)
    ensures Run(c, HangupActions(c, revents, onHangup)
                   + ReadActions(HangupStep(c, revents, onHangup), revents, n, onRead),
                BeforeWrite(c, revents, n, onHangup, onRead))
  {
    hide Run, HangupStep, ReadStep, HangupActions, ReadActions, CallsOk;
    var closed := HangupStep(c, revents, onHangup);
    HangupIsRun(c, revents, onHangup);
    ReadIsRun(closed, revents, n, onRead);
    RunConcat(c, HangupActions(c, revents, onHangup), closed,
              ReadActions(closed, revents, n, onRead), ReadStep(closed, revents, n, onRead));
  }

  /** A dispatch with its callbacks is a run of the connection's steps, so every run theorem covers it. */
  lemma DispatchIsRun<C>(
      c: Conn<C>, revents: P.Events, n: int, w: WriteResult, onHangup: seq<Call>, onRead: seq<Call>)
    requires c.Ok() && CallsOk(onHangup) && CallsOk(onRead)
    requires w.Wrote? ==> w.n <= |BeforeWrite(c, revents, n, onHangup, onRead).output|
    ensures Run(c, Dispatch(c, revents, n, w, onHangup, onRead), AfterDispatch(c, revents, n, w, onHangup, onRead))
  {
    hide Run, HangupStep, WriteStep, HangupActions, ReadActions, WriteActions, CallsOk, BeforeWrite;
    var before := BeforeWrite(c, revents, n, onHangup, onRead);
    var acts := HangupActions(c, revents, onHangup) + ReadActions(HangupStep(c, revents, onHangup), revents, n, onRead);
    BeforeWriteIsRun(c, revents, n, onHangup, onRead);
    WriteIsRun(before, revents, w);
    RunConcat(c, acts, before, WriteActions(revents, w), WriteStep(before, revents, w));
  }

  lemma {:induction false} CallsAreUserActions<C>(c: Conn<C>, calls: seq<Call>)
    requires c.Ok() && CallsOk(calls)
    ensures forall a <- ActionsOf(c, calls) :: a.Send? || a.ShutDown?
  {
    if calls != [] { CallsAreUserActions(c, calls[..|calls| - 1]); }
  }

  lemma HandlersByFlag(revents: P.Events)
    ensures HangsUp(revents) <==> P.HUP in revents && P.IN !in revents
    ensures Readable(revents) <==> P.IN in revents || P.PRI in revents
    ensures Writable(revents) <==> P.OUT in revents
  {
    assert P.IN in revents ==> P.IN in revents * P.READ_EVENT;
    assert P.PRI in revents ==> P.PRI in revents * P.READ_EVENT;
    assert P.OUT in revents ==> P.OUT in revents * P.WRITE_EVENT;
    assert Readable(revents) ==> exists f :: f in revents * P.READ_EVENT;
    assert Writable(revents) ==> exists f :: f in revents * P.WRITE_EVENT;
  }

  /**
   Which reported events call which handler, whatever the callbacks do: the dispatch begins with a close
   exactly on a hang-up without input, reads exactly on input or urgent data, and ends with a write exactly
   on room to write.
   */
  lemma DispatchByFlags<C>(
      c: Conn<C>, revents: P.Events, n: int, w: WriteResult, onHangup: seq<Call>, onRead: seq<Call>)
    requires c.Ok() && CallsOk(onHangup) && CallsOk(onRead)
    ensures var acts := Dispatch(c, revents, n, w, onHangup, onRead);
      && (acts != [] && acts[0] == Close <==> P.HUP in revents && P.IN !in revents)
      && (Read(n) in acts <==> P.IN in revents || P.PRI in revents)
      && (acts != [] && acts[|acts| - 1] == Write(w) <==> P.OUT in revents)
  {
    hide HangsUp, Readable, Writable, CallsOk, P.Apply, HandleClose, HandleRead;
    HandlersByFlag(revents);
    var closed := HangupStep(c, revents, onHangup);
    CallsAreUserActions(HandleClose(c), onHangup);
    CallsAreUserActions(HandleRead(closed, n), onRead);
    HangupActionsAre(c, revents, onHangup);
    ReadActionsAre(closed, revents, n, onRead);
    hide HangupActions, ReadActions, HangupStep, ActionsOf;
    var hs, rs, ws := HangupActions(c, revents, onHangup), ReadActions(closed, revents, n, onRead), WriteActions(revents, w);
    var acts := Dispatch(c, revents, n, w, onHangup, onRead);
    assert acts == hs + rs + ws;
    assert ws != [] ==> acts[|acts| - 1] == ws[|ws| - 1];
    assert ws == [] && acts != [] ==> acts[|acts| - 1] in hs + rs;
    assert hs != [] ==> acts[0] == hs[0];
    assert hs == [] && acts != [] ==> acts[0] in rs + ws;
  }

  lemma HangupActionsAre<C>(c: Conn<C>, revents: P.Events, calls: seq<Call>)
    requires c.Ok() && CallsOk(calls)
    ensures var acts := HangupActions(c, revents, calls);
      && (HangsUp(revents) <==> acts != []) && (acts != [] ==> acts[0] == Close)
      && forall a <- acts :: a == Close || a.Send? || a.ShutDown?
  {
    hide CallsOk, HandleClose, HangsUp;
    CallsAreUserActions(HandleClose(c), calls);
  }

  lemma ReadActionsAre<C>(c: Conn<C>, revents: P.Events, n: int, calls: seq<Call>)
    requires c.Ok() && CallsOk(calls)
    ensures var acts := ReadActions(c, revents, n, calls);
      && (Readable(revents) <==> acts != []) && (acts != [] ==> acts[0] == Read(n))
      && forall a <- acts :: a == Read(n) || a.Send? || a.ShutDown?
  {
    hide CallsOk, HandleRead, Readable;
    CallsAreUserActions(HandleRead(c, n), calls);
  }

  // ---------------------------------------------------------------- silence after a close

  /** Nothing was written, held or queued from `c` to `d`, and the channel does not wait to write. */
  ghost predicate Silent<C>(c: Conn<C>, d: Conn<C>)
    requires d.Ok()
  {
    d.wire == c.wire && d.output == c.output && d.queued == c.queued && !d.IsWriting()
  }

  /** What nothing but a teardown of the whole connection ever takes back. */
  ghost function Noise<C>(c: Conn<C>): nat { |c.wire| + |c.output| + |c.queued| }

  /** On a closed channel a call leaves no trace exactly when it is no send, or a send that is refused,
      fails on a broken pipe, or carries nothing that anyone is told about. */
  predicate Quiet<C>(c: Conn<C>, k: Call)
    requires c.Ok()
  {
    k.SendCall? ==>
      || c.status != Connected
      || Fault(c, k.r)
      || (k.data == [] && !(DirectWrite(c) && k.r.Wrote? && c.notify))
  }

  ghost predicate QuietCalls<C>(c: Conn<C>, calls: seq<Call>)
    requires c.Ok() && CallsOk(calls)
  {
    calls != [] ==>
      var init := calls[..|calls| - 1];
      QuietCalls(c, init) && Quiet(AfterCalls(c, init), calls[|calls| - 1])
  }

  lemma CallSilentIff<C>(c: Conn<C>, k: Call)
    requires c.Ok() && CallsOk([k]) && !c.IsWriting()
    ensures Quiet(c, k) ==> Silent(c, AfterCall(c, k))
    ensures !Quiet(c, k) ==> Noise(c) < Noise(AfterCall(c, k))
  {
    hide P.Apply;
    assert k in [k];
    if k.SendCall? && c.status == Connected && !Fault(c, k.r) {
      SendSplits(c, k.data, k.r);
      SendGrowsQueue(c, k.data, k.r);
    }
  }

  lemma SendGrowsQueue<C>(c: Conn<C>, data: seq<byte>, r: WriteResult)
    requires c.Ok() && (r.Wrote? ==> r.n <= |data|)
    ensures |c.queued| <= |SendInLoop(c, data, r).queued|
  {
    hide P.Apply;
  }

  lemma CallNeverUndoes<C>(c: Conn<C>, k: Call)
    requires c.Ok() && CallsOk([k])
    ensures Noise(c) <= Noise(AfterCall(c, k))
  {
    hide P.Apply;
    assert k in [k];
    if k.SendCall? && c.status == Connected {
      if !Fault(c, k.r) { SendSplits(c, k.data, k.r); }
      SendGrowsQueue(c, k.data, k.r);
    }
  }

  lemma {:induction false} CallsNeverUndo<C>(c: Conn<C>, calls: seq<Call>)
    requires c.Ok() && CallsOk(calls)
    ensures Noise(c) <= Noise(AfterCalls(c, calls))
  {
    if calls != [] {
      CallsNeverUndo(c, calls[..|calls| - 1]);
      CallNeverUndoes(AfterCalls(c, calls[..|calls| - 1]), calls[|calls| - 1]);
    }
  }

  lemma {:induction false} CallsSilentIff<C>(c: Conn<C>, calls: seq<Call>)
    requires c.Ok() && CallsOk(calls) && !c.IsWriting()
    ensures QuietCalls(c, calls) ==> Silent(c, AfterCalls(c, calls))
    ensures !QuietCalls(c, calls) ==> Noise(c) < Noise(AfterCalls(c, calls))
  {
    if calls != [] {
      var init, k := calls[..|calls| - 1], calls[|calls| - 1];
      CallsSilentIff(c, init);
      if QuietCalls(c, init) {
        CallSilentIff(AfterCalls(c, init), k);
      } else {
        CallNeverUndoes(AfterCalls(c, init), k);
      }
    }
  }

  lemma WriteNeverUndoes<C>(c: Conn<C>, w: WriteResult)
    requires c.Ok() && (w.Wrote? ==> w.n <= |c.output|)
    ensures Noise(c) <= Noise(HandleWrite(c, w))
    ensures !c.IsWriting() ==> HandleWrite(c, w) == c
  {
    hide P.Apply;
  }

  lemma CloseSilences<C>(c: Conn<C>)
    requires c.Ok()
    ensures Silent(c, HandleClose(c)) && HandleClose(c).status == c.status
  {
    WritingAfter(c.io, c.me, P.DisableAll);
  }

  /** Whether every call of both callbacks of a dispatch is quiet where it is made. */
  ghost predicate QuietDispatch<C>(c: Conn<C>, revents: P.Events, n: int, onHangup: seq<Call>, onRead: seq<Call>)
    requires c.Ok() && CallsOk(onHangup) && CallsOk(onRead)
  {
    var closed := HangupStep(c, revents, onHangup);
    && (HangsUp(revents) ==> QuietCalls(HandleClose(c), onHangup))
    && (Readable(revents) && n >= 0 ==> QuietCalls(HandleRead(closed, n), onRead))
  }

  lemma HangupSilentIff<C>(c: Conn<C>, calls: seq<Call>)
    requires c.Ok() && CallsOk(calls)
    ensures QuietCalls(HandleClose(c), calls) ==> Silent(c, AfterClose(c, calls))
    ensures !QuietCalls(HandleClose(c), calls) ==> Noise(c) < Noise(AfterClose(c, calls))
  {
    hide P.Apply, HandleClose;
    CloseSilences(c);
    CallsSilentIff(HandleClose(c), calls);
  }

  lemma ReadSilentIff<C>(c: Conn<C>, n: int, calls: seq<Call>)
    requires c.Ok() && CallsOk(calls) && (n == 0 || !c.IsWriting())
    ensures n < 0 || QuietCalls(HandleRead(c, n), calls) ==> Silent(c, AfterRead(c, n, calls))
    ensures n >= 0 && !QuietCalls(HandleRead(c, n), calls) ==> Noise(c) < Noise(AfterRead(c, n, calls))
  {
    if n == 0 {
      HangupSilentIff(c, calls);
    } else if n > 0 {
      CallsSilentIff(c, calls);
    }
  }

  lemma ReadNeverUndoes<C>(c: Conn<C>, n: int, calls: seq<Call>)
    requires c.Ok() && CallsOk(calls)
    ensures Noise(c) <= Noise(AfterRead(c, n, calls))
  {
    if n == 0 { CloseSilences(c); }
    if n >= 0 { CallsNeverUndo(HandleRead(c, n), calls); }
  }

  /**
   Exactly when a dispatch that closes the connection stays silent from there on: when every call its
   callbacks make is quiet, since `handleClose` leaves the state alone and its own connection callback,
   or a message callback after it, may still send.
   */
  lemma CloseSilencesDispatchIff<C>(
      c: Conn<C>, revents: P.Events, n: int, w: WriteResult, onHangup: seq<Call>, onRead: seq<Call>)
    requires c.Ok() && CallsOk(onHangup) && CallsOk(onRead)
    requires w.Wrote? ==> w.n <= |BeforeWrite(c, revents, n, onHangup, onRead).output|
    requires HangsUp(revents) || (Readable(revents) && n == 0)
    ensures Silent(c, AfterDispatch(c, revents, n, w, onHangup, onRead))
      <==> QuietDispatch(c, revents, n, onHangup, onRead)
  {
    hide AfterClose, AfterRead, QuietCalls, HandleWrite, HandleClose, HandleRead;
    var closed := HangupStep(c, revents, onHangup);
    var before := BeforeWrite(c, revents, n, onHangup, onRead);
    if HangsUp(revents) { HangupSilentIff(c, onHangup); }
    if Readable(revents) {
      ReadNeverUndoes(closed, n, onRead);
      if n == 0 || !closed.IsWriting() { ReadSilentIff(closed, n, onRead); }
    }
    WriteNeverUndoes(before, w);
  }

  /** In particular, callbacks that do not send, or find the connection shut down, keep it silent. */
  lemma {:induction false} NoSendIsQuiet<C>(c: Conn<C>, calls: seq<Call>)
    requires c.Ok() && CallsOk(calls)
    requires c.status == Disconnected || forall k <- calls :: !k.SendCall?
    ensures QuietCalls(c, calls)
  {
    if calls != [] {
      var init, k := calls[..|calls| - 1], calls[|calls| - 1];
      assert k in calls;
      NoSendIsQuiet(c, init);
      if c.status == Disconnected { CallsOnDisconnected(c, init); }
    }
  }

  /** A message callback is called for every read that delivered something: the byte it sends is written. */
  lemma MessageCallbackIsCalled<C>(c: Conn<C>, n: int, b: byte)
    requires c.Ok() && c.status == Connected && c.output == [] && !WantsToWrite(c) && n > 0
    ensures CallsOk([SendCall([b], Wrote(1))])
    ensures AfterRead(c, n, [SendCall([b], Wrote(1))]).wire == c.wire + [b]
    ensures AfterRead(c, -n, [SendCall([b], Wrote(1))]) == c
  {
    hide SendInLoop;
    var k := SendCall([b], Wrote(1));
    assert AfterCalls(c, [k]) == AfterCall(c, k) by {
      assert [k][..0] == [] && AfterCalls(c, []) == c;
    }
    SendOutcome(c, [b], Wrote(1));
    assert [b][..1] == [b];
  }

  /** A callback that sends while its connection is being closed is heard: the byte is on the wire. */
  lemma CallbackBreaksTheSilence<C>(c: Conn<C>, b: byte)
    requires c.Ok() && c.status == Connected && c.output == []
    ensures CallsOk([SendCall([b], Wrote(1))])
    ensures AfterClose(c, [SendCall([b], Wrote(1))]).wire == c.wire + [b]
  {
    hide P.Apply;
    var k, h := SendCall([b], Wrote(1)), HandleClose(c);
    CloseSilences(c);
    assert AfterCalls(h, [k]) == AfterCall(h, k) by {
      assert [k][..0] == [] && AfterCalls(h, []) == h;
    }
    SendSplits(h, [b], Wrote(1));
    assert [b][..1] == [b];
  }
}
