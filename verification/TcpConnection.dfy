/**
 The connection as an object over its two buffers and its channel. Every method is tied to the step of
 `ConnectionSpec` that it takes, callbacks included, and keeps what the run theorems there promise.
 */
module TcpConnection {
  import opened Bytes
  import B = ByteBuffer
  import L = BufferLayout
  import E = EpollPoller
  import P = PollerSpec
  import opened ConnectionSpec

  /** What a callback leaves of the unread input, and where it leaves the buffer's indices. */
  ghost function Consumed(input: seq<byte>, calls: seq<Call>): seq<byte> {
    if calls == [] then input
    else
      var rest := Consumed(input, calls[..|calls| - 1]);
      match calls[|calls| - 1]
      case RetrieveCall(len) => if len < |rest| then rest[len..] else []
      case _ => rest
  }

  ghost function LayoutAfter(l: L.Layout, calls: seq<Call>): L.Layout {
    if calls == [] then l
    else
      var m := LayoutAfter(l, calls[..|calls| - 1]);
      match calls[|calls| - 1]
      case RetrieveCall(len) => L.Retrieve(m, len)
      case _ => m
  }

  function Delivered(read: B.ReadResult): int { if read.ReadError? then -1 else |read.bytes| }

  ghost function AfterReading(input: seq<byte>, read: B.ReadResult, onRead: seq<Call>): seq<byte> {
    if read.ReadError? then input else Consumed(input + read.bytes, onRead)
  }

  ghost function InputAfterHangup(input: seq<byte>, revents: P.Events, onHangup: seq<Call>): seq<byte> {
    if HangsUp(revents) then Consumed(input, onHangup) else input
  }

  ghost function LayoutAfterHangup(l: L.Layout, revents: P.Events, onHangup: seq<Call>): L.Layout {
    if HangsUp(revents) then LayoutAfter(l, onHangup) else l
  }

  ghost function InputAfterRead(input: seq<byte>, revents: P.Events, read: B.ReadResult, onRead: seq<Call>): seq<byte> {
    if Readable(revents) then AfterReading(input, read, onRead) else input
  }

  /** The unread input after one dispatch. */
  ghost function InputAfter(
      input: seq<byte>, revents: P.Events, read: B.ReadResult, onHangup: seq<Call>, onRead: seq<Call>): seq<byte>
  {
    InputAfterRead(InputAfterHangup(input, revents, onHangup), revents, read, onRead)
  }

  lemma NoCalls(calls: seq<Call>)
    ensures calls[..0] == [] && CallsOk(calls[..0])
  {
  }

  lemma PrefixStep<T>(s: seq<T>, i: nat)
    requires i < |s|
    ensures s[..i + 1] == s[..i] + [s[i]] && s[..i + 1][..i] == s[..i] && s[i] in s
  {
  }

  lemma CallsOkParts(calls: seq<Call>, i: nat)
    requires CallsOk(calls) && i < |calls|
    ensures CallsOk(calls[..i]) && CallsOk(calls[..i + 1]) && CallsOk([calls[i]])
  {
    assert calls[i] in calls;
  }

  /** One step keeps the stream whole and, short of a teardown, the half-close graceful. */
  lemma StepKeeps<C>(c: Conn<C>, a: Action, tornDown: bool)
    requires c.Ok() && Enabled(c, a) && Conserved(c) && (!tornDown ==> Graceful(c))
    ensures Conserved(Step(c, a)) && (!tornDown && !TearsDown(a) ==> Graceful(Step(c, a)))
  {
    hide Conserved, Graceful, Step;
    StepConserves(c, a);
    if !tornDown && !TearsDown(a) { StepKeepsGraceful(c, a); }
  }

  class TcpConnection {
    const channel: E.Channel
    const inputBuffer: B.Buffer
    const outputBuffer: B.Buffer
    const highWaterMark: nat
    /** Whether a write-complete callback is installed. */
    const notify: bool
    var status: Status
    /** Everything queued on the loop so far, and the queued half-closes still to run. */
    var queued: seq<Task>
    var shutdownsDue: nat
    /** The socket: what the kernel took, and whether the write side is closed. */
    var wire: seq<byte>
    var halfClosed: bool
    ghost var accepted: seq<byte>
    /** Whether the connection has been closed or destroyed, or established a second time. */
    ghost var tornDown: bool

    ghost predicate Shape()
      reads this, inputBuffer, inputBuffer.data, outputBuffer, outputBuffer.data, channel.poller, channel.poller.live
    {
      && inputBuffer != outputBuffer && inputBuffer.data != outputBuffer.data
      && inputBuffer.Valid() && outputBuffer.Valid() && channel.Live() && channel.poller.Valid()
    }

    ghost function Abs(): (c: Conn<E.Channel>)
      requires Shape()
      reads this, inputBuffer, inputBuffer.data, outputBuffer, outputBuffer.data, channel.poller, channel.poller.live
      ensures c.Ok()
    {
      Conn(status, channel.poller.Abs(), channel, outputBuffer.Contents(), highWaterMark, notify,
           wire, halfClosed, queued, shutdownsDue, accepted)
    }

    /** Between calls: the poller mirrors the kernel, the stream is whole, and until the first close the
        half-close is graceful. */
    ghost predicate Valid()
      reads this, inputBuffer, inputBuffer.data, outputBuffer, outputBuffer.data, channel.poller, channel.poller.live
    {
      Shape() && Conserved(Abs()) && (!tornDown ==> Graceful(Abs()))
    }

    /** The bytes received and not yet consumed. */
    ghost function Input(): seq<byte>
      requires Shape()
      reads this, inputBuffer, inputBuffer.data, outputBuffer, outputBuffer.data, channel.poller, channel.poller.live
    {
      inputBuffer.Contents()
    }

    constructor (poller: E.Poller, fd: int, highWaterMark: nat, notify: bool)
      requires poller.Valid() && forall c <- poller.live :: c.fd != fd
      modifies poller`live
      ensures Valid() && fresh(channel) && fresh(inputBuffer) && fresh(outputBuffer)
      ensures channel.poller == poller && channel.fd == fd && !tornDown && !channel.tied && Input() == []
      ensures Fresh(Abs()) && Abs().mark == highWaterMark && Abs().notify == notify
    {
      hide P.Mirror;
      this.highWaterMark := highWaterMark;
      this.notify := notify;
      status := Connecting;
      queued, shutdownsDue := [], 0;
      wire, halfClosed, accepted, tornDown := [], false, [], false;
      channel := new E.Channel(poller, fd);
      inputBuffer := new B.Buffer();
      outputBuffer := new B.Buffer();
    }

    /**
     Every connection object, whatever was called on it: what the kernel took and what is pending is what
     it accepted; and before its first close it is half-closed only with everything on the wire, at the
     latest when nothing is pending after a shutdown, and once established it is watched for input.
     */
    lemma ObjectKeepsItsPromises()
      requires Valid()
      ensures wire + outputBuffer.Contents() == accepted && P.Mirror(channel.poller.Abs()) && channel.poller.refused == 0
      ensures !tornDown ==> (channel.IsWriting() <==> outputBuffer.Contents() != [])
      ensures !tornDown && status != Connecting ==>
        && channel.fd in channel.poller.kernel && channel.poller.kernel[channel.fd] == P.Interest(channel, channel.events)
        && P.IN in channel.events && P.PRI in channel.events
      ensures !tornDown && halfClosed ==> wire == accepted
      ensures !tornDown && status == Disconnected && shutdownsDue == 0 ==> (halfClosed <==> wire == accepted)
    {
      assert P.InStep(channel.poller.Abs(), channel);
    }

    // ---------------------------------------------------------------- parts of the entry points

    method ShutdownWrite()
      modifies this`halfClosed
      ensures halfClosed
    {
      halfClosed := true;
    }

    method QueueInLoop(t: Task)
      requires Shape()
      modifies this`queued
      ensures Shape() && Abs() == old(Abs()).(queued := old(queued) + [t])
    {
      queued := queued + [t];
    }

    /** Hands bytes to the kernel. */
    method ToWire(bytes: seq<byte>)
      requires Shape()
      modifies this`wire
      ensures Shape() && Abs() == old(Abs()).(wire := old(wire) + bytes)
    {
      wire := wire + bytes;
    }

    method Append(bytes: seq<byte>)
      requires Shape()
      modifies outputBuffer, outputBuffer.data
      ensures Shape() && (outputBuffer.data == old(outputBuffer.data) || fresh(outputBuffer.data))
      ensures Abs() == old(Abs()).(output := old(Abs()).output + bytes)
    {
      hide P.Mirror;
      outputBuffer.Append(bytes);
    }

    /** Drops the oldest bytes of the output buffer. */
    method Drop(n: nat)
      requires Shape() && n <= |outputBuffer.Contents()|
      modifies outputBuffer
      ensures Shape() && outputBuffer.data == old(outputBuffer.data)
      ensures Abs() == old(Abs()).(output := old(Abs()).output[n..])
    {
      hide L.Retrieve, P.Mirror;
      ghost var output := outputBuffer.Contents();
      assert n == |output| ==> output[n..] == [];
      outputBuffer.Retrieve(n);
    }

    method WantWriting(on: bool)
      requires Shape()
      modifies channel.poller`channels, channel.poller`kernel, channel.poller`refused, channel`index, channel`events
      ensures Shape()
      ensures Abs() == old(Abs()).Channel(if on then P.EnableWriting else P.DisableWriting)
    {
      hide P.Mirror, P.Apply;
      if on {
        channel.EnableWriting();
      } else {
        channel.DisableWriting();
      }
    }

    /** The direct attempt of `sendInLoop`. */
    method TryWrite(data: seq<byte>, kernel: WriteResult) returns (nwrote: nat, faultError: bool)
      requires Shape() && (kernel.Wrote? ==> kernel.n <= |data|)
      modifies this`wire, this`queued, this`accepted
      ensures Shape() && Abs() == AfterWrite(old(Abs()), data, kernel)
      ensures nwrote == DirectCount(old(Abs()), kernel) && (faultError <==> Fault(old(Abs()), kernel))
    {
      hide P.Apply, P.Mirror;
      nwrote, faultError := 0, false;
      ghost var c := Abs();
      assert data[..0] == [] && c.wire + [] == c.wire && c.queued + [] == c.queued;
      if !channel.IsWriting() && outputBuffer.ReadableBytes() == 0 {
        match kernel
        case Wrote(n) =>
          nwrote := n;
          ToWire(data[..nwrote]);
          if |data| - nwrote == 0 && notify {
            QueueInLoop(WriteComplete);
          }
        case WouldBlock =>
        case OtherError =>
        case _ =>
          faultError := true;
      }
      accepted := accepted + if faultError then [] else data;
    }

    /** The buffering half of `sendInLoop`. */
    method Hold(rest: seq<byte>)
      requires Shape()
      modifies this`queued, outputBuffer, outputBuffer.data
      modifies channel.poller`channels, channel.poller`kernel, channel.poller`refused, channel`index, channel`events
      ensures Shape() && Abs() == ConnectionSpec.Hold(old(Abs()), rest)
      ensures outputBuffer.data == old(outputBuffer.data) || fresh(outputBuffer.data)
    {
      hide P.Apply, P.Mirror;
      assert Abs().queued + [] == Abs().queued;
      var oldLen := outputBuffer.ReadableBytes();
      if oldLen + |rest| >= highWaterMark && oldLen < highWaterMark && highWaterMark != 0 {
        QueueInLoop(HighWater(oldLen + |rest|));
      }
      Append(rest);
      if !channel.IsWriting() {
        WantWriting(true);
      }
    }

    method ShutdownInLoop()
      requires Shape()
      modifies this`halfClosed
      ensures Shape() && Abs() == ShutdownNow(old(Abs()))
    {
      hide P.Mirror;
      if !channel.IsWriting() {
        ShutdownWrite();
      }
    }

    /** The tail of `handleWrite` once the output buffer is empty. */
    method FinishDrain()
      requires Shape()
      modifies this`queued, this`halfClosed
      modifies channel.poller`channels, channel.poller`kernel, channel.poller`refused, channel`index, channel`events
      ensures Shape() && Abs() == AfterDrain(old(Abs()))
    {
      hide P.Apply, P.Mirror;
      WantWriting(false);
      assert Abs().queued + [] == Abs().queued;
      if notify {
        QueueInLoop(WriteComplete);
      }
      if status == Disconnected {
        ShutdownInLoop();
      }
    }

    method Enter()
      requires Shape()
      modifies this`status, channel`tied
      modifies channel.poller`channels, channel.poller`kernel, channel.poller`refused, channel`index, channel`events
      ensures Shape() && channel.tied && Abs() == ConnectionSpec.ConnectEstablished(old(Abs()))
    {
      hide P.Apply, P.Mirror;
      status := Connected;
      channel.Tie();
      channel.EnableReading();
    }

    method Leave()
      requires Shape()
      modifies channel.poller`channels, channel.poller`kernel, channel.poller`refused, channel`index, channel`events
      ensures Shape() && Abs() == old(Abs()).Channel(P.DisableAll)
      ensures Conserved(old(Abs())) ==> Conserved(Abs())
    {
      hide P.Apply, P.Mirror;
      channel.DisableAll();
    }

    method Vanish()
      requires Shape()
      modifies channel.poller`channels, channel.poller`kernel, channel.poller`refused, channel`index
      ensures Shape() && Abs() == old(Abs()).Channel(P.Remove)
      ensures (Conserved(old(Abs())) ==> Conserved(Abs())) && Input() == old(Input())
    {
      hide P.Apply, P.Mirror;
      channel.Remove();
    }

    // ---------------------------------------------------------------- sending and shutting down

    method SendInLoop(data: seq<byte>, kernel: WriteResult)
      requires Valid() && (kernel.Wrote? ==> kernel.n <= |data|)
      modifies this, outputBuffer, outputBuffer.data
      modifies channel.poller`channels, channel.poller`kernel, channel.poller`refused, channel`index, channel`events
      ensures Valid() && Abs() == ConnectionSpec.SendInLoop(old(Abs()), data, kernel) && tornDown == old(tornDown)
      ensures outputBuffer.data == old(outputBuffer.data) || fresh(outputBuffer.data)
    {
      hide P.Apply, P.Mirror, ConnectionSpec.AfterWrite, ConnectionSpec.Hold, Conserved, Graceful;
      StepKeeps(Abs(), ConnectionSpec.Send(data, kernel), tornDown);
      if status != Disconnected {
        var nwrote, faultError := TryWrite(data, kernel);
        var remaining := data[nwrote..];
        if !faultError && |remaining| > 0 {
          Hold(remaining);
        }
      }
    }

    /** `send` called in the loop's own thread. */
    method Send(data: seq<byte>, kernel: WriteResult)
      requires Valid() && (kernel.Wrote? ==> kernel.n <= |data|)
      modifies this, outputBuffer, outputBuffer.data
      modifies channel.poller`channels, channel.poller`kernel, channel.poller`refused, channel`index, channel`events
      ensures Valid() && Abs() == UserSend(old(Abs()), data, kernel) && tornDown == old(tornDown)
      ensures outputBuffer.data == old(outputBuffer.data) || fresh(outputBuffer.data)
    {
      hide P.Apply, P.Mirror, ConnectionSpec.SendInLoop, Conserved, Graceful;
      if status == Connected {
        SendInLoop(data, kernel);
      }
    }

    method Shutdown(inLoopThread: bool)
      requires Valid()
      modifies this
      ensures Valid() && Abs() == ConnectionSpec.Shutdown(old(Abs()), inLoopThread) && tornDown == old(tornDown)
    {
      hide P.Apply, P.Mirror, Conserved, Graceful;
      StepKeeps(Abs(), ShutDown(inLoopThread), tornDown);
      if status == Connected {
        status := Disconnected;
        if inLoopThread {
          ShutdownInLoop();
        } else {
          QueueInLoop(Task.ShutdownInLoop);
          shutdownsDue := shutdownsDue + 1;
        }
      }
    }

    /** The loop runs one queued half-close. */
    method RunQueuedShutdown()
      requires Valid() && shutdownsDue > 0
      modifies this
      ensures Valid() && Abs() == RunShutdown(old(Abs())) && tornDown == old(tornDown)
    {
      hide P.Apply, P.Mirror, Conserved, Graceful;
      StepKeeps(Abs(), QueuedShutdown, tornDown);
      shutdownsDue := shutdownsDue - 1;
      ShutdownInLoop();
    }

    // ---------------------------------------------------------------- user callbacks

    method Retrieve(len: nat)
      requires Valid()
      modifies inputBuffer
      ensures Valid() && Abs() == old(Abs()) && inputBuffer.data == old(inputBuffer.data)
      ensures Input() == if len < |old(Input())| then old(Input())[len..] else []
      ensures inputBuffer.Layout() == L.Retrieve(old(inputBuffer.Layout()), len)
    {
      hide P.Mirror, Conserved, Graceful, L.Retrieve, B.Buffer.Contents, E.Poller.Abs;
      inputBuffer.Retrieve(len);
    }

    method Perform(k: Call)
      requires Valid() && CallsOk([k])
      modifies this, inputBuffer, outputBuffer, outputBuffer.data
      modifies channel.poller`channels, channel.poller`kernel, channel.poller`refused, channel`index, channel`events
      ensures Valid() && Abs() == AfterCall(old(Abs()), k) && tornDown == old(tornDown)
      ensures inputBuffer.data == old(inputBuffer.data)
      ensures outputBuffer.data == old(outputBuffer.data) || fresh(outputBuffer.data)
      ensures k.RetrieveCall? ==>
        && Input() == (if k.len < |old(Input())| then old(Input())[k.len..] else [])
        && inputBuffer.Layout() == L.Retrieve(old(inputBuffer.Layout()), k.len)
      ensures !k.RetrieveCall? ==> Input() == old(Input()) && inputBuffer.Layout() == old(inputBuffer.Layout())
    {
      hide P.Apply, P.Mirror, Conserved, Graceful, UserSend, ConnectionSpec.Shutdown, L.Retrieve;
      assert k in [k];
      match k
      case SendCall(data, r) => Send(data, r);
      case ShutdownCall => Shutdown(true);
      case RetrieveCall(len) => Retrieve(len);
    }

    /** A callback makes its calls one after the other. */
    method RunCallback(calls: seq<Call>)
      requires Valid() && CallsOk(calls)
      modifies this, inputBuffer, outputBuffer, outputBuffer.data
      modifies channel.poller`channels, channel.poller`kernel, channel.poller`refused, channel`index, channel`events
      ensures Valid() && Abs() == AfterCalls(old(Abs()), calls) && tornDown == old(tornDown)
      ensures inputBuffer.data == old(inputBuffer.data)
      ensures outputBuffer.data == old(outputBuffer.data) || fresh(outputBuffer.data)
      ensures Input() == Consumed(old(Input()), calls)
      ensures inputBuffer.Layout() == LayoutAfter(old(inputBuffer.Layout()), calls)
    {
      hide P.Apply, P.Mirror, Conserved, Graceful, AfterCall, L.Retrieve, CallsOk;
      hide Shape, Abs, Input;
      NoCalls(calls);
      for i := 0 to |calls|
        invariant CallsOk(calls[..i]) && Valid() && Abs() == AfterCalls(old(Abs()), calls[..i]) && tornDown == old(tornDown)
        invariant inputBuffer.data == old(inputBuffer.data)
        invariant outputBuffer.data == old(outputBuffer.data) || fresh(outputBuffer.data)
        invariant Input() == Consumed(old(Input()), calls[..i])
        invariant inputBuffer.Layout() == LayoutAfter(old(inputBuffer.Layout()), calls[..i])
      {
        CallsOkParts(calls, i);
        PrefixStep(calls, i);
        Perform(calls[i]);
      }
      assert calls[..|calls|] == calls;
    }

    // ---------------------------------------------------------------- life and events

    method ConnectEstablished(callback: seq<Call>)
      requires Valid() && CallsOk(callback)
      modifies this, inputBuffer, outputBuffer, outputBuffer.data, channel`tied
      modifies channel.poller`channels, channel.poller`kernel, channel.poller`refused, channel`index, channel`events
      ensures Valid() && Abs() == AfterCalls(ConnectionSpec.ConnectEstablished(old(Abs())), callback)
      ensures channel.tied && Input() == Consumed(old(Input()), callback)
      ensures tornDown == (old(tornDown) || old(status) != Connecting)
    {
      hide P.Apply, P.Mirror, Conserved, Graceful, AfterCalls, Consumed, LayoutAfter;
      hide ConnectionSpec.ConnectEstablished;
      tornDown := tornDown || status != Connecting;
      EstablishKeeps(Abs(), tornDown);
      Enter();
      RunCallback(callback);
    }

    /** The first half of `connectDestroyed` on a connection still connected. */
    method Disconnect(callback: seq<Call>)
      requires Valid() && tornDown && CallsOk(callback)
      modifies this, inputBuffer, outputBuffer, outputBuffer.data
      modifies channel.poller`channels, channel.poller`kernel, channel.poller`refused, channel`index, channel`events
      ensures Valid() && tornDown && Abs() == old(Abs()).(status := Disconnected).Channel(P.DisableAll)
      ensures Input() == Consumed(old(Input()), callback)
    {
      hide P.Apply, P.Mirror, Graceful, AfterCalls, Consumed, LayoutAfter;
      status := Disconnected;
      Leave();
      CallsOnDisconnected(Abs(), callback);
      RunCallback(callback);
    }

    method ConnectDestroyed(callback: seq<Call>)
      requires Valid() && CallsOk(callback)
      modifies this, inputBuffer, outputBuffer, outputBuffer.data
      modifies channel.poller`channels, channel.poller`kernel, channel.poller`refused, channel`index, channel`events
      ensures Valid() && tornDown && Abs() == ConnectionSpec.ConnectDestroyed(old(Abs()))
      ensures Input() == if old(status) == Connected then Consumed(old(Input()), callback) else old(Input())
    {
      hide P.Apply, P.Mirror, Graceful, Consumed, Conserved, B.Buffer.Contents, E.Poller.Abs;
      tornDown := true;
      if status == Connected {
        Disconnect(callback);
      }
      Vanish();
    }

    /** The close callback is the server's `removeConnection`, which leaves the connection alone. */
    method HandleClose(callback: seq<Call>)
      requires Valid() && CallsOk(callback)
      modifies this, inputBuffer, outputBuffer, outputBuffer.data
      modifies channel.poller`channels, channel.poller`kernel, channel.poller`refused, channel`index, channel`events
      ensures Valid() && tornDown && Abs() == AfterClose(old(Abs()), callback)
      ensures inputBuffer.data == old(inputBuffer.data)
      ensures outputBuffer.data == old(outputBuffer.data) || fresh(outputBuffer.data)
      ensures Input() == Consumed(old(Input()), callback)
      ensures inputBuffer.Layout() == LayoutAfter(old(inputBuffer.Layout()), callback)
    {
      hide P.Apply, P.Mirror, Graceful, Conserved, AfterCalls, Consumed, LayoutAfter, B.Buffer.Contents, E.Poller.Abs;
      tornDown := true;
      Leave();
      RunCallback(callback);
    }

    /** Delivered bytes join the input queue before the message callback runs; end of stream closes; an
        error only writes a log line. */
    method HandleRead(kernel: B.ReadResult, callback: seq<Call>)
      requires Valid() && CallsOk(callback)
      requires kernel.ReadBytes? ==> |kernel.bytes| <= L.Offered(inputBuffer.Layout())
      modifies this, inputBuffer, inputBuffer.data, outputBuffer, outputBuffer.data
      modifies channel.poller`channels, channel.poller`kernel, channel.poller`refused, channel`index, channel`events
      ensures Valid() && Abs() == AfterRead(old(Abs()), Delivered(kernel), callback)
      ensures tornDown == (old(tornDown) || Delivered(kernel) == 0)
      ensures inputBuffer.data == old(inputBuffer.data) || fresh(inputBuffer.data)
      ensures outputBuffer.data == old(outputBuffer.data) || fresh(outputBuffer.data)
      ensures Input() == AfterReading(old(Input()), kernel, callback)
    {
      hide P.Apply, P.Mirror, Conserved, Graceful, AfterCalls, Consumed, LayoutAfter;
      var n := inputBuffer.ReadFd(kernel);
      if n > 0 {
        RunCallback(callback);
      } else if n == 0 {
        HandleClose(callback);
      }
    }

    method HandleWrite(kernel: WriteResult)
      requires Valid() && (kernel.Wrote? ==> kernel.n <= |outputBuffer.Contents()|)
      modifies this, outputBuffer, outputBuffer.data
      modifies channel.poller`channels, channel.poller`kernel, channel.poller`refused, channel`index, channel`events
      ensures Valid() && Abs() == ConnectionSpec.HandleWrite(old(Abs()), kernel) && tornDown == old(tornDown)
      ensures Input() == old(Input())
      ensures old(P.OUT in channel.events) && kernel.Wrote? && kernel.n > 0 ==>
        && wire == old(wire) + old(outputBuffer.Contents())[..kernel.n]
        && outputBuffer.Contents() == old(outputBuffer.Contents())[kernel.n..]
        && (P.OUT in channel.events <==> kernel.n < |old(outputBuffer.Contents())|)
    {
      hide P.Apply, P.Mirror, ConnectionSpec.HandleWrite, Conserved, Graceful;
      StepKeeps(Abs(), Write(kernel), tornDown);
      WriteOutcome(Abs(), kernel);
      WriteOut(kernel);
    }

    method WriteOut(kernel: WriteResult)
      requires Shape() && (kernel.Wrote? ==> kernel.n <= |outputBuffer.Contents()|)
      modifies this`wire, this`queued, this`halfClosed, outputBuffer
      modifies channel.poller`channels, channel.poller`kernel, channel.poller`refused, channel`index, channel`events
      ensures Shape() && Abs() == ConnectionSpec.HandleWrite(old(Abs()), kernel)
      ensures Input() == old(Input())
    {
      hide P.Apply, P.Mirror, AfterDrain;
      if channel.IsWriting() {
        var n := if kernel.Wrote? then kernel.n else -1;
        var taken := outputBuffer.WriteFd(n);
        if n > 0 {
          ToWire(taken);
          Drop(n);
          if outputBuffer.ReadableBytes() == 0 {
            FinishDrain();
          }
        }
      }
    }

    method HangupEvent(callback: seq<Call>)
      requires Valid() && CallsOk(callback)
      modifies this, inputBuffer, outputBuffer, outputBuffer.data
      modifies channel.poller`channels, channel.poller`kernel, channel.poller`refused, channel`index, channel`events
      ensures Valid() && Abs() == HangupStep(old(Abs()), channel.revents, callback)
      ensures inputBuffer.data == old(inputBuffer.data)
      ensures outputBuffer.data == old(outputBuffer.data) || fresh(outputBuffer.data)
      ensures Input() == InputAfterHangup(old(Input()), channel.revents, callback)
      ensures inputBuffer.Layout() == LayoutAfterHangup(old(inputBuffer.Layout()), channel.revents, callback)
    {
      hide P.Apply, P.Mirror, Conserved, Graceful, AfterClose, LayoutAfter, Consumed;
      if P.HUP in channel.revents && P.IN !in channel.revents {
        HandleClose(callback);
      }
    }

    method ReadEvent(read: B.ReadResult, callback: seq<Call>)
      requires Valid() && CallsOk(callback)
      requires read.ReadBytes? ==> |read.bytes| <= L.Offered(inputBuffer.Layout())
      modifies this, inputBuffer, inputBuffer.data, outputBuffer, outputBuffer.data
      modifies channel.poller`channels, channel.poller`kernel, channel.poller`refused, channel`index, channel`events
      ensures Valid() && Abs() == ReadStep(old(Abs()), channel.revents, Delivered(read), callback)
      ensures inputBuffer.data == old(inputBuffer.data) || fresh(inputBuffer.data)
      ensures outputBuffer.data == old(outputBuffer.data) || fresh(outputBuffer.data)
      ensures Input() == InputAfterRead(old(Input()), channel.revents, read, callback)
    {
      hide P.Apply, P.Mirror, Conserved, Graceful, AfterRead, AfterReading, L.Offered;
      if channel.revents * P.READ_EVENT != {} {
        HandleRead(read, callback);
      }
    }

    method WriteEvent(write: WriteResult)
      requires Valid() && (write.Wrote? ==> write.n <= |outputBuffer.Contents()|)
      modifies this, outputBuffer, outputBuffer.data
      modifies channel.poller`channels, channel.poller`kernel, channel.poller`refused, channel`index, channel`events
      ensures Valid() && Abs() == WriteStep(old(Abs()), channel.revents, write) && Input() == old(Input())
    {
      hide P.Apply, P.Mirror, Conserved, Graceful, ConnectionSpec.HandleWrite;
      if channel.revents * P.WRITE_EVENT != {} {
        HandleWrite(write);
      }
    }

    /** The callbacks in the order of `handleEventWithGuard`. The kernel delivers no more than is offered
        when the dispatch comes to its read event, and takes no more than is pending at its write event. */
    method HandleEventWithGuard(read: B.ReadResult, write: WriteResult, onHangup: seq<Call>, onRead: seq<Call>)
      requires Valid() && CallsOk(onHangup) && CallsOk(onRead)
      requires read.ReadBytes? ==>
        |read.bytes| <= L.Offered(LayoutAfterHangup(inputBuffer.Layout(), channel.revents, onHangup))
      requires write.Wrote? ==>
        write.n <= |BeforeWrite(Abs(), channel.revents, Delivered(read), onHangup, onRead).output|
      modifies this, inputBuffer, inputBuffer.data, outputBuffer, outputBuffer.data
      modifies channel.poller`channels, channel.poller`kernel, channel.poller`refused, channel`index, channel`events
      ensures Valid()
      ensures Abs() == AfterDispatch(old(Abs()), old(channel.revents), Delivered(read), write, onHangup, onRead)
      ensures Input() == InputAfter(old(Input()), old(channel.revents), read, onHangup, onRead)
    {
      hide P.Mirror, Conserved, Graceful, HangupStep, ReadStep, WriteStep;
      hide InputAfterHangup, InputAfterRead, LayoutAfterHangup, L.Offered, Delivered;
      HangupEvent(onHangup);
      ReadEvent(read, onRead);
      WriteEvent(write);
    }

    /**
     One dispatch of the channel; it is skipped when the channel is tied and the connection behind the tie
     is gone. `DispatchIsRun` reads the result as a run of steps.
     */
    method HandleEvent(alive: bool, read: B.ReadResult, write: WriteResult, onHangup: seq<Call>, onRead: seq<Call>)
      requires Valid() && CallsOk(onHangup) && CallsOk(onRead)
      requires read.ReadBytes? ==>
        |read.bytes| <= L.Offered(LayoutAfterHangup(inputBuffer.Layout(), channel.revents, onHangup))
      requires write.Wrote? ==>
        write.n <= |BeforeWrite(Abs(), channel.revents, Delivered(read), onHangup, onRead).output|
      modifies this, inputBuffer, inputBuffer.data, outputBuffer, outputBuffer.data
      modifies channel.poller`channels, channel.poller`kernel, channel.poller`refused, channel`index, channel`events
      ensures Valid()
      ensures Abs() == if channel.tied && !alive then old(Abs()) else
        AfterDispatch(old(Abs()), old(channel.revents), Delivered(read), write, onHangup, onRead)
      ensures Input() == if channel.tied && !alive then old(Input()) else
        InputAfter(old(Input()), old(channel.revents), read, onHangup, onRead)
    {
      hide AfterDispatch, BeforeWrite, InputAfter, P.Mirror, Conserved, Graceful;
      if channel.tied {
        if alive {
          HandleEventWithGuard(read, write, onHangup, onRead);
        }
      } else {
        HandleEventWithGuard(read, write, onHangup, onRead);
      }
    }
  }

  /** A plain read event, with callbacks that make no calls: exactly the delivered bytes join the input, and
      end of stream turns every event off. */
  method PlainRead(c: TcpConnection, bytes: seq<byte>)
    requires c.Valid() && |bytes| <= L.Offered(c.inputBuffer.Layout())
    requires (P.IN in c.channel.revents || P.PRI in c.channel.revents) && P.HUP !in c.channel.revents
    requires P.OUT !in c.channel.revents
    modifies c, c.inputBuffer, c.inputBuffer.data, c.outputBuffer, c.outputBuffer.data
    modifies c.channel.poller`channels, c.channel.poller`kernel, c.channel.poller`refused, c.channel`index, c.channel`events
    ensures c.Valid() && c.Input() == old(c.Input()) + bytes
    ensures bytes == [] ==> c.channel.events == {}
    ensures bytes != [] ==> c.Abs() == old(c.Abs())
  {
    hide P.Mirror, P.Apply, Conserved, Graceful, L.Offered, HandleRead, HandleWrite;
    HandlersByFlag(c.channel.revents);
    ReadOutcome(c.Abs(), |bytes|);
    c.HandleEventWithGuard(B.ReadBytes(bytes), WouldBlock, [], []);
  }

  /** Two connections of one loop share their poller and nothing else. */
  ghost predicate Apart(a: TcpConnection, b: TcpConnection)
    reads a, b, a.inputBuffer, a.outputBuffer, b.inputBuffer, b.outputBuffer
  {
    && a != b && a.channel != b.channel && a.channel.poller == b.channel.poller
    && {a.inputBuffer, a.outputBuffer} !! {b.inputBuffer, b.outputBuffer}
    && {a.inputBuffer.data, a.outputBuffer.data} !! {b.inputBuffer.data, b.outputBuffer.data}
  }

  /** A connection none of whose own parts has changed, on a poller that is valid again, is valid still. */
  twostate lemma UntouchedStaysValid(b: TcpConnection)
    requires old(b.Valid()) && b.channel.poller.Valid()
    requires unchanged(b, b.inputBuffer, b.outputBuffer, b.channel)
    requires unchanged(old(b.inputBuffer.data), old(b.outputBuffer.data))
    requires b.channel.poller.live == old(b.channel.poller.live)
    ensures b.Valid() && b.Abs() == old(b.Abs()).(io := b.Abs().io) && b.Input() == old(b.Input())
  {
    hide P.Mirror;
    assert b.Abs().io.chan[b.channel] == old(b.Abs()).io.chan[b.channel];
  }

  /** What one connection does leaves every other on the same poller valid and as it was, but for the
      poller's view of the first. */
  method SendBeside(a: TcpConnection, b: TcpConnection, data: seq<byte>, kernel: WriteResult)
    requires a.Valid() && b.Valid() && Apart(a, b) && (kernel.Wrote? ==> kernel.n <= |data|)
    modifies a, a.outputBuffer, a.outputBuffer.data
    modifies a.channel.poller`channels, a.channel.poller`kernel, a.channel.poller`refused, a.channel`index, a.channel`events
    ensures a.Valid() && b.Valid() && Apart(a, b)
    ensures a.Abs() == ConnectionSpec.SendInLoop(old(a.Abs()), data, kernel)
    ensures b.Abs() == old(b.Abs()).(io := b.Abs().io) && b.Input() == old(b.Input())
  {
    hide P.Mirror, P.Apply, ConnectionSpec.SendInLoop, Conserved, Graceful;
    a.SendInLoop(data, kernel);
    UntouchedStaysValid(b);
  }

  method DispatchBeside(
      a: TcpConnection, b: TcpConnection, alive: bool, read: B.ReadResult, write: WriteResult,
      onHangup: seq<Call>, onRead: seq<Call>)
    requires a.Valid() && b.Valid() && Apart(a, b) && CallsOk(onHangup) && CallsOk(onRead)
    requires read.ReadBytes? ==>
      |read.bytes| <= L.Offered(LayoutAfterHangup(a.inputBuffer.Layout(), a.channel.revents, onHangup))
    requires write.Wrote? ==>
      write.n <= |BeforeWrite(a.Abs(), a.channel.revents, Delivered(read), onHangup, onRead).output|
    modifies a, a.inputBuffer, a.inputBuffer.data, a.outputBuffer, a.outputBuffer.data
    modifies a.channel.poller`channels, a.channel.poller`kernel, a.channel.poller`refused, a.channel`index, a.channel`events
    ensures a.Valid() && b.Valid()
    ensures b.Abs() == old(b.Abs()).(io := b.Abs().io) && b.Input() == old(b.Input())
  {
    hide P.Mirror, P.Apply, Conserved, Graceful, AfterDispatch, BeforeWrite, InputAfter, LayoutAfterHangup, L.Offered;
    a.HandleEvent(alive, read, write, onHangup, onRead);
    UntouchedStaysValid(b);
  }

  lemma EstablishKeeps<C>(c: Conn<C>, tornDown: bool)
    requires c.Ok() && Conserved(c) && (!tornDown ==> Graceful(c) && c.status == Connecting)
    ensures var d := ConnectionSpec.ConnectEstablished(c); Conserved(d) && (!tornDown ==> Graceful(d))
  {
    hide P.Apply, Graceful;
    if !tornDown { StepKeepsGraceful(c, Establish); }
  }
}
