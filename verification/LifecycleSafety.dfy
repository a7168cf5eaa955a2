/** The invariant of the connection life cycle and what follows from it in every reachable state. */
module LifecycleSafety {
  import P = PollerSpec
  import C = ConnectionSpec
  import Decimal
  import opened Lifecycle

  // ---------------------------------------------------------------- the invariant

  ghost function Count(loop: Loop, f: Functor): nat {
    multiset(loop.pending)[f] + multiset(loop.batch)[f]
  }

  /** Who may be queued where: only on the right loop, and only in the right stage of its connection. */
  ghost predicate FunctorOk(s: State, l: nat, f: Functor) {
    match f
    case Established(c) => Known(s, c) && s.conns[c].loop == l && !s.conns[c].est
    case Remove(c) => l == 0 && Known(s, c) && s.conns[c].est && s.conns[c].alive
    case Destroyed(c) =>
      Known(s, c) && s.conns[c].loop == l && s.conns[c].est && s.conns[c].alive && !InMap(s, c)
    case User => true
  }

  ghost predicate FrameOk(s: State, l: nat)
    requires l < |s.loops|
  {
    var phase := s.loops[l].phase;
    match s.loops[l].frame
    case Free => true
    case Accepted(c) => l == 0 && phase == Handling && Known(s, c) && !s.conns[c].est
    case Establishing(c) =>
      phase != Polling && Known(s, c) && s.conns[c].loop == l && s.conns[c].est && s.conns[c].alive
    case Dispatching(c) =>
      phase == Handling && Known(s, c) && s.conns[c].loop == l && s.conns[c].est && !s.conns[c].gone
    case Closing(c) =>
      phase == Handling && Known(s, c) && s.conns[c].loop == l && s.conns[c].est && !s.conns[c].gone
    case Erased(c, d) =>
      && l == 0 && phase == (if d then Handling else Running)
      && Known(s, c) && s.conns[c].est && s.conns[c].alive && !InMap(s, c)
      && (d ==> s.conns[c].loop == 0 && !s.conns[c].gone)
    case Destroying(c) =>
      && phase == Running && Known(s, c) && s.conns[c].loop == l && s.conns[c].est && s.conns[c].alive
      && !InMap(s, c) && s.conns[c].status == C.Disconnected
  }

  /** Something will still lead to the destruction of an established connection. */
  ghost predicate Keeper(s: State, c: ConnId)
    requires Known(s, c) && |s.loops| > 0
  {
    || InMap(s, c)
    || Queued(s.loops[0], Remove(c))
    || Queued(Own(s, c), Destroyed(c))
    || (s.loops[0].frame.Erased? && s.loops[0].frame.c == c)
    || Own(s, c).frame == Destroying(c)
  }

  ghost predicate ConnOk(s: State, c: ConnId)
    requires |s.loops| > 0
  {
    Known(s, c) &&
    var r := s.conns[c];
    && (r.alive <==> c in Own(s, c).io.chan)
    && (!r.est ==>
         && r.alive && !r.gone && r.status == C.Connecting && InMap(s, c)
         && Own(s, c).io.chan[c].index == P.NEW
         && Count(Own(s, c), Established(c)) + (if s.loops[0].frame == Accepted(c) then 1 else 0) == 1)
    && (r.est ==> r.status == C.Connected || r.status == C.Disconnected)
    && (r.est && !r.gone ==> r.alive && Keeper(s, c))
    && (r.gone ==>
         && r.est && r.status == C.Disconnected && !InMap(s, c)
         && (r.alive ==> Own(s, c).io.chan[c].index == P.NEW))
  }

  ghost predicate LoopOk(s: State, l: nat)
    requires l < |s.loops|
  {
    var loop := s.loops[l];
    && P.Mirror(loop.io) && loop.io.refused == 0
    && (loop.phase == Polling ==> loop.active == [] && loop.batch == [] && loop.frame == Free)
    && (loop.phase == Handling ==> loop.batch == [])
    && (loop.phase == Running ==> loop.active == [])
    && FrameOk(s, l)
    && (forall c :: c in loop.io.chan ==> Known(s, c) && s.conns[c].loop == l && s.conns[c].alive)
    && (forall f :: f in loop.pending ==> FunctorOk(s, l, f))
    && (forall f :: f in loop.batch ==> FunctorOk(s, l, f))
    && (forall c :: c in loop.active ==> Known(s, c) && s.conns[c].loop == l && s.conns[c].est && !s.conns[c].gone)
  }

  ghost predicate MapOk(s: State) {
    forall n :: n in s.connections ==> s.connections[n] < |s.conns| && n == Name(s, s.connections[n])
  }

  ghost predicate Inv(s: State) {
    && |s.loops| > 0 && MapOk(s)
    && (forall c :: 0 <= c < |s.conns| ==> ConnOk(s, c))
    && (forall l :: 0 <= l < |s.loops| ==> LoopOk(s, l))
  }

  /** A server before its first connection, with `n` I/O loops beside the base loop. */
  function Start(prefix: string, n: nat): State {
    State(prefix, seq(n + 1, _ => Loop(Polling, Free, [], [], [], P.World(map[], map[], map[], 0))), [], map[])
  }

  lemma StartIsOk(prefix: string, n: nat)
    ensures Inv(Start(prefix, n))
  {
    var s := Start(prefix, n);
    forall l | 0 <= l < |s.loops| ensures LoopOk(s, l) {
    }
  }

  lemma NamesDiffer(s: State, c: ConnId, d: ConnId)
    requires c != d
    ensures Name(s, c) != Name(s, d)
  {
    if Name(s, c) == Name(s, d) {
      assert Name(s, c)[|s.prefix|..] == Decimal.ToString(c + 1);
      assert Name(s, d)[|s.prefix|..] == Decimal.ToString(d + 1);
      Decimal.ToStringIsInjective(c + 1, d + 1);
    }
  }

  // ---------------------------------------------------------------- what does not notice a move

  /** From `s` to `t` nothing about existing connections changes but a disconnection, an erasure, or a
      new connection; queues and frames may differ. */
  ghost predicate Calm(s: State, t: State) {
    && t.prefix == s.prefix && |t.loops| == |s.loops| && |s.conns| <= |t.conns|
    && (forall c {:trigger t.conns[c]} {:trigger s.conns[c]} :: 0 <= c < |s.conns| ==>
          t.conns[c] == s.conns[c] || (s.conns[c].est && t.conns[c] == s.conns[c].(status := C.Disconnected)))
    && (forall c {:trigger InMap(t, c)} :: 0 <= c < |s.conns| && InMap(t, c) ==> InMap(s, c))
  }

  lemma FunctorCalm(s: State, t: State, l: nat, f: Functor)
    requires Calm(s, t) && FunctorOk(s, l, f)
    ensures FunctorOk(t, l, f)
  {
  }

  lemma FrameCalm(s: State, t: State, l: nat)
    requires Calm(s, t) && l < |s.loops| && FrameOk(s, l)
    requires t.loops[l].frame == s.loops[l].frame && t.loops[l].phase == s.loops[l].phase
    ensures FrameOk(t, l)
  {
  }

  /** A loop stays in order when its thread does not move, its queues hold only proper functors, and its
      poller is a mirror over the same channels. */
  lemma LoopCalm(s: State, t: State, l: nat)
    requires Calm(s, t) && l < |s.loops| && LoopOk(s, l)
    requires t.loops[l].phase == s.loops[l].phase && t.loops[l].active == s.loops[l].active
    requires P.Mirror(t.loops[l].io) && t.loops[l].io.refused == 0
    requires t.loops[l].io.chan.Keys == s.loops[l].io.chan.Keys
    requires FrameOk(t, l) && (t.loops[l].phase == Polling ==> t.loops[l].frame == Free)
    requires forall f :: f in t.loops[l].pending ==> f in s.loops[l].pending || FunctorOk(t, l, f)
    requires forall f :: f in t.loops[l].batch ==> f in s.loops[l].batch
    requires |t.loops[l].batch| <= |s.loops[l].batch|
    ensures LoopOk(t, l)
  {
    hide P.Mirror, FunctorOk, FrameOk;
    forall f | f in t.loops[l].pending ensures FunctorOk(t, l, f) {
      if f in s.loops[l].pending { FunctorCalm(s, t, l, f); }
    }
    forall f | f in t.loops[l].batch ensures FunctorOk(t, l, f) {
      FunctorCalm(s, t, l, f);
    }
  }

  /** What `ConnOk` reads of the loops. */
  ghost predicate SameView(s: State, t: State, c: ConnId)
    requires Known(s, c) && Known(t, c) && s.conns[c].loop == t.conns[c].loop && |s.loops| > 0
  {
    && (InMap(t, c) <==> InMap(s, c))
    && (c in Own(s, c).io.chan <==> c in Own(t, c).io.chan)
    && ((s.conns[c].est && !s.conns[c].gone)
        || (c in Own(s, c).io.chan && Own(s, c).io.chan[c].index == P.NEW ==> Own(t, c).io.chan[c].index == P.NEW))
    && Count(Own(t, c), Established(c)) == Count(Own(s, c), Established(c))
    && (t.loops[0].frame == Accepted(c) <==> s.loops[0].frame == Accepted(c))
    && (Keeper(s, c) ==> Keeper(t, c))
  }

  lemma ConnCalm(s: State, t: State, c: ConnId)
    requires Calm(s, t) && |s.loops| > 0 && c < |s.conns| && ConnOk(s, c)
    requires SameView(s, t, c)
    ensures ConnOk(t, c)
  {
  }

  lemma MapCalm(s: State, t: State)
    requires MapOk(s) && t.prefix == s.prefix && |s.conns| <= |t.conns|
    requires forall n :: n in t.connections ==> n in s.connections && t.connections[n] == s.connections[n]
    ensures MapOk(t)
    ensures forall c :: InMap(t, c) ==> InMap(s, c)
  {
    forall n | n in t.connections ensures t.connections[n] < |t.conns| && n == Name(t, t.connections[n]) {
      assert n in s.connections;
    }
  }

  lemma CountPush(loop: Loop, f: Functor, g: Functor)
    ensures Count(loop.(pending := loop.pending + [f]), g) == Count(loop, g) + if f == g then 1 else 0
  {
  }

  lemma CountSame(a: Loop, b: Loop, g: Functor)
    requires a.pending == b.pending && a.batch == b.batch
    ensures Count(a, g) == Count(b, g)
  {
  }

  // ---------------------------------------------------------------- primitive moves keep it

  lemma PushKeeps(s: State, l: nat, f: Functor)
    requires Inv(s) && l < |s.loops| && FunctorOk(s, l, f) && !f.Established?
    ensures Inv(Push(s, l, f))
  {
    hide P.Mirror, ConnOk, FunctorOk, FrameOk, Count;
    var t := Push(s, l, f);
    MapCalm(s, t);
    assert Calm(s, t);
    forall c | 0 <= c < |t.conns| ensures ConnOk(t, c) {
      assert Known(s, c) by { KnownOk(s, c); }
      CountPush(s.loops[l], f, Established(c));
      ConnCalm(s, t, c);
    }
    FunctorCalm(s, t, l, f);
    forall k | 0 <= k < |t.loops| ensures LoopOk(t, k) {
      assert LoopOk(s, k);
      FrameCalm(s, t, k);
      LoopCalm(s, t, k);
    }
  }

  lemma KnownOk(s: State, c: ConnId)
    requires Inv(s) && c < |s.conns|
    ensures Known(s, c) && ConnOk(s, c)
  {
    assert ConnOk(s, c);
  }

  lemma IoFacts(w: P.World<ConnId>, c: ConnId, op: P.ChannelOp)
    requires P.Mirror(w) && c in w.chan
    ensures var v := P.Apply(w, c, op);
      && P.Mirror(v) && v.refused == w.refused && v.chan.Keys == w.chan.Keys
      && (forall d :: d in w.chan && d != c ==> v.chan[d] == w.chan[d])
      && (op == P.Remove ==> v.chan[c].index == P.NEW)
  {
    P.ApplyKeepsMirror(w, c, op);
  }

  lemma IoKeeps(s: State, c: ConnId, op: P.ChannelOp)
    requires Inv(s) && Live(s, c) && s.conns[c].est && !s.conns[c].gone && op != P.Remove
    ensures Inv(Io(s, c, op))
  {
    hide P.Apply, P.Mirror, ConnOk, FunctorOk, FrameOk, Count;
    var t := Io(s, c, op);
    assert LoopOk(s, s.conns[c].loop);
    IoFacts(Own(s, c).io, c, op);
    MapCalm(s, t);
    assert Calm(s, t);
    forall d | 0 <= d < |t.conns| ensures ConnOk(t, d) {
      KnownOk(s, d);
      CountSame(Own(s, d), Own(t, d), Established(d));
      ConnCalm(s, t, d);
    }
    forall k | 0 <= k < |t.loops| ensures LoopOk(t, k) {
      assert LoopOk(s, k);
      FrameCalm(s, t, k);
      LoopCalm(s, t, k);
    }
  }

  lemma StatusKeeps(s: State, c: ConnId)
    requires Inv(s) && c < |s.conns| && s.conns[c].est
    ensures Inv(SetStatus(s, c, C.Disconnected))
  {
    var t := SetStatus(s, c, C.Disconnected);
    hide P.Mirror, ConnOk, FunctorOk, FrameOk, Count;
    MapCalm(s, t);
    assert Calm(s, t);
    forall d | 0 <= d < |t.conns| ensures ConnOk(t, d) {
      KnownOk(s, d);
      ConnCalm(s, t, d);
    }
    forall k | 0 <= k < |t.loops| ensures LoopOk(t, k) {
      assert LoopOk(s, k);
      FrameCalm(s, t, k);
      LoopCalm(s, t, k);
    }
  }

  /** Changing what a thread is in the middle of, when no shared pointer hangs on the old frame alone. */
  lemma ReframeKeeps(s: State, l: nat, frame: Frame)
    requires Inv(s) && l < |s.loops| && FrameOk(Reframe(s, l, frame), l)
    requires s.loops[l].phase == Polling ==> frame == Free
    requires !frame.Accepted? && !s.loops[l].frame.Accepted? && !s.loops[l].frame.Destroying?
    requires s.loops[l].frame.Erased? ==>
      Known(s, s.loops[l].frame.c) && Queued(Own(s, s.loops[l].frame.c), Destroyed(s.loops[l].frame.c))
    ensures Inv(Reframe(s, l, frame))
  {
    var t := Reframe(s, l, frame);
    hide P.Mirror, ConnOk, FunctorOk, FrameOk, Count;
    MapCalm(s, t);
    assert Calm(s, t);
    forall d | 0 <= d < |t.conns| ensures ConnOk(t, d) {
      KnownOk(s, d);
      CountSame(Own(s, d), Own(t, d), Established(d));
      ConnCalm(s, t, d);
    }
    forall k | 0 <= k < |t.loops| ensures LoopOk(t, k) {
      assert LoopOk(s, k);
      if k != l { FrameCalm(s, t, k); }
      LoopCalm(s, t, k);
    }
  }

  lemma EraseSparesOthers(s: State, c: ConnId, k: ConnId)
    requires k != c
    ensures InMap(Erase(s, c), k) <==> InMap(s, k)
  {
    NamesDiffer(s, k, c);
  }

  lemma ErasedOk(s: State, t: State, c: ConnId, d: bool)
    requires |s.loops| > 0 && c < |s.conns| && ConnOk(s, c) && s.conns[c].est && s.conns[c].alive
    requires t == Reframe(Erase(s, c), 0, Erased(c, d))
    ensures ConnOk(t, c) && !InMap(t, c)
  {
  }

  /** Erasing from the server's map is safe once the call that does it is on the stack. */
  lemma EraseKeeps(s: State, c: ConnId, d: bool)
    requires Inv(s) && c < |s.conns| && s.conns[c].est && s.conns[c].alive
    requires s.loops[0].frame == Free || s.loops[0].frame == Closing(c)
    requires s.loops[0].phase == if d then Handling else Running
    requires d ==> s.conns[c].loop == 0 && !s.conns[c].gone
    ensures Inv(Reframe(Erase(s, c), 0, Erased(c, d)))
  {
    var t := Reframe(Erase(s, c), 0, Erased(c, d));
    KnownOk(s, c);
    ErasedOk(s, t, c, d);
    assert FrameOk(t, 0);
    hide P.Mirror, ConnOk, FunctorOk, FrameOk, Count;
    MapCalm(s, t);
    assert Calm(s, t);
    forall k | 0 <= k < |t.conns| && k != c ensures ConnOk(t, k) {
      KnownOk(s, k);
      EraseSparesOthers(s, c, k);
      CountSame(Own(s, k), Own(t, k), Established(k));
      ConnCalm(s, t, k);
    }
    forall k | 0 <= k < |t.loops| ensures LoopOk(t, k) {
      assert LoopOk(s, k);
      if k != 0 { FrameCalm(s, t, k); }
      LoopCalm(s, t, k);
    }
  }

  lemma CountPop(loop: Loop, g: Functor)
    requires loop.batch != []
    ensures Count(loop.(batch := loop.batch[1..]), g) == Count(loop, g) - if loop.batch[0] == g then 1 else 0
  {
    assert loop.batch == [loop.batch[0]] + loop.batch[1..];
  }

  /** The head of a batch may leave when the call it became holds its connection, or it holds none. */
  ghost predicate MayPop(s: State, l: nat)
    requires l < |s.loops| && s.loops[l].batch != []
  {
    match s.loops[l].batch[0]
    case Established(_) => false
    case Remove(c) => s.loops[0].frame.Erased? && s.loops[0].frame.c == c
    case Destroyed(c) => s.loops[l].frame == Destroying(c) && Known(s, c) && s.conns[c].loop == l
    case User => true
  }

  lemma PopView(s: State, l: nat, c: ConnId)
    requires l < |s.loops| && s.loops[l].batch != [] && MayPop(s, l) && Known(s, c)
    ensures SameView(s, Pop(s, l), c)
  {
    CountPop(s.loops[l], Established(c));
    var f := s.loops[l].batch[0];
    assert forall g :: g in s.loops[l].batch ==> g == f || g in s.loops[l].batch[1..];
  }

  lemma PopKeeps(s: State, l: nat)
    requires Inv(s) && l < |s.loops| && s.loops[l].batch != [] && MayPop(s, l)
    ensures Inv(Pop(s, l))
  {
    var t := Pop(s, l);
    hide P.Mirror, ConnOk, FunctorOk, FrameOk, Count, SameView;
    MapCalm(s, t);
    assert Calm(s, t);
    forall c | 0 <= c < |t.conns| ensures ConnOk(t, c) {
      KnownOk(s, c);
      PopView(s, l, c);
      ConnCalm(s, t, c);
    }
    forall k | 0 <= k < |t.loops| ensures LoopOk(t, k) {
      assert LoopOk(s, k);
      FrameCalm(s, t, k);
      LoopCalm(s, t, k);
    }
  }

  // ---------------------------------------------------------------- the turn of a loop

  lemma ReadyIsEstablished(s: State, l: nat, ready: seq<ConnId>, c: ConnId)
    requires Inv(s) && l < |s.loops| && Reportable(s.loops[l].io, ready) && c in ready
    ensures Known(s, c) && s.conns[c].loop == l && s.conns[c].est && !s.conns[c].gone
  {
    assert LoopOk(s, l) && P.InStep(s.loops[l].io, c);
    assert s.loops[l].io.chan[c].index != P.NEW;
    KnownOk(s, c);
  }

  lemma PollKeeps(s: State, l: nat, ready: seq<ConnId>)
    requires Inv(s) && Enabled(s, Poll(l, ready))
    ensures Inv(Step(s, Poll(l, ready)))
  {
    var t := Step(s, Poll(l, ready));
    assert LoopOk(s, l);
    forall c | c in ready ensures Known(s, c) && s.conns[c].loop == l && s.conns[c].est && !s.conns[c].gone {
      ReadyIsEstablished(s, l, ready, c);
    }
    TurnKeeps(s, t, l);
  }

  /** A thread moves on in its own turn: phase, active list, batch and queue may change, no functor is
      lost or added, and it is inside no call before or after but possibly a dispatch. */
  lemma TurnKeeps(s: State, t: State, l: nat)
    requires Inv(s) && l < |s.loops| == |t.loops| && t == SetLoop(s, l, t.loops[l])
    requires s.loops[l].frame == Free && t.loops[l].io == s.loops[l].io
    requires forall f :: Count(t.loops[l], f) == Count(s.loops[l], f)
    requires var b := t.loops[l];
      && (b.phase == Polling ==> b.active == [] && b.batch == [] && b.frame == Free)
      && (b.phase == Handling ==> b.batch == [])
      && (b.phase == Running ==> b.active == [])
      && (forall c :: c in b.active ==> Known(s, c) && s.conns[c].loop == l && s.conns[c].est && !s.conns[c].gone)
      && (b.frame == Free || (b.frame.Dispatching? && FrameOk(t, l)))
    ensures Inv(t)
  {
    assert LoopOk(s, l);
    forall f ensures Queued(t.loops[l], f) <==> Queued(s.loops[l], f) {
      assert Queued(t.loops[l], f) <==> Count(t.loops[l], f) > 0;
      assert Queued(s.loops[l], f) <==> Count(s.loops[l], f) > 0;
    }
    assert FrameOk(t, l);
    hide P.Mirror, ConnOk, FunctorOk, FrameOk, Count;
    MapCalm(s, t);
    assert Calm(s, t);
    forall c | 0 <= c < |t.conns| ensures ConnOk(t, c) {
      KnownOk(s, c);
      ConnCalm(s, t, c);
    }
    forall f | Queued(t.loops[l], f) ensures FunctorOk(t, l, f) {
      assert Queued(s.loops[l], f);
      FunctorCalm(s, t, l, f);
    }
    assert LoopOk(t, l);
    forall k | 0 <= k < |t.loops| && k != l ensures LoopOk(t, k) {
      assert LoopOk(s, k);
      FrameCalm(s, t, k);
      LoopCalm(s, t, k);
    }
  }

  lemma DispatchKeeps(s: State, l: nat)
    requires Inv(s) && Enabled(s, Dispatch(l))
    ensures Inv(Step(s, Dispatch(l)))
  {
    assert LoopOk(s, l);
    var t := Step(s, Dispatch(l));
    assert t.loops[l].active == s.loops[l].active[1..];
    assert s.loops[l].active[0] in s.loops[l].active;
    assert FrameOk(t, l);
    TurnKeeps(s, t, l);
  }

  lemma EndHandlersKeeps(s: State, l: nat)
    requires Inv(s) && Enabled(s, EndHandlers(l))
    ensures Inv(Step(s, EndHandlers(l)))
  {
    assert LoopOk(s, l);
    TurnKeeps(s, Step(s, EndHandlers(l)), l);
  }

  lemma EndBatchKeeps(s: State, l: nat)
    requires Inv(s) && Enabled(s, EndBatch(l))
    ensures Inv(Step(s, EndBatch(l)))
  {
    assert LoopOk(s, l);
    TurnKeeps(s, Step(s, EndBatch(l)), l);
  }

  // ---------------------------------------------------------------- closing

  lemma CloseBeginKeeps(s: State, l: nat)
    requires Inv(s) && Enabled(s, CloseBegin(l))
    ensures Inv(Step(s, CloseBegin(l)))
  {
    var c := s.loops[l].frame.c;
    assert LoopOk(s, l);
    IoKeeps(s, c, P.DisableAll);
    var t := Io(s, c, P.DisableAll);
    assert FrameOk(Reframe(t, l, Closing(c)), l);
    ReframeKeeps(t, l, Closing(c));
  }

  lemma CloseEndKeeps(s: State, l: nat)
    requires Inv(s) && Enabled(s, CloseEnd(l))
    ensures Inv(Step(s, CloseEnd(l)))
  {
    var c := s.loops[l].frame.c;
    assert LoopOk(s, l);
    KnownOk(s, c);
    if l == 0 {
      EraseKeeps(s, c, true);
    } else {
      PushKeeps(s, 0, Remove(c));
      var t := Push(s, 0, Remove(c));
      assert FrameOk(Reframe(t, l, Dispatching(c)), l);
      ReframeKeeps(t, l, Dispatching(c));
    }
  }

  lemma EraseEndKeeps(s: State)
    requires Inv(s) && Enabled(s, EraseEnd)
    ensures Inv(Step(s, EraseEnd))
  {
    var f := s.loops[0].frame;
    assert LoopOk(s, 0);
    var own := s.conns[f.c].loop;
    PushKeeps(s, own, Destroyed(f.c));
    var t := Push(s, own, Destroyed(f.c));
    var next := if f.dispatching then Dispatching(f.c) else Free;
    assert FrameOk(Reframe(t, 0, next), 0);
    ReframeKeeps(t, 0, next);
  }

  lemma StartRemoveKeeps(s: State, l: nat, c: ConnId)
    requires Inv(s) && Enabled(s, RunFunctor(l)) && s.loops[l].batch[0] == Remove(c)
    ensures Inv(Step(s, RunFunctor(l)))
  {
    assert LoopOk(s, l) && FunctorOk(s, l, Remove(c));
    EraseKeeps(s, c, false);
    var t := Reframe(Erase(s, c), 0, Erased(c, false));
    PopKeeps(t, 0);
    assert Step(s, RunFunctor(l)) == Pop(t, 0);
  }

  // ---------------------------------------------------------------- destruction

  lemma DisconnectKeeps(s: State, c: ConnId)
    requires Inv(s) && Live(s, c) && s.conns[c].est
    ensures var t := Disconnect(s, c);
      && Inv(t) && Live(t, c) && t.conns[c] == s.conns[c].(status := C.Disconnected)
      && t.prefix == s.prefix && t.connections == s.connections && |t.loops| == |s.loops|
      && forall k :: 0 <= k < |s.loops| ==>
           t.loops[k].phase == s.loops[k].phase && t.loops[k].frame == s.loops[k].frame && t.loops[k].batch == s.loops[k].batch
  {
    KnownOk(s, c);
    if s.conns[c].status == C.Connected {
      StatusKeeps(s, c);
      IoKeeps(SetStatus(s, c, C.Disconnected), c, P.DisableAll);
      hide P.Apply;
      IoFacts(Own(s, c).io, c, P.DisableAll) by { assert LoopOk(s, s.conns[c].loop); }
    }
  }

  lemma BeginDestroyCommutes(s: State, l: nat, c: ConnId)
    requires l < |s.loops| && Live(s, c) && s.loops[l].batch != []
    requires Disconnect(s, c).loops[l].batch == s.loops[l].batch
    ensures BeginDestroy(Pop(s, l), l, c) == Pop(BeginDestroy(s, l, c), l)
  {
    hide P.Apply;
  }

  lemma BeginDestroyKeeps(s: State, l: nat, c: ConnId)
    requires Inv(s) && Enabled(s, RunFunctor(l)) && s.loops[l].batch[0] == Destroyed(c)
    ensures Inv(Step(s, RunFunctor(l)))
  {
    hide Inv, Disconnect, P.Apply, P.Mirror, ConnOk;
    InvLoop(s, l);
    assert FunctorOk(s, l, Destroyed(c));
    DisconnectKeeps(s, c);
    var t := Disconnect(s, c);
    assert FrameOk(Reframe(t, l, Destroying(c)), l);
    ReframeKeeps(t, l, Destroying(c));
    BeginDestroyCommutes(s, l, c);
    PopKeeps(BeginDestroy(s, l, c), l);
  }

  // ---------------------------------------------------------------- moves that change one connection

  /** `t` differs from `s` in the record of `x` and in queues, frames and pollers. */
  ghost predicate AllBut(s: State, t: State, x: ConnId) {
    && t.prefix == s.prefix && t.connections == s.connections
    && |t.loops| == |s.loops| && |t.conns| == |s.conns| && x < |s.conns| && t.conns[x].loop == s.conns[x].loop
    && (forall c {:trigger t.conns[c]} {:trigger s.conns[c]} :: 0 <= c < |s.conns| && c != x ==> t.conns[c] == s.conns[c])
  }

  lemma FunctorOther(s: State, t: State, x: ConnId, l: nat, f: Functor)
    requires AllBut(s, t, x) && FunctorOk(s, l, f)
    requires !f.User? && f.c == x ==> !f.Established? && t.conns[x].est && t.conns[x].alive
    ensures FunctorOk(t, l, f)
  {
    assert !f.User? ==> (InMap(t, f.c) <==> InMap(s, f.c));
  }

  lemma ConnOther(s: State, t: State, x: ConnId, c: ConnId)
    requires AllBut(s, t, x) && |s.loops| > 0 && c < |s.conns| && c != x && ConnOk(s, c) && SameView(s, t, c)
    ensures ConnOk(t, c)
  {
  }

  /** A loop whose queues do not shrink in legality and whose thread stays where it was. */
  lemma LoopOther(s: State, t: State, x: ConnId, l: nat)
    requires AllBut(s, t, x) && l < |s.loops| && LoopOk(s, l)
    requires t.loops[l].phase == s.loops[l].phase && t.loops[l].active == s.loops[l].active && x !in s.loops[l].active
    requires P.Mirror(t.loops[l].io) && t.loops[l].io.refused == 0
    requires forall c :: c in t.loops[l].io.chan ==> c in s.loops[l].io.chan && (c == x ==> t.conns[x].alive)
    requires FrameOk(t, l) && (t.loops[l].phase == Polling ==> t.loops[l].frame == Free)
    requires t.loops[l].pending == s.loops[l].pending && |t.loops[l].batch| <= |s.loops[l].batch|
    requires forall f :: f in t.loops[l].batch ==> f in s.loops[l].batch
    requires forall f :: Queued(t.loops[l], f) && !f.User? && f.c == x ==>
      !f.Established? && t.conns[x].est && t.conns[x].alive
    ensures LoopOk(t, l)
  {
    hide P.Mirror, FunctorOk, FrameOk;
    forall f | Queued(t.loops[l], f) ensures FunctorOk(t, l, f) {
      assert Queued(t.loops[l], f) && Queued(s.loops[l], f);
      FunctorOther(s, t, x, l, f);
    }
    forall c | c in t.loops[l].io.chan ensures Known(t, c) && t.conns[c].loop == l && t.conns[c].alive {
      assert c in s.loops[l].io.chan;
    }
  }

  lemma EndDestroyFrames(s: State, t: State, l: nat, k: nat)
    requires l < |s.loops| && k < |s.loops| && FrameOk(s, k) && s.loops[l].frame.Destroying? && FrameOk(s, l)
    requires k != l && AllBut(s, t, s.loops[l].frame.c) && t.loops[k] == s.loops[k]
    requires t.conns[s.loops[l].frame.c] == s.conns[s.loops[l].frame.c].(gone := true)
    ensures FrameOk(t, k)
  {
    assert forall d :: InMap(t, d) == InMap(s, d);
  }

  lemma EndDestroySelf(s: State, l: nat)
    requires |s.loops| > 0 && Enabled(s, EndDestroy(l)) && FrameOk(s, l) && P.Mirror(s.loops[l].io)
    requires ConnOk(s, s.loops[l].frame.c)
    ensures AllBut(s, Step(s, EndDestroy(l)), s.loops[l].frame.c)
    ensures ConnOk(Step(s, EndDestroy(l)), s.loops[l].frame.c)
  {
    hide P.Apply, P.Mirror, Count;
    var c := s.loops[l].frame.c;
    IoFacts(s.loops[l].io, c, P.Remove);
    assert InMap(Step(s, EndDestroy(l)), c) == InMap(s, c);
  }

  lemma EndDestroyConn(s: State, l: nat, d: ConnId)
    requires Inv(s) && Enabled(s, EndDestroy(l)) && d < |s.conns|
    ensures AllBut(s, Step(s, EndDestroy(l)), s.loops[l].frame.c) && ConnOk(Step(s, EndDestroy(l)), d)
  {
    var c := s.loops[l].frame.c;
    var t := Step(s, EndDestroy(l));
    hide P.Apply, P.Mirror, Inv, Count, ConnOk, FunctorOk;
    InvLoop(s, l);
    FrameKnown(s, l);
    KnownOk(s, c);
    EndDestroySelf(s, l);
    if d != c {
      KnownOk(s, d);
      EndDestroyView(s, l, d);
      hide SameView, FrameOk;
      ConnOther(s, t, c, d);
    }
  }

  lemma EndDestroyView(s: State, l: nat, d: ConnId)
    requires |s.loops| > 0 && Enabled(s, EndDestroy(l)) && FrameOk(s, l) && P.Mirror(s.loops[l].io)
    requires Known(s, d) && d != s.loops[l].frame.c
    ensures Known(Step(s, EndDestroy(l)), d) && SameView(s, Step(s, EndDestroy(l)), d)
  {
    hide P.Apply, P.Mirror, Count;
    var t := Step(s, EndDestroy(l));
    IoFacts(s.loops[l].io, s.loops[l].frame.c, P.Remove);
    CountSame(Own(s, d), Own(t, d), Established(d));
    assert InMap(t, d) == InMap(s, d);
  }

  lemma EndDestroyLoop(s: State, l: nat, k: nat)
    requires Inv(s) && Enabled(s, EndDestroy(l)) && k < |s.loops|
    requires AllBut(s, Step(s, EndDestroy(l)), s.loops[l].frame.c)
    ensures LoopOk(Step(s, EndDestroy(l)), k)
  {
    var c := s.loops[l].frame.c;
    var t := Step(s, EndDestroy(l));
    hide P.Apply, P.Mirror, Inv, FunctorOk;
    InvLoop(s, l);
    InvLoop(s, k);
    IoFacts(s.loops[l].io, c, P.Remove);
    if k != l { EndDestroyFrames(s, t, l, k); }
    hide FrameOk;
    forall f | Queued(t.loops[k], f) && !f.User? && f.c == c ensures !f.Established? {
      QueuedIsOk(s, k, f);
    }
    LoopOther(s, t, c, k);
  }

  lemma EndDestroyKeeps(s: State, l: nat)
    requires Inv(s) && Enabled(s, EndDestroy(l))
    ensures Inv(Step(s, EndDestroy(l)))
  {
    hide P.Apply, P.Mirror, ConnOk, LoopOk;
    var t := Step(s, EndDestroy(l));
    EndDestroyConn(s, l, s.loops[l].frame.c) by { InvLoop(s, l); FrameKnown(s, l); }
    forall d | 0 <= d < |t.conns| ensures ConnOk(t, d) {
      EndDestroyConn(s, l, d);
    }
    forall k | 0 <= k < |t.loops| ensures LoopOk(t, k) {
      EndDestroyLoop(s, l, k);
    }
  }

  lemma InvLoop(s: State, l: nat)
    requires Inv(s) && l < |s.loops|
    ensures LoopOk(s, l)
  {
  }

  lemma FrameKnown(s: State, l: nat)
    requires l < |s.loops| && FrameOk(s, l)
    ensures !s.loops[l].frame.Free? ==> s.loops[l].frame.c < |s.conns|
  {
  }

  lemma QueuedIsOk(s: State, l: nat, f: Functor)
    requires l < |s.loops| && LoopOk(s, l) && Queued(s.loops[l], f)
    ensures FunctorOk(s, l, f)
    ensures f.Established? ==> !s.conns[f.c].est && s.conns[f.c].loop == l
    ensures !f.User? ==> f.c < |s.conns|
    ensures f.Remove? || f.Destroyed? ==> s.conns[f.c].est
  {
  }

  lemma FrameOther(s: State, t: State, x: ConnId, l: nat)
    requires AllBut(s, t, x) && l < |s.loops| && FrameOk(s, l) && !FrameHolds(s.loops[l].frame, x)
    requires t.loops[l].frame == s.loops[l].frame && t.loops[l].phase == s.loops[l].phase
    ensures FrameOk(t, l)
  {
    assert forall d :: InMap(t, d) == InMap(s, d);
  }

  // ---------------------------------------------------------------- establishing

  /** The one `connectEstablished` of a connection: handed over by the acceptor's call or by a functor. */
  ghost predicate MayEstablish(s: State, l: nat, c: ConnId, popped: bool) {
    && l < |s.loops| && Live(s, c) && s.conns[c].loop == l && !s.conns[c].est && s.loops[l].phase != Polling
    && (popped ==> s.loops[l].frame == Free && s.loops[l].batch != [] && s.loops[l].batch[0] == Established(c))
    && (!popped ==> l == 0 && s.loops[0].frame == Accepted(c))
  }

  function Popped(s: State, l: nat, popped: bool): State
    requires l < |s.loops| && (popped ==> s.loops[l].batch != [])
  {
    if popped then Pop(s, l) else s
  }

  lemma EstablishCounts(s: State, l: nat, c: ConnId, popped: bool)
    requires Inv(s) && MayEstablish(s, l, c, popped)
    ensures !Queued(Popped(s, l, popped).loops[l], Established(c))
    ensures s.loops[0].frame == Accepted(c) <==> !popped
    ensures forall f :: f in Popped(s, l, popped).loops[l].batch ==> f in s.loops[l].batch
  {
    KnownOk(s, c);
    if popped { CountPop(s.loops[l], Established(c)); }
    assert Count(Popped(s, l, popped).loops[l], Established(c)) == 0;
  }

  lemma UnestablishedFrames(s: State, c: ConnId, k: nat)
    requires k < |s.loops| && FrameOk(s, k) && c < |s.conns| && !s.conns[c].est && FrameHolds(s.loops[k].frame, c)
    ensures k == 0 && s.loops[0].frame == Accepted(c)
  {
  }

  lemma EstablishView(s: State, l: nat, c: ConnId, popped: bool, d: ConnId)
    requires |s.loops| > 0 && MayEstablish(s, l, c, popped) && Live(Popped(s, l, popped), c) && Known(s, d) && d != c
    requires P.Mirror(s.loops[l].io)
    ensures SameView(s, Establish(Popped(s, l, popped), l, c), d)
  {
    hide P.Apply, P.Mirror, Count;
    IoFacts(s.loops[l].io, c, P.EnableReading);
    var t := Establish(Popped(s, l, popped), l, c);
    if popped {
      CountPop(s.loops[l], Established(d));
      assert forall g :: g in s.loops[l].batch ==> g == Established(c) || g in s.loops[l].batch[1..];
      CountSame(Pop(s, l).loops[l], t.loops[l], Established(d));
    } else {
      CountSame(s.loops[l], t.loops[l], Established(d));
    }
    assert InMap(t, d) == InMap(s, d);
  }

  lemma EstablishSelf(s: State, l: nat, c: ConnId, popped: bool)
    requires |s.loops| > 0 && MayEstablish(s, l, c, popped) && Live(Popped(s, l, popped), c)
    requires ConnOk(s, c) && P.Mirror(s.loops[l].io)
    ensures AllBut(s, Establish(Popped(s, l, popped), l, c), c)
    ensures ConnOk(Establish(Popped(s, l, popped), l, c), c)
  {
    hide P.Apply, P.Mirror, Count;
    IoFacts(s.loops[l].io, c, P.EnableReading);
    assert InMap(Establish(Popped(s, l, popped), l, c), c);
  }

  lemma EstablishConn(s: State, l: nat, c: ConnId, popped: bool, d: ConnId)
    requires Inv(s) && MayEstablish(s, l, c, popped) && Live(Popped(s, l, popped), c) && d < |s.conns|
    ensures AllBut(s, Establish(Popped(s, l, popped), l, c), c)
    ensures ConnOk(Establish(Popped(s, l, popped), l, c), d)
  {
    var t := Establish(Popped(s, l, popped), l, c);
    hide P.Apply, P.Mirror, Count, Inv, ConnOk, FunctorOk, FrameOk, SameView;
    KnownOk(s, c);
    KnownOk(s, d);
    InvLoop(s, l);
    EstablishSelf(s, l, c, popped);
    if d != c {
      EstablishView(s, l, c, popped, d);
      ConnOther(s, t, c, d);
    }
  }

  lemma EstablishLoop(s: State, l: nat, c: ConnId, popped: bool, k: nat)
    requires Inv(s) && MayEstablish(s, l, c, popped) && Live(Popped(s, l, popped), c) && k < |s.loops|
    requires AllBut(s, Establish(Popped(s, l, popped), l, c), c)
    ensures LoopOk(Establish(Popped(s, l, popped), l, c), k)
  {
    var t := Establish(Popped(s, l, popped), l, c);
    EstablishCounts(s, l, c, popped);
    hide P.Apply, P.Mirror, Count, Inv, FunctorOk;
    InvLoop(s, l);
    InvLoop(s, k);
    IoFacts(s.loops[l].io, c, P.EnableReading);
    if k != l {
      if FrameHolds(s.loops[k].frame, c) { UnestablishedFrames(s, c, k); }
      hide FrameOk;
      FrameOther(s, t, c, k);
    }
    forall f | Queued(t.loops[k], f) && !f.User? && f.c == c ensures !f.Established? {
      QueuedIsOk(s, k, f);
    }
    LoopOther(s, t, c, k);
  }

  lemma EstablishKeeps(s: State, l: nat, c: ConnId, popped: bool)
    requires Inv(s) && MayEstablish(s, l, c, popped)
    ensures Live(Popped(s, l, popped), c) && Inv(Establish(Popped(s, l, popped), l, c))
  {
    hide P.Apply, P.Mirror, ConnOk, LoopOk, Count;
    var t := Establish(Popped(s, l, popped), l, c);
    EstablishConn(s, l, c, popped, c);
    forall d | 0 <= d < |t.conns| ensures ConnOk(t, d) {
      EstablishConn(s, l, c, popped, d);
    }
    forall k | 0 <= k < |t.loops| ensures LoopOk(t, k) {
      EstablishLoop(s, l, c, popped, k);
    }
  }

  lemma HandOffKeeps(s: State)
    requires Inv(s) && Enabled(s, HandOff)
    ensures Inv(Step(s, HandOff))
  {
    var c := s.loops[0].frame.c;
    assert LoopOk(s, 0);
    if s.conns[c].loop == 0 {
      EstablishKeeps(s, 0, c, false);
    } else {
      QueueEstablishKeeps(s, c);
    }
  }

  lemma QueueEstablishConn(s: State, c: ConnId, d: ConnId)
    requires Inv(s) && Enabled(s, HandOff) && s.loops[0].frame == Accepted(c) && s.conns[c].loop != 0
    requires d < |s.conns| && Calm(s, Step(s, HandOff))
    ensures ConnOk(Step(s, HandOff), d)
  {
    hide Inv, Count, FreshFd, Held, Calm, P.Apply;
    var own := s.conns[c].loop;
    var t := Step(s, HandOff);
    assert t.loops == s.loops[own := t.loops[own]][0 := s.loops[0].(frame := Free)];
    KnownOk(s, d);
    CountPush(s.loops[own], Established(c), Established(d));
    CountSame(s.loops[0], t.loops[0], Established(d));
    assert InMap(t, d) == InMap(s, d);
    if d != c {
      hide ConnOk;
      ConnCalm(s, t, d);
    }
  }

  /** The acceptor's call gives its only claim on the connection to a functor of the I/O loop. */
  lemma QueueEstablishKeeps(s: State, c: ConnId)
    requires Inv(s) && Enabled(s, HandOff) && s.loops[0].frame == Accepted(c) && s.conns[c].loop != 0
    ensures Inv(Step(s, HandOff))
  {
    var own := s.conns[c].loop;
    var t := Step(s, HandOff);
    hide P.Mirror, ConnOk, Count;
    assert LoopOk(s, 0) && FrameOk(t, 0) && FunctorOk(t, own, Established(c));
    hide FunctorOk, FrameOk;
    MapCalm(s, t);
    assert Calm(s, t);
    forall d | 0 <= d < |t.conns| ensures ConnOk(t, d) {
      QueueEstablishConn(s, c, d);
    }
    forall k | 0 <= k < |t.loops| ensures LoopOk(t, k) {
      assert LoopOk(s, k);
      if k != 0 { FrameCalm(s, t, k); }
      LoopCalm(s, t, k);
    }
  }

  // ---------------------------------------------------------------- acceptance

  lemma AcceptSparesOthers(s: State, fd: int, own: nat, c: ConnId)
    requires Inv(s) && Enabled(s, Accept(fd, own))
    ensures InMap(Step(s, Accept(fd, own)), c) <==> c == |s.conns| || InMap(s, c)
    ensures MapOk(Step(s, Accept(fd, own)))
  {
    if c != |s.conns| { NamesDiffer(s, c, |s.conns|); }
    var t := Step(s, Accept(fd, own));
    forall n | n in t.connections ensures t.connections[n] < |t.conns| && n == Name(t, t.connections[n]) {
    }
  }

  lemma NobodyKnowsTheNext(s: State, l: nat)
    requires l < |s.loops| && LoopOk(s, l)
    ensures |s.conns| !in s.loops[l].io.chan && Count(s.loops[l], Established(|s.conns|)) == 0
  {
    assert !FunctorOk(s, l, Established(|s.conns|));
    assert !Queued(s.loops[l], Established(|s.conns|));
  }

  lemma AcceptConn(s: State, fd: int, own: nat, d: ConnId)
    requires Inv(s) && Enabled(s, Accept(fd, own)) && d <= |s.conns| && Calm(s, Step(s, Accept(fd, own)))
    ensures ConnOk(Step(s, Accept(fd, own)), d)
  {
    var t := Step(s, Accept(fd, own));
    AcceptSparesOthers(s, fd, own, d);
    hide Inv, P.Mirror, Count, Name;
    InvLoop(s, own);
    NobodyKnowsTheNext(s, own);
    if d == |s.conns| {
      CountSame(s.loops[own], t.loops[own], Established(d));
    } else {
      KnownOk(s, d);
      CountSame(Own(s, d), Own(t, d), Established(d));
      hide ConnOk;
      ConnCalm(s, t, d);
    }
  }

  lemma AcceptPoller(s: State, fd: int, own: nat, k: nat)
    requires Inv(s) && Enabled(s, Accept(fd, own)) && k < |s.loops|
    ensures var t := Step(s, Accept(fd, own)); var io := t.loops[k].io;
      && P.Mirror(io) && io.refused == 0
      && (forall c :: c in io.chan ==> Known(t, c) && t.conns[c].loop == k && t.conns[c].alive)
  {
    hide Inv, Name, P.Mirror, FunctorOk, FrameOk;
    InvLoop(s, k);
    if k == own {
      NobodyKnowsTheNext(s, own);
      P.FreshChannelKeepsMirror(s.loops[own].io, |s.conns|, fd);
    }
  }

  lemma AcceptLoop(s: State, fd: int, own: nat, k: nat)
    requires Inv(s) && Enabled(s, Accept(fd, own)) && k < |s.loops| && Calm(s, Step(s, Accept(fd, own)))
    ensures LoopOk(Step(s, Accept(fd, own)), k)
  {
    var t := Step(s, Accept(fd, own));
    AcceptPoller(s, fd, own, k);
    hide Inv, Name, P.Mirror, FunctorOk;
    InvLoop(s, k);
    if k != 0 { FrameCalm(s, t, k); }
    hide FrameOk;
    forall f | Queued(s.loops[k], f) ensures FunctorOk(t, k, f) { FunctorCalm(s, t, k, f); }
  }

  lemma AcceptKeeps(s: State, fd: int, own: nat)
    requires Inv(s) && Enabled(s, Accept(fd, own))
    ensures Inv(Step(s, Accept(fd, own)))
  {
    hide P.Mirror, ConnOk, LoopOk, Name;
    var t := Step(s, Accept(fd, own));
    forall c ensures InMap(t, c) <==> c == |s.conns| || InMap(s, c) {
      AcceptSparesOthers(s, fd, own, c);
    }
    AcceptSparesOthers(s, fd, own, 0);
    assert Calm(s, t);
    forall d | 0 <= d < |t.conns| ensures ConnOk(t, d) {
      AcceptConn(s, fd, own, d);
    }
    forall k | 0 <= k < |t.loops| ensures LoopOk(t, k) {
      AcceptLoop(s, fd, own, k);
    }
  }

  // ---------------------------------------------------------------- the end of the object

  /** Nothing in the library still points at an object that nobody holds: it has been destroyed. */
  lemma UnheldIsGone(s: State, c: ConnId)
    requires Inv(s) && c < |s.conns| && !Held(s, c)
    ensures s.conns[c].gone
  {
    KnownOk(s, c);
    var own := s.conns[c].loop;
    assert !HeldBy(s.loops[own], c) && !HeldBy(s.loops[0], c);
  }

  lemma FreeConn(s: State, c: ConnId, d: ConnId)
    requires Inv(s) && Enabled(s, FreeObject(c)) && d < |s.conns|
    ensures AllBut(s, Step(s, FreeObject(c)), c) && ConnOk(Step(s, FreeObject(c)), d)
  {
    var t := Step(s, FreeObject(c));
    UnheldIsGone(s, c);
    hide Inv, P.Mirror, Count;
    KnownOk(s, d);
    CountSame(Own(s, d), Own(t, d), Established(d));
    assert InMap(t, d) == InMap(s, d);
    if d != c {
      hide ConnOk;
      ConnOther(s, t, c, d);
    }
  }

  lemma FreeLoop(s: State, c: ConnId, k: nat)
    requires Inv(s) && Enabled(s, FreeObject(c)) && k < |s.loops| && AllBut(s, Step(s, FreeObject(c)), c)
    ensures LoopOk(Step(s, FreeObject(c)), k)
  {
    var t := Step(s, FreeObject(c));
    UnheldIsGone(s, c);
    KnownOk(s, c);
    hide Inv, ConnOk, FunctorOk, P.Mirror;
    InvLoop(s, k);
    assert !HeldBy(s.loops[k], c);
    if k == s.conns[c].loop {
      P.NewChannelMayLeave(s.loops[k].io, c);
    } else {
      assert c !in s.loops[k].io.chan;
    }
    FrameOther(s, t, c, k);
    LoopOther(s, t, c, k);
  }

  lemma FreeKeeps(s: State, c: ConnId)
    requires Inv(s) && Enabled(s, FreeObject(c))
    ensures Inv(Step(s, FreeObject(c)))
  {
    hide P.Mirror, ConnOk, LoopOk;
    var t := Step(s, FreeObject(c));
    FreeConn(s, c, c);
    forall d | 0 <= d < |t.conns| ensures ConnOk(t, d) {
      FreeConn(s, c, d);
    }
    forall k | 0 <= k < |t.loops| ensures LoopOk(t, k) {
      FreeLoop(s, c, k);
    }
  }

  // ---------------------------------------------------------------- every step, every run

  lemma RunFunctorKeeps(s: State, l: nat)
    requires Inv(s) && Enabled(s, RunFunctor(l))
    ensures Inv(Step(s, RunFunctor(l)))
  {
    var f := s.loops[l].batch[0];
    assert LoopOk(s, l) && FunctorOk(s, l, f);
    match f
    case Established(c) => EstablishKeeps(s, l, c, true);
    case Remove(c) => StartRemoveKeeps(s, l, c);
    case Destroyed(c) => BeginDestroyKeeps(s, l, c);
    case User => PopKeeps(s, l);
  }

  lemma EndCallKeeps(s: State, l: nat)
    requires Inv(s) && l < |s.loops| && (s.loops[l].frame.Establishing? || s.loops[l].frame.Dispatching?)
    ensures Inv(Reframe(s, l, Free))
  {
    assert FrameOk(Reframe(s, l, Free), l);
    ReframeKeeps(s, l, Free);
  }

  lemma DrainedKeeps(s: State, l: nat)
    requires Inv(s) && Enabled(s, Drained(l))
    ensures Inv(Step(s, Drained(l)))
  {
    assert LoopOk(s, l);
    IoKeeps(s, s.loops[l].frame.c, P.DisableWriting);
  }

  lemma ConnectedIsEstablished(s: State, c: ConnId)
    requires Inv(s) && Live(s, c) && s.conns[c].status == C.Connected
    ensures s.conns[c].est && !s.conns[c].gone
  {
    KnownOk(s, c);
  }

  lemma StepKeeps(s: State, a: Action)
    requires Inv(s) && Enabled(s, a)
    ensures Inv(Step(s, a))
  {
    hide Inv, P.Apply, P.Mirror, Establish, BeginDestroy;
    match a
    case Accept(fd, own) => AcceptKeeps(s, fd, own);
    case HandOff => HandOffKeeps(s);
    case EndEstablish(l) => EndCallKeeps(s, l);
    case Poll(l, ready) => PollKeeps(s, l, ready);
    case Dispatch(l) => DispatchKeeps(s, l);
    case Drained(l) => DrainedKeeps(s, l);
    case CloseBegin(l) => CloseBeginKeeps(s, l);
    case CloseEnd(l) => CloseEndKeeps(s, l);
    case EraseEnd => EraseEndKeeps(s);
    case EndDispatch(l) => EndCallKeeps(s, l);
    case EndHandlers(l) => EndHandlersKeeps(s, l);
    case RunFunctor(l) => RunFunctorKeeps(s, l);
    case EndDestroy(l) => EndDestroyKeeps(s, l);
    case EndBatch(l) => EndBatchKeeps(s, l);
    case UserSend(c) =>
      if s.conns[c].status == C.Connected {
        ConnectedIsEstablished(s, c);
        IoKeeps(s, c, P.EnableWriting);
      }
    case ShutDown(c) =>
      if s.conns[c].status == C.Connected {
        ConnectedIsEstablished(s, c);
        StatusKeeps(s, c);
      }
    case UserTask(l) => PushKeeps(s, l, User);
    case FreeObject(c) => FreeKeeps(s, c);
  }

  ghost predicate Run(s: State, acts: seq<Action>, d: State)
    decreases |acts|
  {
    if acts == [] then s == d else Enabled(s, acts[0]) && Run(Step(s, acts[0]), acts[1..], d)
  }

  lemma {:induction false} RunKeeps(s: State, acts: seq<Action>, d: State)
    requires Inv(s) && Run(s, acts, d)
    ensures Inv(d)
    decreases |acts|
  {
    hide Inv, Step;
    if acts != [] {
      StepKeeps(s, acts[0]);
      RunKeeps(Step(s, acts[0]), acts[1..], d);
    }
  }

  // ---------------------------------------------------------------- what every reachable state satisfies

  /**
   Ownership: whatever a poller's table or the kernel's interest set of any loop names is a connection
   that the server's map, a queued or running functor, or a call in progress owns, so it is alive.
   */
  lemma ListedMeansHeld(prefix: string, n: nat, acts: seq<Action>, d: State, l: nat, fd: int)
    requires Run(Start(prefix, n), acts, d) && l < |d.loops|
    ensures fd in d.loops[l].io.table ==> Owned(d, d.loops[l].io.table[fd])
    ensures fd in d.loops[l].io.kernel ==> Owned(d, d.loops[l].io.kernel[fd].channel)
  {
    StartIsOk(prefix, n);
    RunKeeps(Start(prefix, n), acts, d);
    var io := d.loops[l].io;
    assert LoopOk(d, l);
    if fd in io.table { RegisteredIsOwned(d, l, io.table[fd]); }
    if fd in io.kernel { RegisteredIsOwned(d, l, io.kernel[fd].channel); }
  }

  ghost predicate Owned(s: State, c: ConnId) {
    Known(s, c) && s.conns[c].alive && s.conns[c].est && !s.conns[c].gone && Held(s, c)
  }

  lemma ActiveIsOwned(s: State, c: ConnId)
    requires Inv(s) && Known(s, c) && s.conns[c].est && !s.conns[c].gone
    ensures Owned(s, c)
  {
    KnownOk(s, c);
    if !InMap(s, c) {
      assert HeldBy(s.loops[0], c) || HeldBy(s.loops[s.conns[c].loop], c);
    }
  }

  lemma RegisteredIsOwned(s: State, l: nat, c: ConnId)
    requires Inv(s) && l < |s.loops| && c in s.loops[l].io.chan
    requires P.HasChannel(s.loops[l].io, c) || s.loops[l].io.chan[c].fd in s.loops[l].io.kernel
    ensures Owned(s, c)
  {
    assert LoopOk(s, l) && P.InStep(s.loops[l].io, c);
    KnownOk(s, c);
    ActiveIsOwned(s, c);
  }

  /**
   Dispatch safety, with any number of I/O loops or none: every channel still to be dispatched, or being
   dispatched, belongs to this loop, is established, not destroyed, owned and alive.
   */
  lemma DispatchIsSafe(prefix: string, n: nat, acts: seq<Action>, d: State, l: nat, c: ConnId)
    requires Run(Start(prefix, n), acts, d) && l < |d.loops|
    requires c in d.loops[l].active || d.loops[l].frame == Dispatching(c) || d.loops[l].frame == Closing(c)
    ensures Owned(d, c) && d.conns[c].loop == l && Live(d, c)
  {
    StartIsOk(prefix, n);
    RunKeeps(Start(prefix, n), acts, d);
    assert LoopOk(d, l);
    ActiveIsOwned(d, c);
    KnownOk(d, c);
  }

  /** `connectDestroyed` runs only in the functor phase of the connection's own loop, after its
      `connectEstablished`, when the map has let go of it and nothing of that loop is being dispatched. */
  lemma DestroyOnlyInFunctorPhase(prefix: string, n: nat, acts: seq<Action>, d: State, l: nat, c: ConnId)
    requires Run(Start(prefix, n), acts, d) && l < |d.loops|
    ensures Queued(d.loops[l], Destroyed(c)) || d.loops[l].frame == Destroying(c) ==>
      Known(d, c) && d.conns[c].loop == l && d.conns[c].est && !InMap(d, c)
    ensures d.loops[l].frame == Destroying(c) ==> d.loops[l].phase == Running && d.loops[l].active == []
  {
    StartIsOk(prefix, n);
    RunKeeps(Start(prefix, n), acts, d);
    assert LoopOk(d, l);
    if Queued(d.loops[l], Destroyed(c)) { QueuedIsOk(d, l, Destroyed(c)); }
  }

  /** The guards about liveness in the step system never bite: no functor or call refers to a freed
      object, and no `epoll_ctl` of any loop is ever refused. */
  lemma NothingRefersToTheFreed(prefix: string, n: nat, acts: seq<Action>, d: State, l: nat)
    requires Run(Start(prefix, n), acts, d) && l < |d.loops|
    ensures forall f :: Queued(d.loops[l], f) && !f.User? ==> Live(d, f.c)
    ensures !d.loops[l].frame.Free? ==> Live(d, d.loops[l].frame.c)
    ensures d.loops[l].io.refused == 0 && P.Mirror(d.loops[l].io)
  {
    StartIsOk(prefix, n);
    RunKeeps(Start(prefix, n), acts, d);
    assert LoopOk(d, l);
    forall f | Queued(d.loops[l], f) && !f.User? ensures Live(d, f.c) {
      QueuedIsOk(d, l, f);
      KnownOk(d, f.c);
    }
    if !d.loops[l].frame.Free? {
      FrameKnown(d, l);
      KnownOk(d, d.loops[l].frame.c);
    }
  }

  lemma StepKeepsGone(s: State, a: Action, c: ConnId)
    requires Inv(s) && Enabled(s, a) && c < |s.conns| && s.conns[c].gone
    ensures c < |Step(s, a).conns| && Step(s, a).conns[c].gone
  {
    hide P.Apply, P.Mirror, Inv, Name, FreshFd, Held;
  }

  /**
   Destruction is final: once `connectDestroyed` has run, then in every later state the connection is
   disconnected and out of the map, and its channel is NEW and in neither table nor kernel set, whatever
   further closes, sends, shutdowns or repeated destructions were already on their way.
   */
  lemma {:induction false} DestroyedForGood(s: State, acts: seq<Action>, d: State, c: ConnId)
    requires Inv(s) && c < |s.conns| && s.conns[c].gone && Run(s, acts, d)
    ensures Known(d, c) && d.conns[c].gone && d.conns[c].status == C.Disconnected && !InMap(d, c)
    ensures Live(d, c) ==>
      && Own(d, c).io.chan[c].index == P.NEW && !P.HasChannel(Own(d, c).io, c)
      && Own(d, c).io.chan[c].fd !in Own(d, c).io.kernel
    decreases |acts|
  {
    if acts == [] {
      KnownOk(s, c);
      InvLoop(s, s.conns[c].loop);
      if Live(s, c) { assert P.InStep(Own(s, c).io, c); }
    } else {
      hide Inv, Step;
      StepKeeps(s, acts[0]);
      StepKeepsGone(s, acts[0], c);
      DestroyedForGood(Step(s, acts[0]), acts[1..], d, c);
    }
  }

  // ---------------------------------------------------------------- what the steps do to a channel

  /** The mask of a connection's channel, and whether its own kernel set has just that. */
  ghost predicate Wants(s: State, c: ConnId, events: P.Events) {
    && Live(s, c) && Own(s, c).io.chan[c].events == events
    && (events != {} ==>
         var io := Own(s, c).io; io.chan[c].fd in io.kernel && io.kernel[io.chan[c].fd] == P.Interest(c, events))
  }

  lemma IoWants(s: State, c: ConnId, op: P.ChannelOp)
    requires Live(s, c) && P.Mirror(Own(s, c).io) && op != P.Remove
    ensures Wants(Io(s, c, op), c, P.NewEvents(Own(s, c).io.chan[c].events, op))
  {
    var io := Own(s, c).io;
    hide P.Mirror, P.Apply;
    P.ApplyLeaves(io, c, op);
    if P.NewEvents(io.chan[c].events, op) != {} { P.KernelWatchesNewMask(io, c, op); }
  }

  /** An established connection is connected and watched for input and urgent data on its own loop. */
  lemma EstablishListens(s: State, l: nat, c: ConnId)
    requires l < |s.loops| && Live(s, c) && P.Mirror(Own(s, c).io)
    ensures var t := Establish(s, l, c);
      && t.conns[c].status == C.Connected && t.conns[c].est && t.loops[l].frame == Establishing(c)
      && Wants(t, c, Own(s, c).io.chan[c].events + {P.IN, P.PRI})
  {
    hide P.Mirror, P.Apply;
    var r := SetRec(s, c, s.conns[c].(status := C.Connected, est := true));
    IoWants(r, c, P.EnableReading);
    NewMask(Own(s, c).io.chan[c].events, P.EnableReading, Own(s, c).io.chan[c].events + {P.IN, P.PRI});
  }

  lemma NewMask(events: P.Events, op: P.ChannelOp, wanted: P.Events)
    requires forall f :: f in wanted <==> match op
      case EnableReading => f in events || f == P.IN || f == P.PRI
      case DisableReading => f in events && f != P.IN && f != P.PRI
      case EnableWriting => f in events || f == P.OUT
      case DisableWriting => f in events && f != P.OUT
      case DisableAll => false
      case Remove => f in events
    ensures P.NewEvents(events, op) == wanted
  {
    forall f ensures f in P.NewEvents(events, op) <==> f in wanted {
      P.OperationsByFlag(events, op, f);
    }
  }

  /** A close turns every event off before its callbacks, and so does a destruction that finds the connection
      connected; sends and drains turn the wish to write on and off; a shutdown disconnects. */
  lemma StepChangesMask(s: State, a: Action)
    requires Inv(s) && Enabled(s, a)
    ensures match a
      case CloseBegin(l) => Wants(Step(s, a), s.loops[l].frame.c, {})
      case Drained(l) =>
        var c := s.loops[l].frame.c; Wants(Step(s, a), c, Own(s, c).io.chan[c].events - {P.OUT})
      case UserSend(c) =>
        s.conns[c].status == C.Connected ==> Wants(Step(s, a), c, Own(s, c).io.chan[c].events + {P.OUT})
      case ShutDown(c) => s.conns[c].status == C.Connected ==> Step(s, a).conns[c].status == C.Disconnected
      case _ => true
  {
    hide P.Mirror, P.Apply, Inv, Held, FreshFd, Name;
    match a
    case CloseBegin(l) =>
      var c := s.loops[l].frame.c;
      OwnMirror(s, c);
      IoWants(s, c, P.DisableAll);
      NewMask(Own(s, c).io.chan[c].events, P.DisableAll, {});
    case Drained(l) =>
      var c := s.loops[l].frame.c;
      OwnMirror(s, c);
      IoWants(s, c, P.DisableWriting);
      NewMask(Own(s, c).io.chan[c].events, P.DisableWriting, Own(s, c).io.chan[c].events - {P.OUT});
    case UserSend(c) =>
      OwnMirror(s, c);
      IoWants(s, c, P.EnableWriting);
      NewMask(Own(s, c).io.chan[c].events, P.EnableWriting, Own(s, c).io.chan[c].events + {P.OUT});
    case _ =>
  }

  lemma OwnMirror(s: State, c: ConnId)
    requires Inv(s) && Live(s, c)
    ensures P.Mirror(Own(s, c).io)
  {
    InvLoop(s, s.conns[c].loop);
  }

  lemma DisconnectStops(s: State, l: nat, c: ConnId)
    requires l < |s.loops| && Live(s, c) && P.Mirror(Own(s, c).io) && s.conns[c].status == C.Connected
    ensures var t := BeginDestroy(s, l, c);
      t.conns[c].status == C.Disconnected && t.loops[l].frame == Destroying(c) && Wants(t, c, {})
  {
    hide P.Mirror, P.Apply;
    IoWants(SetStatus(s, c, C.Disconnected), c, P.DisableAll);
    NewMask(Own(s, c).io.chan[c].events, P.DisableAll, {});
  }

  // ---------------------------------------------------------------- for the server object

  lemma {:induction false} RunSnoc(s: State, acts: seq<Action>, d: State, a: Action)
    requires Run(s, acts, d) && Enabled(d, a)
    ensures Run(s, acts + [a], Step(d, a))
    decreases |acts|
  {
    hide Step, Enabled;
    if acts == [] {
      assert (acts + [a])[1..] == [];
    } else {
      assert (acts + [a])[1..] == acts[1..] + [a];
      RunSnoc(Step(s, acts[0]), acts[1..], d, a);
    }
  }

  lemma ReachedIsOk(prefix: string, n: nat, acts: seq<Action>, d: State)
    requires Run(Start(prefix, n), acts, d)
    ensures Inv(d)
  {
    StartIsOk(prefix, n);
    RunKeeps(Start(prefix, n), acts, d);
  }

  lemma NewNameIsUnused(s: State)
    requires Inv(s)
    ensures Name(s, |s.conns|) !in s.connections
  {
    if Name(s, |s.conns|) in s.connections {
      NamesDiffer(s, |s.conns|, s.connections[Name(s, |s.conns|)]);
    }
  }

  lemma FrameIsKnown(s: State, l: nat)
    requires Inv(s) && l < |s.loops| && !s.loops[l].frame.Free?
    ensures Known(s, s.loops[l].frame.c)
    ensures s.loops[l].frame.Closing? && l == 0 ==> s.conns[s.loops[l].frame.c].loop == 0
  {
    assert LoopOk(s, l);
  }

  /** What `Accept` leaves for the hand-off, and whom it adds to the map. */
  lemma AcceptOpens(s: State, fd: int, own: nat)
    requires Inv(s) && Enabled(s, Accept(fd, own))
    ensures Enabled(Step(s, Accept(fd, own)), HandOff)
    ensures forall c :: InMap(Step(s, Accept(fd, own)), c) <==> c == |s.conns| || InMap(s, c)
  {
    forall c ensures InMap(Step(s, Accept(fd, own)), c) <==> c == |s.conns| || InMap(s, c) {
      AcceptSparesOthers(s, fd, own, c);
    }
  }

  lemma HandOffKeepsTheMap(s: State)
    requires Enabled(s, HandOff)
    ensures forall c :: InMap(Step(s, HandOff), c) <==> InMap(s, c)
    ensures |Step(s, HandOff).conns| == |s.conns| && Step(s, HandOff).connections == s.connections
  {
    hide P.Apply;
  }
}
