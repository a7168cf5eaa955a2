/**
 Progress of the life cycle: a removal that has been set in motion completes. From every reachable state
 the loops' own steps, with no help from users, new connections or events, run every queued functor.
 */
module LifecycleProgress {
  import P = PollerSpec
  import C = ConnectionSpec
  import opened Lifecycle
  import S = LifecycleSafety

  /** What a loop's thread does by itself; a poll may return without any event. */
  predicate LoopStep(a: Action) {
    match a
    case Accept(_, _) => false
    case Poll(_, ready) => ready == []
    case Drained(_) => false
    case CloseBegin(_) => false
    case UserSend(_) => false
    case ShutDown(_) => false
    case UserTask(_) => false
    case FreeObject(_) => false
    case _ => true
  }

  ghost predicate Unaided(s: State, acts: seq<Action>, d: State) {
    S.Run(s, acts, d) && forall i :: 0 <= i < |acts| ==> LoopStep(acts[i])
  }

  lemma UnaidedOne(s: State, a: Action)
    requires Enabled(s, a) && LoopStep(a)
    ensures Unaided(s, [a], Step(s, a))
  {
    hide Enabled, Step;
    assert [a][1..] == [] && S.Run(Step(s, a), [], Step(s, a));
  }

  lemma {:induction false} UnaidedConcat(s: State, xs: seq<Action>, d: State, ys: seq<Action>, e: State)
    requires Unaided(s, xs, d) && Unaided(d, ys, e)
    ensures Unaided(s, xs + ys, e)
    decreases |xs|
  {
    hide Enabled, Step;
    if xs == [] {
      assert xs + ys == ys;
    } else {
      assert (xs + ys)[1..] == xs[1..] + ys;
      UnaidedConcat(Step(s, xs[0]), xs[1..], d, ys, e);
    }
  }

  // ---------------------------------------------------------------- what steps keep

  predicate IsGone(s: State, c: ConnId) { c < |s.conns| && s.conns[c].gone }

  /** Nothing but its own loop is needed any more to destroy the connection. */
  predicate Doomed(s: State, c: ConnId) {
    Known(s, c) && (s.conns[c].gone || Queued(Own(s, c), Destroyed(c)) || Own(s, c).frame == Destroying(c))
  }

  /** The loops are the same, and every connection stays on its own. */
  ghost predicate SameCast(s: State, t: State) {
    && |t.loops| == |s.loops| && |t.conns| >= |s.conns|
    && (forall c :: 0 <= c < |s.conns| ==> t.conns[c].loop == s.conns[c].loop)
  }

  /** What one step of any thread does to the queues and the frame of loop `k`, by whose step it is. */
  ghost predicate QueuesMove(a: Loop, b: Loop, act: Action, k: nat) {
    if act == RunFunctor(k) then a.batch != [] && b.batch == a.batch[1..] && a.pending <= b.pending
    else if act == EndHandlers(k) then a.pending <= b.batch
    else b.batch == a.batch && a.pending <= b.pending
  }

  ghost predicate SameQueues(s: State, t: State) {
    && |t.loops| == |s.loops|
    && (forall k :: 0 <= k < |s.loops| ==>
          && t.loops[k].pending == s.loops[k].pending && t.loops[k].batch == s.loops[k].batch
          && t.loops[k].phase == s.loops[k].phase && t.loops[k].active == s.loops[k].active)
  }

  lemma IoMoves(s: State, c: ConnId, op: P.ChannelOp)
    requires Live(s, c)
    ensures SameQueues(s, Io(s, c, op)) && Io(s, c, op).conns == s.conns
    ensures forall k :: 0 <= k < |s.loops| ==> Io(s, c, op).loops[k].frame == s.loops[k].frame
  {
    hide P.Apply;
  }

  lemma StepKeepsCast(s: State, a: Action)
    requires Enabled(s, a)
    ensures SameCast(s, Step(s, a))
  {
    hide Io, Held, FreshFd, Name, Reportable;
    match a
    case HandOff =>
      var c := s.loops[0].frame.c;
      if s.conns[c].loop == 0 { EstablishKeepsCast(s, 0, c); }
    case Drained(l) => IoMoves(s, s.loops[l].frame.c, P.DisableWriting);
    case CloseBegin(l) => IoMoves(s, s.loops[l].frame.c, P.DisableAll);
    case RunFunctor(l) => RunFunctorKeepsCast(s, l);
    case EndDestroy(l) => IoMoves(s, s.loops[l].frame.c, P.Remove);
    case UserSend(c) => IoMoves(s, c, P.EnableWriting);
    case _ =>
  }

  lemma EstablishKeepsCast(s: State, l: nat, c: ConnId)
    requires l < |s.loops| && Live(s, c)
    ensures SameCast(s, Establish(s, l, c))
  {
    hide Io;
    IoMoves(SetRec(s, c, s.conns[c].(status := C.Connected, est := true)), c, P.EnableReading);
  }

  lemma RunFunctorKeepsCast(s: State, l: nat)
    requires Enabled(s, RunFunctor(l))
    ensures SameCast(s, Step(s, RunFunctor(l)))
  {
    hide Io, Establish, Name;
    var f, popped := s.loops[l].batch[0], Pop(s, l);
    match f
    case Established(c) => EstablishKeepsCast(popped, l, c);
    case Destroyed(c) =>
      if s.conns[c].status == C.Connected { IoMoves(SetStatus(popped, c, C.Disconnected), c, P.DisableAll); }
    case _ =>
  }

  lemma EstablishMoves(s: State, l: nat, c: ConnId)
    requires l < |s.loops| && Live(s, c)
    ensures SameQueues(s, Establish(s, l, c)) && Establish(s, l, c).loops[l].frame == Establishing(c)
    ensures forall k :: 0 <= k < |s.loops| && k != l ==> Establish(s, l, c).loops[k].frame == s.loops[k].frame
  {
    hide Io;
    var r := SetRec(s, c, s.conns[c].(status := C.Connected, est := true));
    IoMoves(r, c, P.EnableReading);
  }

  lemma BeginDestroyMoves(s: State, l: nat, c: ConnId)
    requires l < |s.loops| && Live(s, c)
    ensures SameQueues(s, BeginDestroy(s, l, c)) && BeginDestroy(s, l, c).loops[l].frame == Destroying(c)
    ensures forall k :: 0 <= k < |s.loops| && k != l ==> BeginDestroy(s, l, c).loops[k].frame == s.loops[k].frame
  {
    hide Io;
    if s.conns[c].status == C.Connected { IoMoves(SetStatus(s, c, C.Disconnected), c, P.DisableAll); }
  }

  lemma RunFunctorMoves(s: State, l: nat, k: nat)
    requires Enabled(s, RunFunctor(l)) && k < |s.loops|
    ensures k < |Step(s, RunFunctor(l)).loops| && QueuesMove(s.loops[k], Step(s, RunFunctor(l)).loops[k], RunFunctor(l), k)
    ensures k != l ==> Step(s, RunFunctor(l)).loops[k].frame == s.loops[k].frame
    ensures k == l && s.loops[l].batch[0].Remove? ==>
      Step(s, RunFunctor(l)).loops[k].frame == Erased(s.loops[l].batch[0].c, false)
    ensures k == l && s.loops[l].batch[0].Destroyed? ==>
      Step(s, RunFunctor(l)).loops[k].frame == Destroying(s.loops[l].batch[0].c)
  {
    hide Establish, BeginDestroy, Name;
    var f, popped := s.loops[l].batch[0], Pop(s, l);
    match f
    case Established(c) => EstablishMoves(popped, l, c);
    case Remove(c) =>
    case Destroyed(c) => BeginDestroyMoves(popped, l, c);
    case User =>
  }

  lemma HandOffMoves(s: State, k: nat)
    requires Enabled(s, HandOff) && k < |s.loops|
    ensures k < |Step(s, HandOff).loops| && QueuesMove(s.loops[k], Step(s, HandOff).loops[k], HandOff, k)
    ensures k != 0 ==> Step(s, HandOff).loops[k].frame == s.loops[k].frame
  {
    hide Establish;
    var c := s.loops[0].frame.c;
    if s.conns[c].loop == 0 { EstablishMoves(s, 0, c); }
  }

  lemma EndDestroyMoves(s: State, l: nat, k: nat)
    requires Enabled(s, EndDestroy(l)) && k < |s.loops|
    ensures k < |Step(s, EndDestroy(l)).loops| && QueuesMove(s.loops[k], Step(s, EndDestroy(l)).loops[k], EndDestroy(l), k)
    ensures k != l ==> Step(s, EndDestroy(l)).loops[k].frame == s.loops[k].frame
    ensures IsGone(Step(s, EndDestroy(l)), s.loops[l].frame.c)
  {
    hide Io;
    IoMoves(s, s.loops[l].frame.c, P.Remove);
  }

  /** A call that ends in a removal is on the stack until its own next step. */
  predicate Removing(frame: Frame) { frame.Closing? || frame.Erased? || frame.Destroying? }

  /** The steps of users, the kernel and the acceptor leave queues and removals alone. */
  lemma OutsideMoves(s: State, a: Action, k: nat)
    requires Enabled(s, a) && !LoopStep(a) && k < |s.loops|
    ensures k < |Step(s, a).loops| && QueuesMove(s.loops[k], Step(s, a).loops[k], a, k)
    ensures Removing(s.loops[k].frame) ==> Step(s, a).loops[k].frame == s.loops[k].frame
  {
    hide Io, Held, FreshFd, Name, Reportable;
    match a
    case Drained(l) => IoMoves(s, s.loops[l].frame.c, P.DisableWriting);
    case CloseBegin(l) => IoMoves(s, s.loops[l].frame.c, P.DisableAll);
    case UserSend(c) => IoMoves(s, c, P.EnableWriting);
    case _ =>
  }

  lemma StepMovesQueues(s: State, a: Action, k: nat)
    requires Enabled(s, a) && k < |s.loops|
    ensures k < |Step(s, a).loops| && QueuesMove(s.loops[k], Step(s, a).loops[k], a, k)
  {
    hide Io, Establish, BeginDestroy, Held, FreshFd, Name, Reportable;
    if !LoopStep(a) {
      OutsideMoves(s, a, k);
    } else {
      match a
      case HandOff => HandOffMoves(s, k);
      case RunFunctor(l) => RunFunctorMoves(s, l, k);
      case EndDestroy(l) => EndDestroyMoves(s, l, k);
      case _ =>
    }
  }

  lemma StepMovesFrame(s: State, a: Action, k: nat)
    requires Enabled(s, a) && k < |s.loops| && Removing(s.loops[k].frame) && (s.loops[k].frame.Erased? ==> k == 0)
    ensures k < |Step(s, a).loops|
    ensures a != FrameAction(s.loops[k].frame, k) ==> Step(s, a).loops[k].frame == s.loops[k].frame
  {
    hide Io, Establish, BeginDestroy, Held, FreshFd, Name, Reportable, QueuesMove;
    if !LoopStep(a) {
      OutsideMoves(s, a, k);
    } else {
      match a
      case HandOff => HandOffMoves(s, k);
      case RunFunctor(l) => RunFunctorMoves(s, l, k);
      case EndDestroy(l) => EndDestroyMoves(s, l, k);
      case _ =>
    }
  }

  /** The last stretch of a removal is never undone, whoever moves. */
  lemma StepKeepsDoomed(s: State, a: Action, c: ConnId)
    requires S.Inv(s) && Enabled(s, a) && Doomed(s, c)
    ensures Doomed(Step(s, a), c)
  {
    var k := s.conns[c].loop;
    S.InvLoop(s, k);
    StepKeepsCast(s, a);
    StepMovesQueues(s, a, k);
    if s.conns[c].gone {
      S.StepKeepsGone(s, a, c);
    } else if Own(s, c).frame == Destroying(c) {
      StepMovesFrame(s, a, k);
      if a == EndDestroy(k) { EndDestroyMoves(s, k, k); }
    } else {
      HandlingHasNoBatch(s, a, k);
      if a == RunFunctor(k) { RunFunctorMoves(s, k, k); }
      hide Step, Enabled, S.Inv, S.LoopOk;
      QueuedStays(s.loops[k], Step(s, a).loops[k], a, k, Destroyed(c));
    }
  }

  lemma HandlingHasNoBatch(s: State, a: Action, k: nat)
    requires k < |s.loops| && S.LoopOk(s, k) && Enabled(s, a)
    ensures a == EndHandlers(k) ==> s.loops[k].batch == []
  {
  }

  lemma QueuedStays(a: Loop, b: Loop, act: Action, k: nat, f: Functor)
    requires QueuesMove(a, b, act, k) && Queued(a, f)
    requires act == EndHandlers(k) ==> a.batch == []
    ensures Queued(b, f) || (act == RunFunctor(k) && a.batch != [] && a.batch[0] == f)
  {
    if f in a.pending {
      var i :| 0 <= i < |a.pending| && a.pending[i] == f;
      if act == EndHandlers(k) { assert b.batch[i] == f; } else { assert b.pending[i] == f; }
    }
  }

  // ---------------------------------------------------------------- a call in progress returns

  function FrameAction(frame: Frame, l: nat): Action
    requires !frame.Free?
  {
    match frame
    case Accepted(_) => HandOff
    case Establishing(_) => EndEstablish(l)
    case Dispatching(_) => EndDispatch(l)
    case Closing(_) => CloseEnd(l)
    case Erased(_, _) => EraseEnd
    case Destroying(_) => EndDestroy(l)
  }

  /** How many steps a call is from its return, at most. */
  function FrameRank(frame: Frame): nat {
    match frame
    case Free => 0
    case Accepted(_) => 2
    case Closing(_) => 3
    case Erased(_, _) => 2
    case _ => 1
  }

  lemma FrameActionEnabled(s: State, l: nat)
    requires S.Inv(s) && l < |s.loops| && !s.loops[l].frame.Free?
    ensures Enabled(s, FrameAction(s.loops[l].frame, l)) && LoopStep(FrameAction(s.loops[l].frame, l))
  {
    S.InvLoop(s, l);
    S.FrameKnown(s, l);
    S.KnownOk(s, s.loops[l].frame.c);
    hide S.Inv, P.Mirror, Name;
  }

  lemma FrameActionReturns(s: State, l: nat)
    requires l < |s.loops| && !s.loops[l].frame.Free? && Enabled(s, FrameAction(s.loops[l].frame, l))
    requires s.loops[l].frame.Accepted? || s.loops[l].frame.Erased? ==> l == 0
    ensures var t := Step(s, FrameAction(s.loops[l].frame, l));
      && l < |t.loops| && t.loops[l].phase == s.loops[l].phase && t.loops[l].active == s.loops[l].active
      && FrameRank(t.loops[l].frame) < FrameRank(s.loops[l].frame)
      && (s.loops[l].frame.Erased? ==> Doomed(t, s.loops[l].frame.c))
      && (s.loops[l].frame.Destroying? ==> IsGone(t, s.loops[l].frame.c))
  {
    hide Io, Establish, Name, Held, FreshFd;
    match s.loops[l].frame
    case Accepted(c) => if s.conns[c].loop == 0 { EstablishMoves(s, 0, c); }
    case Destroying(c) => IoMoves(s, c, P.Remove);
    case _ =>
  }

  // ---------------------------------------------------------------- a whole turn of one loop

  /** What holds from `s` to `d` whichever loops moved. */
  ghost predicate Keeps(s: State, d: State, c: ConnId) {
    && S.Inv(d) && SameCast(s, d)
    && (Doomed(s, c) ==> Doomed(d, c)) && (IsGone(s, c) ==> IsGone(d, c))
  }

  lemma StepKeepsAll(s: State, a: Action, c: ConnId)
    requires S.Inv(s) && Enabled(s, a) && LoopStep(a)
    ensures Keeps(s, Step(s, a), c)
  {
    hide S.Inv, Step, Enabled, LoopStep;
    S.StepKeeps(s, a);
    StepKeepsCast(s, a);
    if Doomed(s, c) { StepKeepsDoomed(s, a, c); }
    if IsGone(s, c) { S.StepKeepsGone(s, a, c); }
  }

  /** The call that loop `l` is in the middle of has returned, with its effect on `c`. */
  ghost predicate CallReturned(s: State, d: State, l: nat, c: ConnId) {
    && l < |s.loops| && Keeps(s, d, c) && d.loops[l].frame == Free
    && (s.loops[l].frame.Erased? && s.loops[l].frame.c == c ==> Doomed(d, c))
    && (s.loops[l].frame == Destroying(c) ==> IsGone(d, c))
  }

  /** Meanwhile the loop stayed in its phase and its queues only got longer. */
  ghost predicate SameTurn(a: Loop, b: Loop) {
    b.phase == a.phase && b.active == a.active && b.batch == a.batch && a.pending <= b.pending
  }

  lemma {:induction false} FinishCall(s: State, l: nat, c: ConnId) returns (acts: seq<Action>, d: State)
    requires S.Inv(s) && l < |s.loops|
    ensures Unaided(s, acts, d) && CallReturned(s, d, l, c) && SameTurn(s.loops[l], d.loops[l])
    decreases FrameRank(s.loops[l].frame)
  {
    hide S.Inv, Step, Enabled, LoopStep, Doomed;
    if s.loops[l].frame.Free? {
      acts, d := [], s;
    } else {
      var a := FrameAction(s.loops[l].frame, l);
      FrameActionEnabled(s, l);
      FrameIsBase(s, l);
      FrameActionReturns(s, l);
      StepMovesQueues(s, a, l);
      StepKeepsAll(s, a, c);
      UnaidedOne(s, a);
      var rest;
      rest, d := FinishCall(Step(s, a), l, c);
      UnaidedConcat(s, [a], Step(s, a), rest, d);
      acts := [a] + rest;
    }
  }

  lemma FrameIsBase(s: State, l: nat)
    requires S.Inv(s) && l < |s.loops|
    ensures s.loops[l].frame.Accepted? || s.loops[l].frame.Erased? ==> l == 0
  {
    S.InvLoop(s, l);
  }

  /** The batch of loop `l` has been run to its end. */
  ghost predicate BatchRun(s: State, d: State, l: nat, c: ConnId) {
    && CallReturned(s, d, l, c) && d.loops[l].phase == Polling && s.loops[l].pending <= d.loops[l].pending
    && (Destroyed(c) in s.loops[l].batch ==> IsGone(d, c))
    && (Remove(c) in s.loops[l].batch ==> Doomed(d, c))
  }

  lemma HeadRuns(s: State, l: nat)
    requires S.Inv(s) && AtFrame(s, l, Running) && s.loops[l].frame == Free && s.loops[l].batch != []
    ensures Enabled(s, RunFunctor(l))
    ensures var t := Step(s, RunFunctor(l)); var f := s.loops[l].batch[0];
      && l < |t.loops| && t.loops[l].phase == Running
      && (f.Destroyed? ==> t.loops[l].frame == Destroying(f.c)) && (f.Remove? ==> t.loops[l].frame == Erased(f.c, false))
  {
    var f := s.loops[l].batch[0];
    S.InvLoop(s, l);
    S.QueuedIsOk(s, l, f);
    if !f.User? { S.KnownOk(s, f.c); }
    hide S.Inv, S.LoopOk, P.Apply, P.Mirror, Name;
  }

  lemma {:induction false} BatchRunsOut(s: State, l: nat, c: ConnId) returns (acts: seq<Action>, d: State)
    requires S.Inv(s) && AtFrame(s, l, Running)
    ensures Unaided(s, acts, d) && BatchRun(s, d, l, c)
    decreases |s.loops[l].batch|
  {
    hide S.Inv, Step, Enabled, LoopStep, Doomed;
    var m, a;
    acts, m := FinishCall(s, l, c);
    if s.loops[l].batch == [] {
      a := EndBatch(l);
      EndBatchEnds(m, l);
      d := Step(m, a);
      StepKeepsAll(m, a, c);
      UnaidedOne(m, a);
      UnaidedConcat(s, acts, m, [a], d);
      acts := acts + [a];
    } else {
      a := RunFunctor(l);
      HeadRuns(m, l);
      IsLoopStep(l);
      StepMovesQueues(m, a, l);
      StepKeepsAll(m, a, c);
      UnaidedOne(m, a);
      UnaidedConcat(s, acts, m, [a], Step(m, a));
      var rest;
      rest, d := BatchRunsOut(Step(m, a), l, c);
      UnaidedConcat(s, acts + [a], Step(m, a), rest, d);
      acts := acts + [a] + rest;
    }
  }

  lemma IsLoopStep(l: nat)
    ensures LoopStep(RunFunctor(l)) && LoopStep(EndBatch(l)) && LoopStep(EndHandlers(l)) && LoopStep(Dispatch(l))
    ensures LoopStep(Poll(l, []))
  {
  }

  lemma EndBatchEnds(s: State, l: nat)
    requires AtFrame(s, l, Running) && s.loops[l].frame == Free && s.loops[l].batch == []
    ensures Enabled(s, EndBatch(l)) && LoopStep(EndBatch(l))
    ensures var t := Step(s, EndBatch(l)); l < |t.loops| && t.loops[l] == s.loops[l].(phase := Polling)
  {
  }

  /** Loop `l` is about to run what was pending. */
  ghost predicate Swapped(s: State, d: State, l: nat, c: ConnId) {
    CallReturned(s, d, l, c) && d.loops[l].phase == Running && s.loops[l].pending <= d.loops[l].batch
  }

  lemma PollReturns(s: State, l: nat)
    requires AtFrame(s, l, Polling)
    ensures Enabled(s, Poll(l, [])) && LoopStep(Poll(l, []))
    ensures var t := Step(s, Poll(l, [])); l < |t.loops| && t.loops[l] == s.loops[l].(phase := Handling, active := [])
  {
  }

  lemma HandlersMove(s: State, l: nat)
    requires AtFrame(s, l, Handling) && s.loops[l].frame == Free
    ensures var active := s.loops[l].active; var a := if active == [] then EndHandlers(l) else Dispatch(l);
      && Enabled(s, a) && LoopStep(a) && l < |Step(s, a).loops|
      && (active == [] ==>
           Step(s, a).loops[l] == s.loops[l].(phase := Running, batch := s.loops[l].pending, pending := []))
      && (active != [] ==>
           Step(s, a).loops[l] == s.loops[l].(active := active[1..], frame := Dispatching(active[0])))
  {
  }

  lemma {:induction false} HandlersRunOut(s: State, l: nat, c: ConnId) returns (acts: seq<Action>, d: State)
    requires S.Inv(s) && AtFrame(s, l, Handling)
    ensures Unaided(s, acts, d) && Swapped(s, d, l, c)
    decreases |s.loops[l].active|
  {
    hide S.Inv, Step, Enabled, LoopStep, Doomed;
    var m;
    acts, m := FinishCall(s, l, c);
    var a := if m.loops[l].active == [] then EndHandlers(l) else Dispatch(l);
    HandlersMove(m, l);
    var t := Step(m, a);
    StepKeepsAll(m, a, c);
    UnaidedOne(m, a);
    UnaidedConcat(s, acts, m, [a], t);
    acts, d := acts + [a], t;
    if m.loops[l].active != [] {
      var rest;
      rest, d := HandlersRunOut(t, l, c);
      UnaidedConcat(s, acts, t, rest, d);
      acts := acts + rest;
    }
  }

  lemma EndDispatchReturns(s: State, l: nat)
    requires l < |s.loops| && s.loops[l].frame.Dispatching?
    ensures Enabled(s, EndDispatch(l)) && LoopStep(EndDispatch(l))
    ensures var t := Step(s, EndDispatch(l)); l < |t.loops| && t.loops[l] == s.loops[l].(frame := Free)
  {
  }

  lemma {:induction false} ReachesDispatch(s: State, l: nat, i: nat) returns (acts: seq<Action>, d: State)
    requires AtFrame(s, l, Handling) && s.loops[l].frame == Free && i < |s.loops[l].active|
    ensures Unaided(s, acts, d) && l < |d.loops| && d.loops[l].frame == Dispatching(s.loops[l].active[i])
    decreases i
  {
    hide Step, Enabled, LoopStep;
    var a, e := Dispatch(l), EndDispatch(l);
    HandlersMove(s, l);
    var m := Step(s, a);
    UnaidedOne(s, a);
    if i == 0 {
      acts, d := [a], m;
    } else {
      EndDispatchReturns(m, l);
      var t, rest := Step(m, e), [];
      UnaidedOne(m, e);
      UnaidedConcat(s, [a], m, [e], t);
      rest, d := ReachesDispatch(t, l, i - 1);
      UnaidedConcat(s, [a] + [e], t, rest, d);
      acts := [a] + [e] + rest;
    }
  }

  /** Every channel that a poll reports gets its dispatch: the loop's own steps come to it. */
  lemma ReportedGetsDispatched(s: State, l: nat, ready: seq<ConnId>, i: nat) returns (acts: seq<Action>, d: State)
    requires AtFrame(s, l, Polling) && s.loops[l].frame == Free && Reportable(s.loops[l].io, ready) && i < |ready|
    ensures Enabled(s, Poll(l, ready)) && Unaided(Step(s, Poll(l, ready)), acts, d)
    ensures l < |d.loops| && d.loops[l].frame == Dispatching(ready[i])
  {
    var m := Step(s, Poll(l, ready));
    hide Unaided;
    acts, d := ReachesDispatch(m, l, i);
  }

  lemma PollAndSwap(s: State, l: nat, c: ConnId) returns (acts: seq<Action>, d: State)
    requires S.Inv(s) && AtFrame(s, l, Polling)
    ensures Unaided(s, acts, d) && Swapped(s, d, l, c)
  {
    S.InvLoop(s, l);
    hide S.Inv, Step, Enabled, LoopStep, Doomed;
    var a := Poll(l, []);
    PollReturns(s, l);
    StepKeepsAll(s, a, c);
    UnaidedOne(s, a);
    var rest;
    rest, d := HandlersRunOut(Step(s, a), l, c);
    UnaidedConcat(s, [a], Step(s, a), rest, d);
    acts := [a] + rest;
  }

  /** Everything that was queued on loop `l` for `c` has been run. */
  ghost predicate TurnDone(s: State, d: State, l: nat, c: ConnId) {
    && CallReturned(s, d, l, c)
    && (Queued(s.loops[l], Destroyed(c)) ==> IsGone(d, c))
    && (Queued(s.loops[l], Remove(c)) ==> Doomed(d, c))
  }

  ghost predicate PendingRun(s: State, d: State, l: nat, c: ConnId) {
    && CallReturned(s, d, l, c)
    && (Destroyed(c) in s.loops[l].pending ==> IsGone(d, c))
    && (Remove(c) in s.loops[l].pending ==> Doomed(d, c))
  }

  lemma SwapThenRun(s: State, l: nat, c: ConnId) returns (acts: seq<Action>, d: State)
    requires S.Inv(s) && l < |s.loops| && s.loops[l].phase != Running
    ensures Unaided(s, acts, d) && PendingRun(s, d, l, c)
  {
    hide S.Inv, Step, Enabled, LoopStep, Doomed, S.Run;
    var m, rest;
    if s.loops[l].phase == Handling {
      acts, m := HandlersRunOut(s, l, c);
    } else {
      acts, m := PollAndSwap(s, l, c);
    }
    rest, d := BatchRunsOut(m, l, c);
    UnaidedConcat(s, acts, m, rest, d);
    acts := acts + rest;
    InPrefix(s.loops[l].pending, m.loops[l].batch, Destroyed(c));
    InPrefix(s.loops[l].pending, m.loops[l].batch, Remove(c));
  }

  lemma InPrefix<T>(a: seq<T>, b: seq<T>, x: T)
    requires a <= b
    ensures x in a ==> x in b
  {
  }

  lemma OneTurn(s: State, l: nat, c: ConnId) returns (acts: seq<Action>, d: State)
    requires S.Inv(s) && l < |s.loops|
    ensures Unaided(s, acts, d) && TurnDone(s, d, l, c)
  {
    S.InvLoop(s, l);
    hide S.Inv, Step, Enabled, LoopStep, Doomed, S.Run;
    if s.loops[l].phase == Running {
      var m, rest;
      acts, m := BatchRunsOut(s, l, c);
      rest, d := SwapThenRun(m, l, c);
      UnaidedConcat(s, acts, m, rest, d);
      acts := acts + rest;
      InPrefix(s.loops[l].pending, m.loops[l].pending, Destroyed(c));
      InPrefix(s.loops[l].pending, m.loops[l].pending, Remove(c));
    } else {
      acts, d := SwapThenRun(s, l, c);
    }
  }

  // ---------------------------------------------------------------- every removal completes

  /** The connection's removal is under way: its `handleClose` is at its close callback, its removal is
      queued on the base loop or running there, or its destruction is queued or running on its own. */
  ghost predicate Condemned(s: State, c: ConnId) {
    && Known(s, c)
    && (|| Doomed(s, c) || Queued(s.loops[0], Remove(c))
        || (s.loops[0].frame.Erased? && s.loops[0].frame.c == c)
        || Own(s, c).frame == Closing(c))
  }

  lemma CloseCondemns(s: State, c: ConnId)
    requires S.Inv(s) && Known(s, c) && Own(s, c).frame == Closing(c)
    ensures var a := CloseEnd(s.conns[c].loop); var t := Step(s, a);
      && Enabled(s, a) && LoopStep(a) && Known(t, c)
      && (Queued(t.loops[0], Remove(c)) || (t.loops[0].frame.Erased? && t.loops[0].frame.c == c))
  {
    hide S.Inv, Name;
    var l := s.conns[c].loop;
    if l != 0 {
      var t := Step(s, CloseEnd(l));
      assert t.loops[0].pending[|s.loops[0].pending|] == Remove(c);
    }
  }

  lemma DoomedIsDestroyed(s: State, c: ConnId) returns (acts: seq<Action>, d: State)
    requires S.Inv(s) && Doomed(s, c)
    ensures Unaided(s, acts, d) && IsGone(d, c)
  {
    hide S.Inv, S.Run, Step;
    acts, d := OneTurn(s, s.conns[c].loop, c);
  }

  lemma RemovalIsDestroyed(s: State, c: ConnId) returns (acts: seq<Action>, d: State)
    requires S.Inv(s) && Known(s, c)
    requires Doomed(s, c) || Queued(s.loops[0], Remove(c)) || (s.loops[0].frame.Erased? && s.loops[0].frame.c == c)
    ensures Unaided(s, acts, d) && IsGone(d, c)
  {
    hide S.Inv, S.Run, Step, Doomed;
    var m, rest;
    acts, m := OneTurn(s, 0, c);
    rest, d := DoomedIsDestroyed(m, c);
    UnaidedConcat(s, acts, m, rest, d);
    acts := acts + rest;
  }

  /** A removal under way stays so until the destruction is done, whatever anybody does. */
  lemma StepKeepsCondemned(s: State, a: Action, c: ConnId)
    requires S.Inv(s) && Enabled(s, a) && Condemned(s, c)
    ensures Condemned(Step(s, a), c)
  {
    hide Step, Enabled, S.Inv, S.LoopOk, Doomed;
    StepKeepsCast(s, a);
    if Doomed(s, c) {
      StepKeepsDoomed(s, a, c);
    } else if Own(s, c).frame == Closing(c) {
      var l := s.conns[c].loop;
      StepMovesFrame(s, a, l);
      if a == CloseEnd(l) { CloseCondemns(s, c); }
    } else if s.loops[0].frame.Erased? && s.loops[0].frame.c == c {
      StepMovesFrame(s, a, 0);
      if a == EraseEnd { FrameActionReturns(s, 0); }
    } else {
      S.InvLoop(s, 0);
      HandlingHasNoBatch(s, a, 0);
      StepMovesQueues(s, a, 0);
      if a == RunFunctor(0) { RunFunctorMoves(s, 0, 0); }
      QueuedStays(s.loops[0], Step(s, a).loops[0], a, 0, Remove(c));
    }
  }

  lemma {:induction false} RunKeepsCondemned(s: State, acts: seq<Action>, d: State, c: ConnId)
    requires S.Inv(s) && S.Run(s, acts, d) && Condemned(s, c)
    ensures S.Inv(d) && Condemned(d, c)
    decreases |acts|
  {
    hide S.Inv, Step, Enabled, Condemned;
    if acts != [] {
      S.StepKeeps(s, acts[0]);
      StepKeepsCondemned(s, acts[0], c);
      RunKeepsCondemned(Step(s, acts[0]), acts[1..], d, c);
    }
  }

  /**
   Every removal completes: from every reachable state in which a connection's removal is under way, the
   steps of its own loop and the base loop alone lead to its destruction, with any number of loops.
   */
  lemma RemovalCompletes(prefix: string, n: nat, before: seq<Action>, s: State, c: ConnId)
      returns (acts: seq<Action>, d: State)
    requires S.Run(S.Start(prefix, n), before, s) && Condemned(s, c)
    ensures Unaided(s, acts, d) && IsGone(d, c)
  {
    S.ReachedIsOk(prefix, n, before, s);
    acts, d := CondemnedIsDestroyed(s, c);
  }

  /**
   And it stays completable for ever: once a removal is under way, then after whatever users, new
   connections, events and other loops have done meanwhile, the loops' own steps still lead to the
   destruction.
   */
  lemma RemovalStaysCompletable(prefix: string, n: nat, before: seq<Action>, s: State, c: ConnId,
      meanwhile: seq<Action>, m: State) returns (acts: seq<Action>, d: State)
    requires S.Run(S.Start(prefix, n), before, s) && Condemned(s, c) && S.Run(s, meanwhile, m)
    ensures Unaided(m, acts, d) && IsGone(d, c)
  {
    S.ReachedIsOk(prefix, n, before, s);
    RunKeepsCondemned(s, meanwhile, m, c);
    acts, d := CondemnedIsDestroyed(m, c);
  }

  lemma CondemnedIsDestroyed(s: State, c: ConnId) returns (acts: seq<Action>, d: State)
    requires S.Inv(s) && Condemned(s, c)
    ensures Unaided(s, acts, d) && IsGone(d, c)
  {
    hide S.Inv, S.Run, Step, Enabled, Doomed;
    if Own(s, c).frame == Closing(c) {
      var a := CloseEnd(s.conns[c].loop);
      CloseCondemns(s, c);
      StepKeepsAll(s, a, c);
      UnaidedOne(s, a);
      var rest;
      rest, d := RemovalIsDestroyed(Step(s, a), c);
      UnaidedConcat(s, [a], Step(s, a), rest, d);
      acts := [a] + rest;
    } else {
      acts, d := RemovalIsDestroyed(s, c);
    }
  }
}
