/**
 The task protocol of one event loop as a step system: the loop's own thread cycles through poll,
 handlers, swap and batch while any number of foreign threads push tasks and ask it to quit. Every
 step is one atomic section of the code; threads interleave between steps.
 */
module Reactor {
  import opened Bytes

  type Thread = nat

  /** Where the loop's own thread is. `Handling(wake)` still has the wakeup channel to dispatch. */
  datatype Phase = Idle | Check | Polling | Handling(wake: bool) | Swapping | Running

  /**
   `pushers` and `quitters` are the foreign threads between their push (or flag write) and their
   `wakeup`; `ownerOwes` says the same of the loop's own thread. `pushed`, `done` and `batches` are
   history. `silent` counts pending tasks the owner queued while the loop was not running.
   */
  datatype Loop<T> = Loop(
    phase: Phase,
    pending: seq<T>,
    batch: seq<T>,
    counter: nat,
    quit: bool,
    pushers: set<Thread>,
    quitters: set<Thread>,
    ownerOwes: bool,
    pushed: seq<T>,
    done: seq<T>,
    batches: seq<seq<T>>,
    silent: nat)

  /** An eventfd counter stops one short of the largest 64-bit value; a write beyond it fails. */
  const MAX_COUNTER: nat := 0xFFFF_FFFF_FFFF_FFFE

  function Bump(counter: nat): nat {
    if counter < MAX_COUNTER then counter + 1 else counter
  }

  datatype Action<T> =
    // foreign threads
    | Push(who: Thread, t: T)
    | Wake(who: Thread)
    | AskQuit(who: Thread)
    | QuitWake(who: Thread)
    // the owner, outside a running loop
    | QueueOutside(t: T)
    | Enter
    // the owner, inside the loop
    | CheckQuit
    | PollReturn(wake: bool)
    | HandleRead
    | QueueFromHandler(t: T)
    | EndHandlers
    | Swap
    | RunTask
    | QueueFromTask(t: T)
    | OwnWake
    | EndBatch
    | OwnQuit

  predicate Enabled<T>(s: Loop<T>, a: Action<T>) {
    match a
    case Push(who, _) => who !in s.pushers && who !in s.quitters
    case Wake(who) => who in s.pushers
    case AskQuit(who) => who !in s.pushers && who !in s.quitters
    case QuitWake(who) => who in s.quitters
    case QueueOutside(_) => s.phase == Idle
    case Enter => s.phase == Idle
    case CheckQuit => s.phase == Check
    case PollReturn(wake) => s.phase == Polling && (wake ==> s.counter > 0)
    case HandleRead => s.phase == Handling(true)
    case QueueFromHandler(_) => s.phase.Handling?
    case EndHandlers => s.phase == Handling(false)
    case Swap => s.phase == Swapping
    case RunTask => s.phase == Running && !s.ownerOwes && s.batch != []
    case QueueFromTask(_) => s.phase == Running && !s.ownerOwes && s.done != []
    case OwnWake => s.ownerOwes
    case EndBatch => s.phase == Running && !s.ownerOwes && s.batch == []
    case OwnQuit => s.phase == Idle || s.phase.Handling? || (s.phase == Running && !s.ownerOwes)
  }

  function Queue<T>(s: Loop<T>, t: T): Loop<T> {
    s.(pending := s.pending + [t], pushed := s.pushed + [t])
  }

  function Step<T>(s: Loop<T>, a: Action<T>): Loop<T>
    requires Enabled(s, a)
  {
    match a
    case Push(who, t) => Queue(s, t).(pushers := s.pushers + {who})
    case Wake(who) => s.(pushers := s.pushers - {who}, counter := Bump(s.counter))
    case AskQuit(who) => s.(quit := true, quitters := s.quitters + {who})
    case QuitWake(who) => s.(quitters := s.quitters - {who}, counter := Bump(s.counter))
    case QueueOutside(t) => Queue(s, t).(silent := s.silent + 1)
    case Enter => s.(phase := Check, quit := false)
    case CheckQuit => s.(phase := if s.quit then Idle else Polling)
    case PollReturn(wake) => s.(phase := Handling(wake))
    case HandleRead => s.(phase := Handling(false), counter := 0)
    case QueueFromHandler(t) => Queue(s, t)
    case EndHandlers => s.(phase := Swapping)
    case Swap => s.(phase := Running, batch := s.pending, pending := [], silent := 0, batches := s.batches + [s.pending])
    case RunTask => s.(batch := s.batch[1..], done := s.done + [s.batch[0]])
    case QueueFromTask(t) => Queue(s, t).(ownerOwes := true)
    case OwnWake => s.(ownerOwes := false, counter := Bump(s.counter))
    case EndBatch => s.(phase := Check)
    case OwnQuit => s.(quit := true)
  }

  function Start<T>(): Loop<T> {
    Loop(Idle, [], [], 0, false, {}, {}, false, [], [], [], 0)
  }

  ghost predicate Run<T>(s: Loop<T>, acts: seq<Action<T>>, d: Loop<T>)
    decreases |acts|
  {
    if acts == [] then s == d else Enabled(s, acts[0]) && Run(Step(s, acts[0]), acts[1..], d)
  }

  lemma RunOne<T>(s: Loop<T>, a: Action<T>)
    requires Enabled(s, a)
    ensures Run(s, [a], Step(s, a))
  {
    assert [a][1..] == [];
  }

  lemma {:induction false} RunConcat<T>(s: Loop<T>, xs: seq<Action<T>>, d: Loop<T>, ys: seq<Action<T>>, e: Loop<T>)
    requires Run(s, xs, d) && Run(d, ys, e)
    ensures Run(s, xs + ys, e)
    decreases |xs|
  {
    if xs == [] {
      assert xs + ys == ys;
    } else {
      assert (xs + ys)[1..] == xs[1..] + ys;
      RunConcat(Step(s, xs[0]), xs[1..], d, ys, e);
    }
  }

  // ---------------------------------------------------------------- no lost wakeup

  /** Someone who pushed, or anyone before, has signalled the eventfd or still will before anything else. */
  predicate Signalled<T>(s: Loop<T>) { s.counter > 0 || s.pushers != {} }

  ghost predicate Awake<T>(s: Loop<T>) {
    && (s.phase.Idle? || s.phase.Check? || s.phase.Polling? ==> Signalled(s) || |s.pending| == s.silent)
    && (s.phase == Running ==> s.silent == 0 && (Signalled(s) || s.ownerOwes || s.pending == []))
    && (s.ownerOwes ==> s.phase == Running)
    && (s.phase == Handling(true) ==> s.counter > 0)
    && (s.phase == Polling && s.quit ==> s.counter > 0 || s.quitters != {})
    && s.silent <= |s.pending|
  }

  lemma StepKeepsAwake<T>(s: Loop<T>, a: Action<T>)
    requires Awake(s) && Enabled(s, a)
    ensures Awake(Step(s, a))
  {
    match a
    case Push(who, _) => assert who in Step(s, a).pushers;
    case AskQuit(who) => assert who in Step(s, a).quitters;
    case _ =>
  }

  lemma {:induction false} RunKeepsAwake<T>(s: Loop<T>, acts: seq<Action<T>>, d: Loop<T>)
    requires Awake(s) && Run(s, acts, d)
    ensures Awake(d)
    decreases |acts|
  {
    if acts != [] {
      StepKeepsAwake(s, acts[0]);
      RunKeepsAwake(Step(s, acts[0]), acts[1..], d);
    }
  }

  predicate OwnerQueuesInside<T>(acts: seq<Action<T>>) {
    forall i :: 0 <= i < |acts| ==> !acts[i].QueueOutside?
  }

  lemma {:induction false} InsideMeansNotSilent<T>(s: Loop<T>, acts: seq<Action<T>>, d: Loop<T>)
    requires s.silent == 0 && OwnerQueuesInside(acts) && Run(s, acts, d)
    ensures d.silent == 0
    decreases |acts|
  {
    if acts != [] {
      InsideMeansNotSilent(Step(s, acts[0]), acts[1..], d);
    }
  }

  /**
   No lost wakeup: whatever the interleaving, when the owner queues only from inside its running loop,
   a loop that sits in poll with a task pending or a foreign quit unseen has been signalled, or a
   caller is between its push or flag write and its `wakeup`.
   */
  lemma NoLostWakeup<T>(acts: seq<Action<T>>, d: Loop<T>)
    requires Run(Start<T>(), acts, d) && OwnerQueuesInside(acts) && d.phase == Polling
    ensures d.pending != [] ==> d.counter > 0 || d.pushers != {}
    ensures d.quit ==> d.counter > 0 || d.quitters != {}
  {
    RunKeepsAwake(Start<T>(), acts, d);
    InsideMeansNotSilent(Start<T>(), acts, d);
  }

  /** Without the restriction: an unsignalled poll has pending exactly what the owner queued outside. */
  lemma OnlySilentTasksAreLost<T>(acts: seq<Action<T>>, d: Loop<T>)
    requires Run(Start<T>(), acts, d) && d.phase == Polling && !Signalled(d)
    ensures |d.pending| == d.silent
  {
    RunKeepsAwake(Start<T>(), acts, d);
  }

  // ---------------------------------------------------------------- task order

  ghost predicate Ordered<T>(s: Loop<T>) {
    && s.done + s.batch + s.pending == s.pushed
    && Flatten(s.batches) == s.done + s.batch
    && (s.phase != Running ==> s.batch == [])
  }

  lemma QueueKeepsOrder<T>(s: Loop<T>, t: T)
    requires Ordered(s)
    ensures Ordered(Queue(s, t))
  {
    hide Flatten;
    assert s.done + s.batch + (s.pending + [t]) == (s.done + s.batch + s.pending) + [t];
  }

  lemma SwapKeepsOrder<T>(s: Loop<T>)
    requires Ordered(s) && s.phase == Swapping
    ensures Ordered(Step(s, Swap))
  {
    var d := Step(s, Swap);
    assert d.batches[..|d.batches| - 1] == s.batches;
    assert s.done + s.batch == s.done;
    assert d.done + d.batch + d.pending == s.done + s.batch + s.pending;
  }

  lemma RunTaskKeepsOrder<T>(s: Loop<T>)
    requires Ordered(s) && Enabled(s, RunTask)
    ensures Ordered(Step(s, RunTask))
  {
    hide Flatten;
    assert [s.batch[0]] + s.batch[1..] == s.batch;
    assert s.done + [s.batch[0]] + s.batch[1..] == s.done + s.batch;
  }

  lemma StepKeepsOrder<T>(s: Loop<T>, a: Action<T>)
    requires Ordered(s) && Enabled(s, a)
    ensures Ordered(Step(s, a))
  {
    hide Flatten;
    match a
    case Swap => SwapKeepsOrder(s);
    case RunTask => RunTaskKeepsOrder(s);
    case Push(_, t) => QueueKeepsOrder(s, t);
    case QueueOutside(t) => QueueKeepsOrder(s, t);
    case QueueFromHandler(t) => QueueKeepsOrder(s, t);
    case QueueFromTask(t) => QueueKeepsOrder(s, t);
    case _ =>
  }

  lemma {:induction false} RunKeepsOrder<T>(s: Loop<T>, acts: seq<Action<T>>, d: Loop<T>)
    requires Ordered(s) && Run(s, acts, d)
    ensures Ordered(d)
    decreases |acts|
  {
    if acts != [] {
      StepKeepsOrder(s, acts[0]);
      RunKeepsOrder(Step(s, acts[0]), acts[1..], d);
    }
  }

  /**
   Task order over every run: executed tasks, then the rest of the running batch, then the queue are
   exactly the pushes in order, so the executed tasks are a prefix of the pushes and none runs twice.
   */
  lemma TasksRunInPushOrder<T>(acts: seq<Action<T>>, d: Loop<T>)
    requires Run(Start<T>(), acts, d)
    ensures d.done + d.batch + d.pending == d.pushed
    ensures d.done <= d.pushed && Flatten(d.batches) == d.done + d.batch
  {
    RunKeepsOrder(Start<T>(), acts, d);
  }

  /** A running batch is fixed at its swap: until it ends, steps only move it from `batch` to `done`,
      whatever is queued meanwhile. */
  lemma {:induction false} BatchIsFixedAtSwap<T>(s: Loop<T>, acts: seq<Action<T>>, d: Loop<T>)
    requires s.phase == Running && Run(s, acts, d)
    requires forall i :: 0 <= i < |acts| ==> acts[i] != EndBatch
    ensures d.phase == Running && d.done + d.batch == s.done + s.batch && d.batches == s.batches
    decreases |acts|
  {
    if acts != [] {
      var m := Step(s, acts[0]);
      assert acts[0] != EndBatch;
      if acts[0] == RunTask {
        assert s.done + [s.batch[0]] + s.batch[1..] == s.done + s.batch;
      }
      BatchIsFixedAtSwap(m, acts[1..], d);
    }
  }

  // ---------------------------------------------------------------- a signal is enough

  /** What the loop's thread does without any user code, when polls return only on a signal. */
  predicate OwnStep<T>(a: Action<T>) {
    match a
    case CheckQuit => true
    case PollReturn(wake) => wake
    case HandleRead => true
    case EndHandlers => true
    case Swap => true
    case RunTask => true
    case OwnWake => true
    case EndBatch => true
    case _ => false
  }

  predicate LoopOnly<T>(acts: seq<Action<T>>) {
    forall i :: 0 <= i < |acts| ==> OwnStep(acts[i])
  }

  lemma {:induction false} BatchRunsOut<T>(s: Loop<T>) returns (acts: seq<Action<T>>, d: Loop<T>)
    requires s.phase == Running && !s.ownerOwes
    ensures LoopOnly(acts) && Run(s, acts, d)
    ensures d == s.(phase := Check, batch := [], done := s.done + s.batch)
    decreases |s.batch|
  {
    if s.batch == [] {
      acts, d := [EndBatch], Step(s, EndBatch);
      RunOne(s, EndBatch);
      assert s.done + s.batch == s.done;
    } else {
      var m := Step(s, RunTask);
      var rest;
      rest, d := BatchRunsOut(m);
      acts := [RunTask] + rest;
      RunOne(s, RunTask);
      RunConcat(s, [RunTask], m, rest, d);
      assert s.done + [s.batch[0]] + s.batch[1..] == s.done + s.batch;
    }
  }

  lemma SignalReachesSwap<T>(s: Loop<T>) returns (acts: seq<Action<T>>, d: Loop<T>)
    requires s.phase == Polling && s.counter > 0
    ensures LoopOnly(acts) && Run(s, acts, d)
    ensures d == Step(s.(phase := Swapping, counter := 0), Swap)
  {
    var s1 := Step(s, PollReturn(true));
    var s2 := Step(s1, HandleRead);
    var s3 := Step(s2, EndHandlers);
    d := Step(s3, Swap);
    RunOne(s, PollReturn(true));
    RunOne(s1, HandleRead);
    RunOne(s2, EndHandlers);
    RunOne(s3, Swap);
    hide Run;
    RunConcat(s, [PollReturn(true)], s1, [HandleRead], s2);
    RunConcat(s2, [EndHandlers], s3, [Swap], d);
    acts := [PollReturn(true)] + [HandleRead] + ([EndHandlers] + [Swap]);
    RunConcat(s, [PollReturn(true)] + [HandleRead], s2, [EndHandlers] + [Swap], d);
  }

  /** A signalled poll needs nobody's help: the loop's own steps then run everything that is pending
      and come back to the quit check. */
  lemma SignalDrains<T>(s: Loop<T>) returns (acts: seq<Action<T>>, d: Loop<T>)
    requires s.phase == Polling && s.counter > 0 && !s.ownerOwes
    ensures LoopOnly(acts) && Run(s, acts, d)
    ensures d.phase == Check && d.done == s.done + s.pending && d.pending == [] && d.quit == s.quit
  {
    hide Run;
    var m, rest;
    acts, m := SignalReachesSwap(s);
    rest, d := BatchRunsOut(m);
    RunConcat(s, acts, m, rest, d);
    acts := acts + rest;
  }

  // ---------------------------------------------------------------- exactly when a poll goes on

  /** The loop's own steps and the wakeups that callers still owe; nobody begins a new call. */
  predicate Settling<T>(acts: seq<Action<T>>) {
    forall i :: 0 <= i < |acts| ==> OwnStep(acts[i]) || acts[i].Wake? || acts[i].QuitWake?
  }

  /** The eventfd is readable, or somebody who has pushed or asked to quit will make it so. */
  predicate WillWake<T>(s: Loop<T>) { s.counter > 0 || s.pushers != {} || s.quitters != {} }

  /** Without any new call everything that is pending gets run. */
  ghost predicate RunsAll<T(!new)>(s: Loop<T>) {
    exists acts, d :: Settling(acts) && Run(s, acts, d) && d.done == s.done + s.pending
  }

  lemma SomeoneSignals<T>(s: Loop<T>) returns (acts: seq<Action<T>>, d: Loop<T>)
    requires s.phase == Polling && WillWake(s)
    ensures Settling(acts) && Run(s, acts, d) && d.counter > 0
    ensures d == s.(counter := d.counter, pushers := d.pushers, quitters := d.quitters)
  {
    acts, d := [], s;
    if s.counter == 0 {
      var a: Action<T>;
      if s.pushers != {} {
        var who :| who in s.pushers;
        a := Wake(who);
      } else {
        var who :| who in s.quitters;
        a := QuitWake(who);
      }
      acts, d := [a], Step(s, a);
      RunOne(s, a);
    }
  }

  /** Where nobody has signalled and nobody will, the poll goes on: no such step is possible at all. */
  lemma UnsignalledStays<T>(s: Loop<T>, acts: seq<Action<T>>, d: Loop<T>)
    requires s.phase == Polling && !s.ownerOwes && !WillWake(s) && Settling(acts) && Run(s, acts, d)
    ensures d == s
  {
  }

  /** A poll with tasks pending leads to their execution, without any new call, if and only if the eventfd
      is readable or somebody still owes it a wakeup. */
  lemma PollGoesOnIff<T(!new)>(s: Loop<T>)
    requires s.phase == Polling && !s.ownerOwes && s.pending != []
    ensures RunsAll(s) <==> WillWake(s)
  {
    if WillWake(s) {
      var acts, m := SomeoneSignals(s);
      var rest, d := SignalDrains(m);
      RunConcat(s, acts, m, rest, d);
      assert Settling(acts + rest);
    } else {
      forall acts, d | Settling(acts) && Run(s, acts, d) ensures d.done != s.done + s.pending {
        UnsignalledStays(s, acts, d);
        assert |s.done + s.pending| > |s.done|;
      }
    }
  }

  /**
   Exactly when a task is lost that the owner queues before `loop()`: until the poll times out or somebody
   makes a new call it is run if and only if the eventfd was readable when it was queued, or a caller was
   still between its push or its quit flag and its wakeup.
   */
  lemma QueueOutsideIsLostIff<T(!new)>(before: seq<Action<T>>, s: Loop<T>, t: T, d: Loop<T>)
    requires Run(Start<T>(), before, s) && s.phase == Idle && Run(s, [QueueOutside(t), Enter, CheckQuit], d)
    ensures d.phase == Polling && t in d.pending
    ensures RunsAll(d) <==> WillWake(s)
  {
    RunKeepsAwake(Start<T>(), before, s);
    var acts := [QueueOutside(t), Enter, CheckQuit];
    var s1 := Step(s, acts[0]);
    var s2 := Step(s1, acts[1]);
    assert acts[1..] == [Enter, CheckQuit] && acts[1..][1..] == [CheckQuit] && acts[1..][1..][1..] == [];
    assert Run(s1, acts[1..], d);
    assert Run(s2, acts[1..][1..], d);
    assert Run(Step(s2, CheckQuit), acts[1..][1..][1..], d);
    assert s.pending + [t] == d.pending;
    PollGoesOnIff(d);
  }

  /** So in every run in which the owner queues only inside its running loop, whatever is pending while the
      loop polls gets run without any new call and without waiting for a timeout. */
  lemma PendingTasksGetRun<T(!new)>(acts: seq<Action<T>>, s: Loop<T>)
    requires Run(Start<T>(), acts, s) && OwnerQueuesInside(acts) && s.phase == Polling && s.pending != []
    ensures RunsAll(s)
  {
    RunKeepsAwake(Start<T>(), acts, s);
    NoLostWakeup(acts, s);
    PollGoesOnIff(s);
  }
}
