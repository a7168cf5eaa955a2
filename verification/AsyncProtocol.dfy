/**
 The asynchronous logger's worker and its producers as a step system. They share two buffers under one
 mutex and sleep on two condition variables; the sets of sleeping and of notified threads are explicit.
 A step is one critical section, except where the worker reads `stop_`, which is set without the mutex.
 */
module AsyncProtocol {
  import opened Bytes
  import opened AsyncBuffer

  type Thread = nat

  /** Where the worker is. It holds the mutex while going to sleep and while checking for the exit. */
  datatype Worker = Starting | GoingToSleep | Sleeping | Woken | Checking | Flushing | Exited

  /** Producers inside the space wait appear in `asleep` or, once notified, in `notified`, with their
      message. `accepted` and `flushes` are history, and so is `lost`: the messages whose push threw. After
      an `overrun`, a copy past the end of the vector, nothing more is claimed and no step is left. */
  datatype State = State(
    safe: bool,
    cfg: Config,
    producer: Buf,
    consumer: Buf,
    stop: bool,
    pc: Worker,
    asleep: map<Thread, seq<byte>>,
    notified: map<Thread, seq<byte>>,
    accepted: seq<byte>,
    flushes: seq<seq<byte>>,
    lost: seq<seq<byte>>,
    overrun: bool)

  predicate MutexFree(s: State) { s.pc != GoingToSleep && s.pc != Checking }

  datatype Action =
    | Push(who: Thread, msg: seq<byte>)
    | Resume(who: Thread)
    | SpuriousProducer(who: Thread)
    | SpuriousWorker
    | SetStop
    | NotifyStop
    | Lock(pick: Thread)
    | FallAsleep
    | Check
    | Flush

  /** The body of a push after any waiting: copy, then notify the consumer. */
  function Accept(s: State, msg: seq<byte>): State {
    s.(producer := PushTo(s.cfg, s.producer, msg),
       accepted := s.accepted + msg,
       pc := if s.pc == Sleeping then Woken else s.pc)
  }

  /** The copy of a push goes well: no exception, and the message fits after the one growth tried. */
  predicate MayCopy(s: State, msg: seq<byte>) { Fits(s.cfg, s.producer, |msg|) }

  /** A push that does not wait, or no longer: it copies, throws out of the buffer, or overruns it. */
  function Copy(s: State, msg: seq<byte>): State {
    if Throws(s.cfg, s.producer, |msg|) then s.(lost := s.lost + [msg])
    else if Overruns(s.cfg, s.producer, |msg|) then s.(overrun := true)
    else Accept(s, msg)
  }

  predicate NoFailure(s: State) { s.lost == [] && !s.overrun }

  predicate MustWait(s: State, msg: seq<byte>) { s.safe && |msg| > s.producer.Writeable() }

  predicate WillSwap(s: State) { s.producer.written != [] }

  predicate Enabled(s: State, a: Action) {
    && !s.overrun
    && match a
       case Push(who, _) => MutexFree(s) && who !in s.asleep && who !in s.notified
       case Resume(who) => MutexFree(s) && who in s.notified
       case SpuriousProducer(who) => who in s.asleep
       case SpuriousWorker => s.pc == Sleeping
       case SetStop => true
       case NotifyStop => s.stop
       case Lock(pick) => (s.pc == Starting || s.pc == Woken) && (s.asleep != map[] ==> pick in s.asleep)
       case FallAsleep => s.pc == GoingToSleep
       case Check => s.pc == Checking
       case Flush => s.pc == Flushing
  }

  function Notify(s: State, who: Thread): State
    requires who in s.asleep
  {
    s.(asleep := s.asleep - {who}, notified := s.notified[who := s.asleep[who]])
  }

  /** The worker's critical section up to its second look at `stop_`. */
  function LockAndSwap(s: State, pick: Thread): State
    requires s.asleep != map[] ==> pick in s.asleep
  {
    if !s.stop && !WillSwap(s) then s.(pc := GoingToSleep)
    else if !WillSwap(s) then s.(pc := Checking)
    else
      var swapped := s.(pc := Checking, producer := s.consumer, consumer := s.producer);
      if s.safe && s.asleep != map[] then Notify(swapped, pick) else swapped
  }

  function FlushConsumer(s: State): State {
    s.(flushes := s.flushes + [s.consumer.written], consumer := s.consumer.(written := [], read := 0))
  }

  function Step(s: State, a: Action): State
    requires Enabled(s, a)
  {
    match a
    case Push(who, msg) =>
      if s.stop then s else if MustWait(s, msg) then s.(asleep := s.asleep[who := msg]) else Copy(s, msg)
    case Resume(who) =>
      var msg := s.notified[who];
      var back := s.(notified := s.notified - {who});
      if MustWait(s, msg) then back.(asleep := s.asleep[who := msg]) else Copy(back, msg)
    case SpuriousProducer(who) => Notify(s, who)
    case SpuriousWorker => s.(pc := Woken)
    case SetStop => s.(stop := true)
    case NotifyStop => if s.pc == Sleeping then s.(pc := Woken) else s
    case Lock(pick) => LockAndSwap(s, pick)
    case FallAsleep => s.(pc := Sleeping)
    case Check =>
      if s.stop && !WillSwap(s) then
        (if s.consumer.written == [] then s else FlushConsumer(s)).(pc := Exited)
      else s.(pc := Flushing)
    case Flush => FlushConsumer(s).(pc := Starting)
  }

  function Start(safe: bool, cfg: Config): State {
    State(safe, cfg, Empty(cfg), Empty(cfg), false, Starting, map[], map[], [], [], [], false)
  }

  ghost predicate Run(s: State, acts: seq<Action>, d: State)
    decreases |acts|
  {
    if acts == [] then s == d else Enabled(s, acts[0]) && Run(Step(s, acts[0]), acts[1..], d)
  }

  lemma RunOne(s: State, a: Action)
    requires Enabled(s, a)
    ensures Run(s, [a], Step(s, a))
  {
    assert [a][1..] == [];
  }

  lemma {:induction false} RunConcat(s: State, xs: seq<Action>, d: State, ys: seq<Action>, e: State)
    requires Run(s, xs, d) && Run(d, ys, e)
    ensures Run(s, xs + ys, e)
    decreases |xs|
  {
    if xs == [] {
      assert xs + ys == ys;
    } else {
      assert (xs + ys)[1..] == xs[1..] + ys;
      RunConcat(Step(s, xs[0]), xs[1..], d, ys, e);
    }
  }

  // ---------------------------------------------------------------- what a push comes to

  /** What becomes of a message that a producer brings or brings again: it waits exactly in SAFE mode when it
      is longer than the room left; otherwise it is accepted behind what is in the buffer, which wakes a
      sleeping worker, unless its copy throws or overruns. */
  ghost predicate Delivered(s: State, who: Thread, msg: seq<byte>, t: State) {
    var room := s.producer.size - |s.producer.written|;
    if s.safe && |msg| > room then
      t == s.(asleep := s.asleep[who := msg], notified := s.notified - {who})
    else if Throws(s.cfg, s.producer, |msg|) then
      t == s.(lost := s.lost + [msg], notified := s.notified - {who})
    else if Overruns(s.cfg, s.producer, |msg|) then t.overrun
    else
      && t.accepted == s.accepted + msg && t.producer.written == s.producer.written + msg
      && who !in t.notified && t.asleep == s.asleep
      && t.pc == (if s.pc == Sleeping then Woken else s.pc)
  }

  lemma PushOutcome(s: State, who: Thread, msg: seq<byte>)
    requires Enabled(s, Push(who, msg))
    ensures s.stop ==> Step(s, Push(who, msg)) == s
    ensures !s.stop ==> Delivered(s, who, msg, Step(s, Push(who, msg)))
  {
    assert s.notified - {who} == s.notified;
  }

  /** The stop flag is not looked at again after the wait. */
  lemma ResumeOutcome(s: State, who: Thread)
    requires Enabled(s, Resume(who))
    ensures Delivered(s, who, s.notified[who], Step(s, Resume(who)))
  {
  }

  // ---------------------------------------------------------------- log conservation

  /** Flushed bytes, then the consumer's, then the producer's are the accepted pushes in lock order; the
      consumer is empty outside a hand-over, and the producer buffer is empty while the worker checks. */
  ghost predicate Conserved(s: State) {
    && Flatten(s.flushes) + s.consumer.written + s.producer.written == s.accepted
    && (s.pc != Checking && s.pc != Flushing ==> s.consumer.written == [])
    && (s.pc == Checking || s.pc == GoingToSleep || s.pc == Sleeping ==> s.producer.written == [])
    && (s.pc == Exited ==> s.stop)
    && s.producer.Ok() && s.consumer.Ok() && s.producer.read == 0 && s.consumer.read == 0
    && (!s.safe ==> s.asleep == map[] && s.notified == map[])
  }

  lemma FlushConserves(s: State)
    ensures var t := FlushConsumer(s);
      && Flatten(t.flushes) + t.consumer.written == Flatten(s.flushes) + s.consumer.written
      && t == s.(flushes := t.flushes, consumer := t.consumer) && t.consumer == Buf(s.consumer.size, [], 0)
  {
    var t := FlushConsumer(s);
    assert t.flushes[..|t.flushes| - 1] == s.flushes;
  }

  lemma LockConserves(s: State, pick: Thread)
    requires Conserved(s) && Enabled(s, Lock(pick))
    ensures Conserved(LockAndSwap(s, pick))
  {
    hide Flatten;
    assert Flatten(s.flushes) + [] + s.producer.written == Flatten(s.flushes) + s.producer.written + [];
  }

  lemma AcceptConserves(s: State, msg: seq<byte>)
    requires Flatten(s.flushes) + s.consumer.written + s.producer.written == s.accepted
    ensures var t := Accept(s, msg); Flatten(t.flushes) + t.consumer.written + t.producer.written == t.accepted
  {
    assert Flatten(s.flushes) + s.consumer.written + (s.producer.written + msg) == s.accepted + msg;
  }

  lemma CopyConserves(s: State, msg: seq<byte>)
    requires Conserved(s) && MutexFree(s)
    ensures Conserved(Copy(s, msg))
  {
    hide Flatten, Throws, Overruns, PushTo;
    if MayCopy(s, msg) {
      FitsIsOk(s.cfg, s.producer, msg);
      AcceptConserves(s, msg);
    }
  }

  lemma StepConserves(s: State, a: Action)
    requires Conserved(s) && Enabled(s, a)
    ensures Conserved(Step(s, a))
  {
    hide Copy, LockAndSwap, FlushConsumer, Flatten;
    match a
    case Push(_, msg) => CopyConserves(s, msg);
    case Resume(who) => CopyConserves(s.(notified := s.notified - {who}), s.notified[who]);
    case Lock(pick) => LockConserves(s, pick);
    case Check => FlushConserves(s);
    case Flush => FlushConserves(s);
    case _ =>
  }

  lemma {:induction false} RunConserves(s: State, acts: seq<Action>, d: State)
    requires Conserved(s) && Run(s, acts, d)
    ensures Conserved(d)
    decreases |acts|
  {
    if acts != [] {
      StepConserves(s, acts[0]);
      RunConserves(Step(s, acts[0]), acts[1..], d);
    }
  }

  /** Log conservation over every run, in both modes and whatever `Stop` does. */
  lemma LogIsConserved(safe: bool, cfg: Config, acts: seq<Action>, d: State)
    requires Run(Start(safe, cfg), acts, d)
    ensures Flatten(d.flushes) + d.consumer.written + d.producer.written == d.accepted
  {
    RunConserves(Start(safe, cfg), acts, d);
  }

  // ---------------------------------------------------------------- exit

  predicate NobodyBlocked(s: State) { s.asleep == map[] && s.notified == map[] }

  /** At the moment the worker exits everything accepted so far has been flushed. */
  lemma ExitFlushesEverything(s: State)
    requires Conserved(s) && s.pc == Checking && s.stop && !s.overrun
    ensures Step(s, Check).pc == Exited && Flatten(Step(s, Check).flushes) == s.accepted == Step(s, Check).accepted
  {
    StepConserves(s, Check);
  }

  lemma {:induction false} ClosedStaysClosed(s: State, acts: seq<Action>, d: State)
    requires s.pc == Exited && s.stop && NobodyBlocked(s) && Run(s, acts, d)
    ensures d.accepted == s.accepted && d.flushes == s.flushes && d.pc == Exited
    decreases |acts|
  {
    if acts != [] {
      ClosedStaysClosed(Step(s, acts[0]), acts[1..], d);
    }
  }

  /** When it exits with no producer in the space wait, nothing is ever accepted afterwards. */
  lemma CleanExit(s: State, acts: seq<Action>, d: State)
    requires Conserved(s) && s.pc == Checking && s.stop && !s.overrun && NobodyBlocked(s) && Run(Step(s, Check), acts, d)
    ensures Flatten(d.flushes) == d.accepted == s.accepted
  {
    ExitFlushesEverything(s);
    ClosedStaysClosed(Step(s, Check), acts, d);
  }

  /** In the mode without space wait every exit is clean. */
  lemma UnsafeExitIsClean(cfg: Config, before: seq<Action>, s: State, after: seq<Action>, d: State)
    requires Run(Start(false, cfg), before, s) && s.pc == Checking && s.stop && !s.overrun && Run(Step(s, Check), after, d)
    ensures Flatten(d.flushes) == d.accepted == s.accepted
  {
    RunConserves(Start(false, cfg), before, s);
    RunKeepsMode(Start(false, cfg), before, s);
    CleanExit(s, after, d);
  }

  lemma StepKeepsMode(s: State, a: Action)
    requires Enabled(s, a)
    ensures Step(s, a).safe == s.safe && Step(s, a).cfg == s.cfg
  {
    hide Throws, Overruns, PushTo;
  }

  lemma {:induction false} RunKeepsMode(s: State, acts: seq<Action>, d: State)
    requires Run(s, acts, d)
    ensures d.safe == s.safe && d.cfg == s.cfg
    decreases |acts|
  {
    hide Step, Enabled;
    if acts != [] {
      StepKeepsMode(s, acts[0]);
      RunKeepsMode(Step(s, acts[0]), acts[1..], d);
    }
  }

  // ---------------------------------------------------------------- sleeping and waking in SAFE mode

  /** The messages in the space wait: not empty, and no longer than an empty buffer. */
  ghost predicate SmallMessages(m: map<Thread, seq<byte>>, bound: nat) {
    forall who :: who in m ==> 0 < |m[who]| <= bound
  }

  /**
   A producer asleep implies bytes in the producer buffer or a producer already notified; a worker asleep
   implies an empty producer buffer. Buffers never shrink below their initial size, and a message of just
   that size does not make an empty buffer throw.
   */
  ghost predicate Alert(s: State) {
    && s.safe && !s.overrun && !Throws(s.cfg, Empty(s.cfg), s.cfg.bufferSize) && Conserved(s)
    && (s.asleep != map[] ==> s.producer.written != [] || s.notified != map[])
    && SmallMessages(s.asleep, s.cfg.bufferSize) && SmallMessages(s.notified, s.cfg.bufferSize)
    && s.cfg.bufferSize <= s.producer.size && s.cfg.bufferSize <= s.consumer.size
  }

  predicate SmallPush(a: Action, bound: nat) { a.Push? ==> |a.msg| <= bound }

  predicate SmallPushes(acts: seq<Action>, bound: nat) {
    forall i :: 0 <= i < |acts| ==> SmallPush(acts[i], bound)
  }

  /** In SAFE mode a copy grows the vector only on an exact fit, and then the copy itself needs the new
      size to be no smaller: whatever the size computation does, no vector shrinks. */
  lemma CopyKeepsSize(s: State, msg: seq<byte>)
    requires s.safe && MayCopy(s, msg) && !MustWait(s, msg)
    ensures s.producer.size <= SizeFor(s.cfg, s.producer, |msg|)
  {
  }

  /** When the copy of a SAFE-mode push that need not wait goes wrong: exactly on an exact fit whose growth
      computes a smaller vector, which the copy overruns, or one that no vector can be, which throws. */
  lemma CopyFailsIff(s: State, msg: seq<byte>)
    requires s.safe && s.producer.Ok() && !MustWait(s, msg)
    ensures Overruns(s.cfg, s.producer, |msg|) <==>
      && |msg| == s.producer.Writeable()
      && Grown(s.cfg, s.producer.size) < s.producer.size && Grown(s.cfg, s.producer.size) <= MAX_VECTOR
    ensures Throws(s.cfg, s.producer, |msg|)
      <==> |msg| == s.producer.Writeable() && Grown(s.cfg, s.producer.size) > MAX_VECTOR
  {
  }

  lemma PushStaysAlert(s: State, who: Thread, msg: seq<byte>)
    requires Alert(s) && Enabled(s, Push(who, msg)) && |msg| <= s.cfg.bufferSize && !Step(s, Push(who, msg)).overrun
    ensures Alert(Step(s, Push(who, msg))) && Step(s, Push(who, msg)).cfg == s.cfg
  {
    hide Flatten, SizeFor, Throws, Overruns;
    StepConserves(s, Push(who, msg));
    if !s.stop && !MustWait(s, msg) && MayCopy(s, msg) { CopyKeepsSize(s, msg); }
  }

  /** An exception takes the notification with it, but it comes only on an exact fit: with the provision
      of `Alert`, in a buffer that is not empty, so that the worker will notify again. */
  lemma ThrowLeavesBytes(s: State, msg: seq<byte>)
    requires Alert(s) && |msg| <= s.cfg.bufferSize && !MustWait(s, msg) && Throws(s.cfg, s.producer, |msg|)
    ensures s.producer.written != []
  {
    CopyFailsIff(s, msg);
  }

  lemma ResumeStaysAlert(s: State, who: Thread)
    requires Alert(s) && Enabled(s, Resume(who)) && !Step(s, Resume(who)).overrun
    ensures Alert(Step(s, Resume(who))) && Step(s, Resume(who)).cfg == s.cfg
  {
    hide Flatten, SizeFor, Throws, Overruns;
    var msg := s.notified[who];
    StepConserves(s, Resume(who));
    if !MustWait(s, msg) {
      if MayCopy(s, msg) { CopyKeepsSize(s, msg); }
      if Throws(s.cfg, s.producer, |msg|) { ThrowLeavesBytes(s, msg); }
    }
  }

  lemma LockStaysAlert(s: State, pick: Thread)
    requires Alert(s) && Enabled(s, Lock(pick))
    ensures Alert(Step(s, Lock(pick))) && Step(s, Lock(pick)).cfg == s.cfg
  {
    hide Throws, Conserved;
    assert Conserved(s);
    StepConserves(s, Lock(pick));
    assert s.asleep != map[] && WillSwap(s) ==> pick in Step(s, Lock(pick)).notified;
  }

  lemma OtherStaysAlert(s: State, a: Action)
    requires Alert(s) && Enabled(s, a) && !a.Push? && !a.Resume? && !a.Lock?
    ensures Alert(Step(s, a)) && Step(s, a).cfg == s.cfg
  {
    hide Throws, Conserved, Copy, LockAndSwap;
    StepConserves(s, a);
    if a.SpuriousProducer? { assert a.who in Step(s, a).notified; }
  }

  lemma StepStaysAlert(s: State, a: Action)
    requires Alert(s) && Enabled(s, a) && SmallPush(a, s.cfg.bufferSize) && !Step(s, a).overrun
    ensures Alert(Step(s, a)) && Step(s, a).cfg == s.cfg
  {
    hide Alert, Step, Enabled;
    match a
    case Push(who, msg) => PushStaysAlert(s, who, msg);
    case Resume(who) => ResumeStaysAlert(s, who);
    case Lock(pick) => LockStaysAlert(s, pick);
    case _ => OtherStaysAlert(s, a);
  }

  lemma OverrunIsTheEnd(s: State, acts: seq<Action>, d: State)
    requires Run(s, acts, d) && s.overrun
    ensures d == s
  {
  }

  lemma {:induction false} RunStaysAlert(s: State, acts: seq<Action>, d: State)
    requires Alert(s) && Run(s, acts, d) && SmallPushes(acts, s.cfg.bufferSize) && !d.overrun
    ensures Alert(d) && d.cfg == s.cfg
    decreases |acts|
  {
    hide Alert, Step, Enabled;
    if acts != [] {
      if Step(s, acts[0]).overrun { OverrunIsTheEnd(Step(s, acts[0]), acts[1..], d); }
      StepStaysAlert(s, acts[0]);
      RunStaysAlert(Step(s, acts[0]), acts[1..], d);
    }
  }

  lemma StartIsAlert(cfg: Config)
    requires !Throws(cfg, Empty(cfg), cfg.bufferSize)
    ensures Alert(Start(true, cfg))
  {
  }

  /** In every run whose messages fit an empty buffer, whichever copies threw, a sleeping producer has bytes
      before it or a notified colleague, a sleeping worker has an empty buffer before it, so they never all
      sleep, provided a message as long as the initial buffer does not make that buffer throw. */
  lemma NeverAllAsleep(cfg: Config, acts: seq<Action>, d: State)
    requires !Throws(cfg, Empty(cfg), cfg.bufferSize)
    requires Run(Start(true, cfg), acts, d) && SmallPushes(acts, cfg.bufferSize) && !d.overrun
    ensures d.asleep != map[] ==> d.producer.written != [] || d.notified != map[]
    ensures d.pc == Sleeping ==> d.producer.written == []
    ensures d.pc == Sleeping && d.asleep != map[] ==> d.notified != map[]
  {
    RunStaysAlert(Start(true, cfg), acts, d);
  }

  /** The vector is not of fixed size in SAFE mode: a push or a resumed push that copies changes it exactly
      on an exact fit, unless the growth computes the size it had. */
  lemma SafeCopyGrowsIff(s: State, a: Action, msg: seq<byte>)
    requires s.safe && Enabled(s, a) && !MustWait(s, msg) && MayCopy(s, msg)
    requires (a.Push? && a.msg == msg && !s.stop) || (a.Resume? && s.notified[a.who] == msg)
    ensures Step(s, a).producer.size != s.producer.size
      <==> |msg| == s.producer.Writeable() && Grown(s.cfg, s.producer.size) != s.producer.size
  {
  }

  predicate Voluntary(a: Action) { a.Lock? || a.FallAsleep? || a.Check? || a.Flush? || a.Resume? }

  /** The worker and the notified producers get from `s` to `d` by themselves. */
  ghost predicate Unaided(s: State, acts: seq<Action>, d: State) {
    Run(s, acts, d) && forall i :: 0 <= i < |acts| ==> Voluntary(acts[i])
  }

  /** In `d` the buffer is empty, the mutex free and a producer notified; nothing was accepted since `s`. */
  ghost predicate RoomMade(s: State, d: State) {
    Alert(d) && d.producer.written == [] && d.notified != map[] && MutexFree(d) && d.accepted == s.accepted && d.cfg == s.cfg
  }

  /** An empty producer buffer takes a notified producer's message at once. */
  lemma NotifiedGetsIn(s: State, who: Thread)
    requires Alert(s) && MutexFree(s) && who in s.notified && s.producer.written == [] && Fits(s.cfg, Empty(s.cfg), s.cfg.bufferSize)
    ensures Enabled(s, Resume(who)) && Step(s, Resume(who)).accepted == s.accepted + s.notified[who]
    ensures |s.accepted| < |Step(s, Resume(who)).accepted|
  {
  }

  /** The bound on messages is exact: even an empty buffer takes a notified message only if it fits. */
  lemma EmptyBufferTakesIff(s: State, who: Thread)
    requires s.safe && s.producer.written == [] && Enabled(s, Resume(who)) && |s.notified[who]| > 0
    ensures Step(s, Resume(who)).accepted == s.accepted + s.notified[who]
      <==> |s.notified[who]| <= s.producer.size && MayCopy(s, s.notified[who])
    ensures |s.notified[who]| > s.producer.size ==> who in Step(s, Resume(who)).asleep
  {
  }

  /** The worker, about to lock with bytes in the producer buffer, swaps, notifies and lets go. */
  lemma WorkerSwapsNow(s: State) returns (acts: seq<Action>, d: State)
    requires Alert(s) && !s.stop && s.producer.written != [] && !NobodyBlocked(s)
    requires s.pc == Starting || s.pc == Woken
    ensures |acts| <= 2 && Unaided(s, acts, d) && RoomMade(s, d)
  {
    var pick: Thread := 0;
    if s.asleep != map[] { pick :| pick in s.asleep; }
    var m := Step(s, Lock(pick));
    StepStaysAlert(s, Lock(pick));
    RunOne(s, Lock(pick));
    assert s.asleep != map[] ==> pick in m.notified;
    d := Step(m, Check);
    StepStaysAlert(m, Check);
    RunOne(m, Check);
    RunConcat(s, [Lock(pick)], m, [Check], d);
    acts := [Lock(pick)] + [Check];
  }

  /** From any position with bytes in the producer buffer the worker gets there. */
  lemma WorkerSwaps(s: State) returns (acts: seq<Action>, d: State)
    requires Alert(s) && !s.stop && s.producer.written != [] && !NobodyBlocked(s)
    ensures |acts| <= 3 && Unaided(s, acts, d) && RoomMade(s, d)
  {
    if s.pc == Flushing {
      var m := Step(s, Flush);
      StepStaysAlert(s, Flush);
      RunOne(s, Flush);
      hide Alert, Run;
      acts, d := WorkerSwapsNow(m);
      RunConcat(s, [Flush], m, acts, d);
      acts := [Flush] + acts;
    } else {
      acts, d := WorkerSwapsNow(s);
    }
  }

  /** With an empty producer buffer the worker need only let go of the mutex. */
  lemma WorkerLetsGo(s: State) returns (acts: seq<Action>, d: State)
    requires Alert(s) && !s.stop && s.producer.written == [] && !NobodyBlocked(s)
    ensures |acts| <= 1 && Unaided(s, acts, d) && RoomMade(s, d)
  {
    acts, d := [], s;
    if s.pc == GoingToSleep {
      d := Step(s, FallAsleep);
      StepStaysAlert(s, FallAsleep);
      RunOne(s, FallAsleep);
      acts := [FallAsleep];
    } else if s.pc == Checking {
      d := Step(s, Check);
      StepStaysAlert(s, Check);
      RunOne(s, Check);
      acts := [Check];
    }
  }

  lemma SomeoneGetsIn(s: State) returns (acts: seq<Action>, d: State)
    requires Alert(s) && !s.stop && !NobodyBlocked(s)
    requires Fits(s.cfg, Empty(s.cfg), s.cfg.bufferSize)
    ensures |acts| <= 4 && Unaided(s, acts, d) && |s.accepted| < |d.accepted|
  {
    var m;
    if s.producer.written != [] {
      acts, m := WorkerSwaps(s);
    } else {
      acts, m := WorkerLetsGo(s);
    }
    var who :| who in m.notified;
    NotifiedGetsIn(m, who);
    d := Step(m, Resume(who));
    RunOne(m, Resume(who));
    RunConcat(s, acts, m, [Resume(who)], d);
    acts := acts + [Resume(who)];
  }

  /**
   SAFE-mode deadlock freedom: in every run whose messages fit an empty buffer, while not stopped, whenever
   a producer is in the space wait, the worker and the notified producers alone, with no spurious wakeup
   and no new push, get some waiting message accepted within four steps.
   */
  lemma NeverStuck(cfg: Config, before: seq<Action>, s: State) returns (acts: seq<Action>, d: State)
    requires Fits(cfg, Empty(cfg), cfg.bufferSize)
    requires Run(Start(true, cfg), before, s) && SmallPushes(before, cfg.bufferSize)
    requires !s.overrun && !s.stop && !NobodyBlocked(s)
    ensures |acts| <= 4 && Unaided(s, acts, d) && |s.accepted| < |d.accepted|
  {
    hide Run, Overruns, Flatten, Unaided;
    StartIsAlert(cfg);
    hide Alert;
    RunStaysAlert(Start(true, cfg), before, s);
    acts, d := SomeoneGetsIn(s);
  }

  /**
   The provision is exact: where a message as long as the whole initial buffer does not fit after the one
   growth, a run in which nothing has failed yet leads to an empty buffer and two producers with such a
   message in the space wait, the one notified and with its wait over, the other asleep.
   */
  ghost predicate AboutToFail(s: State, who: Thread, next: Thread) {
    && s.safe && !s.stop && s.pc == Starting && NoFailure(s) && s.producer == Empty(s.cfg) && s.consumer == Empty(s.cfg)
    && s.notified.Keys == {who} && |s.notified[who]| == s.cfg.bufferSize && s.asleep.Keys == {next} && who != next
    && !Fits(s.cfg, s.producer, s.cfg.bufferSize)
  }

  lemma FullMessageFails(cfg: Config, who: Thread, next: Thread, other: Thread) returns (before: seq<Action>, s: State)
    requires cfg.bufferSize > 1 && !Fits(cfg, Empty(cfg), cfg.bufferSize) && who != next && who != other && next != other
    ensures Run(Start(true, cfg), before, s) && SmallPushes(before, cfg.bufferSize) && AboutToFail(s, who, next)
  {
    var full: seq<byte> := seq(cfg.bufferSize, _ => 0);
    var s0 := Start(true, cfg);
    var s1 := Step(s0, Push(other, [0]));
    var s2 := Step(s1, Push(who, full));
    var s3 := Step(s2, Push(next, full));
    var s4 := Step(s3, Lock(who));
    var s5 := Step(s4, Check);
    s := Step(s5, Flush);
    assert s3.asleep.Keys == {who, next} && s4.notified.Keys == {who} && s4.asleep.Keys == {next};
    var a01, a23, a45 := [Push(other, [0])] + [Push(who, full)], [Push(next, full)] + [Lock(who)], [Check] + [Flush];
    RunTwo(s0, Push(other, [0]), Push(who, full));
    RunTwo(s2, Push(next, full), Lock(who));
    RunTwo(s4, Check, Flush);
    hide Run, Step, Enabled;
    RunConcat(s0, a01, s2, a23, s4);
    RunConcat(s0, a01 + a23, s4, a45, s);
    before := a01 + a23 + a45;
  }

  lemma RunTwo(s: State, a: Action, b: Action)
    requires Enabled(s, a) && Enabled(Step(s, a), b)
    ensures Run(s, [a] + [b], Step(Step(s, a), b))
  {
    hide Enabled, Step;
    RunOne(s, a);
    RunOne(Step(s, a), b);
    RunConcat(s, [a], Step(s, a), [b], Step(Step(s, a), b));
  }

  /** What then happens: the notified producer leaves the wait and its copy overruns the vector, or throws. */
  lemma FullCopyFails(s: State, who: Thread, next: Thread)
    requires AboutToFail(s, who, next)
    ensures Enabled(s, Resume(who)) && !MustWait(s, s.notified[who]) && !NoFailure(Step(s, Resume(who)))
    ensures Step(s, Resume(who)).accepted == s.accepted
    ensures Throws(s.cfg, s.producer, s.cfg.bufferSize) ==> Stranded(Step(s, Resume(who)), next)
  {
    assert who in s.notified;
    assert s.notified - {who} == map[];
    assert next in s.asleep;
  }

  /** Everybody waits: an empty buffer, a producer asleep and nobody notified. */
  ghost predicate Stranded(s: State, next: Thread) {
    && !s.stop && s.producer.written == [] && next in s.asleep && s.notified == map[]
    && (s.pc == Starting || s.pc == GoingToSleep || s.pc == Sleeping)
  }

  /** An exception takes the notification with it: without a spurious wakeup, a further push or a stop the
      next producer sleeps for good, before a buffer that is empty. */
  lemma {:induction false} StrandedForGood(s: State, next: Thread, acts: seq<Action>, d: State)
    requires Stranded(s, next) && Unaided(s, acts, d)
    ensures Stranded(d, next) && d.accepted == s.accepted
    decreases |acts|
  {
    if acts != [] {
      assert Voluntary(acts[0]);
      assert forall i :: 0 <= i < |acts[1..]| ==> acts[1..][i] == acts[i + 1];
      StrandedForGood(Step(s, acts[0]), next, acts[1..], d);
    }
  }

  /** Some run with messages that fit an empty buffer, and without an overrun, strands a producer. */
  ghost predicate CanStrand(cfg: Config) {
    exists acts, d, next ::
      Run(Start(true, cfg), acts, d) && SmallPushes(acts, cfg.bufferSize) && !d.overrun && Stranded(d, next)
  }

  /** A buffer of a single byte that throws when it is filled takes nothing, and an empty one is never too
      small for the messages that fit it: nobody ever waits for either. */
  lemma {:induction false} TinyNeverBlocks(s: State, acts: seq<Action>, d: State)
    requires s.cfg.bufferSize <= 1 && Throws(s.cfg, Empty(s.cfg), s.cfg.bufferSize)
    requires Conserved(s) && NobodyBlocked(s) && (s.cfg.bufferSize == 1 ==> s.producer == s.consumer == Empty(s.cfg))
    requires Run(s, acts, d) && SmallPushes(acts, s.cfg.bufferSize)
    ensures NobodyBlocked(d)
    decreases |acts|
  {
    if acts != [] {
      TinyStep(s, acts[0]);
      hide Step, Enabled, Conserved, Throws, Overruns;
      TinyNeverBlocks(Step(s, acts[0]), acts[1..], d);
    }
  }

  lemma TinyStep(s: State, a: Action)
    requires s.cfg.bufferSize <= 1 && Throws(s.cfg, Empty(s.cfg), s.cfg.bufferSize)
    requires Conserved(s) && NobodyBlocked(s) && (s.cfg.bufferSize == 1 ==> s.producer == s.consumer == Empty(s.cfg))
    requires Enabled(s, a) && SmallPush(a, s.cfg.bufferSize)
    ensures var t := Step(s, a);
      && t.cfg == s.cfg && Conserved(t) && NobodyBlocked(t)
      && (s.cfg.bufferSize == 1 ==> t.producer == t.consumer == Empty(s.cfg))
  {
    hide Flatten;
    StepConserves(s, a);
    StepKeepsMode(s, a);
    if a.Push? && |a.msg| == 0 { assert s.producer.written + a.msg == s.producer.written; }
  }

  /** Exactly when an exception can strand a producer: when a message as long as the initial buffer makes
      that buffer throw, and the buffer is long enough for anybody to wait at all. */
  lemma StrandsIff(cfg: Config)
    ensures CanStrand(cfg) <==> cfg.bufferSize > 1 && Throws(cfg, Empty(cfg), cfg.bufferSize)
  {
    if !Throws(cfg, Empty(cfg), cfg.bufferSize) {
      forall acts, d, next | Run(Start(true, cfg), acts, d) && SmallPushes(acts, cfg.bufferSize) && !d.overrun
        ensures !Stranded(d, next)
      {
        NeverAllAsleep(cfg, acts, d);
      }
    } else if cfg.bufferSize <= 1 {
      forall acts, d, next | Run(Start(true, cfg), acts, d) && SmallPushes(acts, cfg.bufferSize) ensures !Stranded(d, next) {
        TinyNeverBlocks(Start(true, cfg), acts, d);
      }
    } else {
      ThrowStrands(cfg);
    }
  }

  lemma ThrowStrands(cfg: Config)
    requires cfg.bufferSize > 1 && Throws(cfg, Empty(cfg), cfg.bufferSize)
    ensures CanStrand(cfg)
  {
    var before, s := FullMessageFails(cfg, 0, 1, 2);
    FullCopyFails(s, 0, 1);
    var d := Step(s, Resume(0));
    RunOne(s, Resume(0));
    RunKeepsMode(Start(true, cfg), before, s);
    assert !d.overrun;
    hide Step, Enabled, Run;
    RunConcat(Start(true, cfg), before, s, [Resume(0)], d);
    assert SmallPushes(before + [Resume(0)], cfg.bufferSize);
  }

  // ---------------------------------------------------------------- the log makes progress

  predicate WorkerStep(a: Action) { a.Lock? || a.Check? || a.Flush? }

  /** The worker gets from `s` to `d` by itself. */
  ghost predicate ByWorker(s: State, acts: seq<Action>, d: State) {
    Run(s, acts, d) && forall i :: 0 <= i < |acts| ==> WorkerStep(acts[i])
  }

  ghost predicate AllFlushed(s: State, d: State) { Flatten(d.flushes) == s.accepted && d.accepted == s.accepted }

  lemma NothingToFlush(s: State)
    requires Conserved(s) && s.consumer.written == [] && s.producer.written == []
    ensures AllFlushed(s, s)
  {
    hide Flatten;
  }

  lemma CheckedIsFlushed(s: State) returns (acts: seq<Action>, d: State)
    requires Conserved(s) && !s.overrun && s.pc == Checking
    ensures |acts| <= 2 && ByWorker(s, acts, d) && AllFlushed(s, d)
  {
    hide Flatten, FlushConsumer;
    FlushConserves(s);
    var m := Step(s, Check);
    RunOne(s, Check);
    acts, d := [Check], m;
    if m.pc == Flushing {
      d := Step(m, Flush);
      FlushConserves(m);
      RunOne(m, Flush);
      RunConcat(s, [Check], m, [Flush], d);
      acts := [Check] + [Flush];
    }
  }

  lemma SwappedIsFlushed(s: State) returns (acts: seq<Action>, d: State)
    requires Conserved(s) && !s.overrun && (s.pc == Starting || s.pc == Woken)
    ensures |acts| <= 3 && ByWorker(s, acts, d) && AllFlushed(s, d)
  {
    if !WillSwap(s) {
      NothingToFlush(s);
      return [], s;
    }
    var pick: Thread := 0;
    if s.asleep != map[] { pick :| pick in s.asleep; }
    var m := Step(s, Lock(pick));
    StepConserves(s, Lock(pick));
    RunOne(s, Lock(pick));
    hide Flatten, Conserved;
    acts, d := CheckedIsFlushed(m);
    RunConcat(s, [Lock(pick)], m, acts, d);
    acts := [Lock(pick)] + acts;
  }

  /** From every state but an exited worker's, stopped or not, the worker's own steps flush everything that
      has been accepted, within four of them. */
  lemma EverythingGetsFlushed(s: State) returns (acts: seq<Action>, d: State)
    requires Conserved(s) && !s.overrun && s.pc != Exited
    ensures |acts| <= 4 && ByWorker(s, acts, d) && AllFlushed(s, d)
  {
    if s.pc == GoingToSleep || s.pc == Sleeping {
      NothingToFlush(s);
      acts, d := [], s;
    } else if s.pc == Checking {
      acts, d := CheckedIsFlushed(s);
    } else if s.pc == Flushing {
      var m := Step(s, Flush);
      StepConserves(s, Flush);
      RunOne(s, Flush);
      acts, d := SwappedIsFlushed(m);
      RunConcat(s, [Flush], m, acts, d);
      acts := [Flush] + acts;
    } else {
      acts, d := SwappedIsFlushed(s);
    }
  }

  /** So in every run: what has been accepted gets to the sinks without anybody's help. */
  lemma AcceptedGetsFlushed(safe: bool, cfg: Config, before: seq<Action>, s: State) returns (acts: seq<Action>, d: State)
    requires Run(Start(safe, cfg), before, s) && !s.overrun && s.pc != Exited
    ensures |acts| <= 4 && ByWorker(s, acts, d) && AllFlushed(s, d)
  {
    RunConserves(Start(safe, cfg), before, s);
    acts, d := EverythingGetsFlushed(s);
  }

  // ---------------------------------------------------------------- what the stop flag leaves open

  /**
   The condition of a clean exit is exact: a producer in the space wait when the worker exits can still
   get its message accepted, and then it is never flushed.
   */
  lemma BlockedProducerOutlivesWorker(s: State, who: Thread) returns (acts: seq<Action>, d: State)
    requires Alert(s) && s.pc == Checking && s.stop && (who in s.asleep || who in s.notified)
    requires Fits(s.cfg, Empty(s.cfg), s.cfg.bufferSize)
    ensures Run(Step(s, Check), acts, d)
    ensures d.pc == Exited && |s.accepted| < |d.accepted| && Flatten(d.flushes) == s.accepted
  {
    hide Flatten, Throws, Overruns, PushTo;
    var t := Step(s, Check);
    StepStaysAlert(s, Check);
    ExitFlushesEverything(s);
    acts := [];
    var m := t;
    if who in s.asleep {
      m := Step(t, SpuriousProducer(who));
      StepStaysAlert(t, SpuriousProducer(who));
      RunOne(t, SpuriousProducer(who));
      acts := [SpuriousProducer(who)];
    }
    NotifiedGetsIn(m, who);
    d := Step(m, Resume(who));
    RunOne(m, Resume(who));
    RunConcat(t, acts, m, [Resume(who)], d);
    acts := acts + [Resume(who)];
  }

  /** A worker that has not gone to sleep needs nobody to act on the stop flag: it exits in three steps. */
  lemma StopIsSeenAwake(s: State) returns (acts: seq<Action>, d: State)
    requires Conserved(s) && s.stop && !s.overrun && s.pc != GoingToSleep && s.pc != Sleeping && s.pc != Exited
    ensures |acts| <= 3 && Unaided(s, acts, d) && d.pc == Exited
  {
    if s.pc == Checking {
      acts, d := [Check], Step(s, Check);
      RunOne(s, Check);
    } else if s.pc == Flushing {
      var m := Step(s, Flush);
      RunOne(s, Flush);
      StepConserves(s, Flush);
      acts, d := StopIsSeenAtTheTop(m);
      RunConcat(s, [Flush], m, acts, d);
      acts := [Flush] + acts;
    } else {
      acts, d := StopIsSeenAtTheTop(s);
    }
  }

  lemma StopIsSeenAtTheTop(s: State) returns (acts: seq<Action>, d: State)
    requires Conserved(s) && s.stop && !s.overrun && (s.pc == Starting || s.pc == Woken)
    ensures |acts| <= 2 && Unaided(s, acts, d) && d.pc == Exited
  {
    var pick: Thread := 0;
    if s.asleep != map[] { pick :| pick in s.asleep; }
    var m := Step(s, Lock(pick));
    RunOne(s, Lock(pick));
    d := Step(m, Check);
    RunOne(m, Check);
    RunConcat(s, [Lock(pick)], m, [Check], d);
    acts := [Lock(pick)] + [Check];
  }

  predicate Wakes(a: Action) { a == SpuriousWorker || a == NotifyStop }

  /** A worker that is going to sleep, with nobody in the space wait, sleeps until it is woken again. */
  lemma {:induction false} StopIsMissedAsleep(s: State, acts: seq<Action>, d: State)
    requires s.stop && (s.pc == GoingToSleep || s.pc == Sleeping) && NobodyBlocked(s) && Run(s, acts, d)
    requires forall i :: 0 <= i < |acts| ==> !Wakes(acts[i])
    ensures (d.pc == GoingToSleep || d.pc == Sleeping) && d.stop && d.accepted == s.accepted
    decreases |acts|
  {
    if acts != [] {
      assert !Wakes(acts[0]);
      assert forall i :: 0 <= i < |acts[1..]| ==> acts[1..][i] == acts[i + 1];
      StopIsMissedAsleep(Step(s, acts[0]), acts[1..], d);
    }
  }

  /** Some run of the worker and the notified producers alone ends the worker. */
  ghost predicate CanExit(s: State) { exists acts, d :: Unaided(s, acts, d) && d.pc == Exited }

  /** A producer already notified has room for its message. */
  predicate GetsIn(s: State, who: Thread) {
    who in s.notified && !MustWait(s, s.notified[who]) && MayCopy(s, s.notified[who])
  }

  lemma {:induction false} SleepsOn(s: State, acts: seq<Action>, d: State)
    requires s.stop && (s.pc == GoingToSleep || s.pc == Sleeping) && (forall who :: !GetsIn(s, who)) && Unaided(s, acts, d)
    ensures d.pc == GoingToSleep || d.pc == Sleeping
    decreases |acts|
  {
    if acts != [] {
      assert Voluntary(acts[0]);
      assert forall i :: 0 <= i < |acts[1..]| ==> acts[1..][i] == acts[i + 1];
      var t := Step(s, acts[0]);
      assert acts[0].Resume? ==> !GetsIn(s, acts[0].who);
      assert forall who :: GetsIn(t, who) ==> GetsIn(s, who);
      SleepsOn(t, acts[1..], d);
    }
  }

  lemma ArrivalWakes(s: State, who: Thread) returns (acts: seq<Action>, d: State)
    requires Conserved(s) && s.stop && !s.overrun && s.pc == GoingToSleep && GetsIn(s, who)
    ensures Unaided(s, acts, d) && d.pc == Exited
  {
    var m := Step(s, FallAsleep);
    var t := Step(m, Resume(who));
    StepConserves(s, FallAsleep);
    StepConserves(m, Resume(who));
    RunOne(s, FallAsleep);
    RunOne(m, Resume(who));
    RunConcat(s, [FallAsleep], m, [Resume(who)], t);
    acts, d := StopIsSeenAwake(t);
    RunConcat(s, [FallAsleep] + [Resume(who)], t, acts, d);
    acts := [FallAsleep] + [Resume(who)] + acts;
  }

  /**
   `Stop` sets its flag and notifies without the mutex. Its notification is missed exactly when it falls
   between the worker's test and its sleep and no notified producer is there to wake the worker again.
   */
  lemma StopIsMissedIff(s: State)
    requires Conserved(s) && s.stop && !s.overrun
    ensures !CanExit(Step(s, NotifyStop)) <==> s.pc == GoingToSleep && forall who :: !GetsIn(s, who)
  {
    var t := Step(s, NotifyStop);
    if s.pc == Exited {
      assert Unaided(t, [], t);
    } else if s.pc == GoingToSleep {
      if who :| GetsIn(s, who) {
        var acts, d := ArrivalWakes(s, who);
      } else {
        forall acts, d | Unaided(t, acts, d) ensures d.pc != Exited {
          SleepsOn(t, acts, d);
        }
      }
    } else {
      StepConserves(s, NotifyStop);
      var acts, d := StopIsSeenAwake(t);
    }
  }

  /** Such a moment comes in every configuration, before the first message already. */
  lemma StopCanBeMissed(safe: bool, cfg: Config)
    ensures exists s :: Run(Start(safe, cfg), [Lock(0), SetStop], s) && s.stop && s.pc == GoingToSleep && NobodyBlocked(s)
  {
    var s0 := Start(safe, cfg);
    var s1 := Step(s0, Lock(0));
    RunOne(s0, Lock(0));
    RunOne(s1, SetStop);
    RunConcat(s0, [Lock(0)], s1, [SetStop], Step(s1, SetStop));
    assert [Lock(0)] + [SetStop] == [Lock(0), SetStop];
  }
}
