/**
 The event loop as an object. Its methods are the sequential code of the loop; `trace` records the
 steps of `Reactor` they perform, so that the theorems proved there apply to every reachable object.
 */
module EventLoop {
  import opened Bytes
  import opened Reactor

  /** What user code does when it runs on the loop's thread: what it queues, and whether it quits. */
  datatype Script<T> = Script(queue: seq<T>, quit: bool)

  /** What one poll brings: whether the eventfd is reported, and what the handlers then do. */
  datatype Round<T> = Round(wake: bool, handlers: Script<T>)

  class EventLoop<T(==,!new)> {
    var quit: bool
    var callingPendingFunctors: bool
    var pendingFunctors: seq<T>
    /** The counter behind `wakeupFd_`. */
    var eventfd: nat
    /** The step system this object is in, and how it got there. */
    ghost var view: Loop<T>
    ghost var trace: seq<Reactor.Action<T>>

    ghost predicate Valid()
      reads this
    {
      && view.pending == pendingFunctors && view.quit == quit && view.counter == eventfd
      && (callingPendingFunctors <==> view.phase == Swapping || view.phase == Running)
      && Reached()
    }

    ghost predicate Reached()
      reads this`view, this`trace
    {
      Run(Start<T>(), trace, view)
    }

    /** The loop's thread runs its own code with no wakeup of its own outstanding. */
    ghost predicate At(phase: Phase)
      reads this
    {
      Valid() && view.phase == phase && !view.ownerOwes && (phase != Running ==> view.batch == [])
    }

    constructor ()
      ensures At(Idle) && view == Start<T>() && trace == []
    {
      quit, callingPendingFunctors, pendingFunctors, eventfd := false, false, [], 0;
      view := Start<T>();
      trace := [];
    }

    ghost method Take(a: Reactor.Action<T>)
      requires Reached() && Enabled(view, a)
      modifies this`view, this`trace
      ensures Reached() && view == Step(old(view), a) && trace == old(trace) + [a]
      ensures OwnerQueuesInside(old(trace)) && !a.QueueOutside? ==> OwnerQueuesInside(trace)
    {
      RunOne(view, a);
      RunConcat(Start<T>(), trace, view, [a], Step(view, a));
      view := Step(view, a);
      trace := trace + [a];
    }

    method Wakeup()
      modifies this`eventfd
      ensures eventfd == Bump(old(eventfd))
    {
      if eventfd < MAX_COUNTER {
        eventfd := eventfd + 1;
      }
    }

    method HandleRead()
      requires At(Handling(true))
      modifies this`eventfd, this`view, this`trace
      ensures At(Handling(false)) && trace == old(trace) + [Reactor.HandleRead]
      ensures eventfd == 0 && view == Step(old(view), Reactor.HandleRead)
      ensures OwnerQueuesInside(old(trace)) ==> OwnerQueuesInside(trace)
    {
      eventfd := 0;
      Take(Reactor.HandleRead);
    }

    /** The steps of one `queueInLoop`: the wakeup is skipped only by the owner outside a batch. */
    ghost function QueueSteps(t: T, inLoopThread: bool, who: Thread): seq<Reactor.Action<T>>
      reads this
    {
      if !inLoopThread then [Push(who, t), Wake(who)]
      else if view.phase == Idle then [QueueOutside(t)]
      else if view.phase == Running then [QueueFromTask(t), OwnWake]
      else [QueueFromHandler(t)]
    }

    /** Where the calling thread can be: a foreign thread has no call open, the owner is in user code. */
    ghost predicate MayCall(inLoopThread: bool, who: Thread)
      reads this
    {
      if inLoopThread then
        view.phase == Idle || view.phase.Handling? || (view.phase == Running && !view.ownerOwes && view.done != [])
      else
        who !in view.pushers && who !in view.quitters
    }

    method QueueInLoop(t: T, inLoopThread: bool, ghost who: Thread)
      requires Valid() && MayCall(inLoopThread, who)
      modifies this`pendingFunctors, this`eventfd, this`view, this`trace
      ensures Valid() && trace == old(trace + QueueSteps(t, inLoopThread, who))
      ensures pendingFunctors == old(pendingFunctors) + [t]
      ensures view == old(view).(pending := view.pending, pushed := old(view.pushed) + [t],
                                 counter := view.counter, silent := view.silent)
      ensures !inLoopThread || callingPendingFunctors ==> eventfd == Bump(old(eventfd)) && view.silent == old(view.silent)
      ensures inLoopThread && !callingPendingFunctors ==> eventfd == old(eventfd)
    {
      hide Reactor.Run;
      ghost var steps := QueueSteps(t, inLoopThread, who);
      pendingFunctors := pendingFunctors + [t];
      Take(steps[0]);
      if !inLoopThread || callingPendingFunctors {
        Wakeup();
        Take(steps[1]);
        assert old(trace) + [steps[0]] + [steps[1]] == old(trace) + steps;
        assert old(view.pushers) + {who} - {who} == old(view.pushers) || inLoopThread;
      }
    }

    /** `runInLoop`: the owner runs the functor itself, everybody else queues it. */
    method RunInLoop(t: T, inLoopThread: bool, ghost who: Thread) returns (runNow: bool)
      requires Valid() && (!inLoopThread ==> MayCall(false, who))
      modifies this`pendingFunctors, this`eventfd, this`view, this`trace
      ensures Valid() && runNow == inLoopThread
      ensures trace == if runNow then old(trace) else old(trace) + [Push(who, t), Wake(who)]
      ensures pendingFunctors == if runNow then old(pendingFunctors) else old(pendingFunctors) + [t]
    {
      if inLoopThread {
        return true;
      }
      QueueInLoop(t, false, who);
      return false;
    }

    method Quit(inLoopThread: bool, ghost who: Thread)
      requires Valid() && MayCall(inLoopThread, who)
      modifies this`quit, this`eventfd, this`view, this`trace
      ensures Valid() && view == old(view).(quit := true, counter := view.counter)
      ensures trace == old(trace) + if inLoopThread then [OwnQuit] else [AskQuit(who), QuitWake(who)]
      ensures OwnerQueuesInside(old(trace)) ==> OwnerQueuesInside(trace)
    {
      quit := true;
      Take(if inLoopThread then OwnQuit else AskQuit(who));
      if !inLoopThread {
        Wakeup();
        Take(QuitWake(who));
        assert old(view.quitters) + {who} - {who} == old(view.quitters);
      }
    }

    /** The body of one functor of a batch: it queues tasks, waking its own loop each time, and may quit. */
    method RunFunctor(body: Script<T>)
      requires At(Running) && view.done != []
      modifies this`pendingFunctors, this`eventfd, this`quit, this`view, this`trace
      ensures At(Running) && view.batch == old(view.batch) && view.done == old(view.done)
      ensures quit == (old(quit) || body.quit)
      ensures view.pushers == old(view.pushers) && view.quitters == old(view.quitters)
      ensures view.batches == old(view.batches)
      ensures pendingFunctors == old(pendingFunctors) + body.queue
      ensures OwnerQueuesInside(old(trace)) ==> OwnerQueuesInside(trace)
    {
      hide Reactor.Run;
      for i := 0 to |body.queue|
        invariant At(Running) && view.batch == old(view.batch) && view.done == old(view.done)
        invariant view.pushers == old(view.pushers) && view.quitters == old(view.quitters)
        invariant view.batches == old(view.batches)
        invariant pendingFunctors == old(pendingFunctors) + body.queue[..i] && quit == old(quit)
        invariant OwnerQueuesInside(old(trace)) ==> OwnerQueuesInside(trace)
      {
        QueueInLoop(body.queue[i], true, 0);
      }
      if body.quit {
        Quit(true, 0);
      }
    }

    /** One turn of the batch loop. */
    method RunNext(functor: T, script: T -> Script<T>)
      requires At(Running) && view.batch != [] && view.batch[0] == functor
      modifies this`pendingFunctors, this`eventfd, this`quit, this`view, this`trace
      ensures At(Running) && quit == (old(quit) || script(functor).quit)
      ensures view.batch == old(view.batch)[1..] && view.done == old(view.done) + [functor]
      ensures view.pushers == old(view.pushers) && view.quitters == old(view.quitters)
      ensures view.batches == old(view.batches)
      ensures pendingFunctors == old(pendingFunctors) + script(functor).queue
      ensures OwnerQueuesInside(old(trace)) ==> OwnerQueuesInside(trace)
    {
      hide Reactor.Run, OwnerQueuesInside;
      Take(RunTask);
      RunFunctor(script(functor));
    }

    /** The critical section of `doPendingFunctions`. */
    method SwapPending() returns (functors: seq<T>)
      requires At(Handling(false))
      modifies this`callingPendingFunctors, this`pendingFunctors, this`view, this`trace
      ensures At(Running) && functors == old(pendingFunctors) == view.batch && pendingFunctors == []
      ensures view == old(view).(phase := Running, batch := functors, pending := [], silent := 0,
                                 batches := old(view.batches) + [functors])
      ensures OwnerQueuesInside(old(trace)) ==> OwnerQueuesInside(trace)
    {
      hide Reactor.Run, OwnerQueuesInside;
      callingPendingFunctors := true;
      Take(EndHandlers);
      functors := pendingFunctors;
      pendingFunctors := [];
      Take(Swap);
    }

    /**
     Swap and run one batch. A functor is an identity; `script` says what it does while it runs.
     Exactly what was pending at the swap is run, in order, and what it queues in turn stays pending.
     */
    method DoPendingFunctions(script: T -> Script<T>)
      requires At(Handling(false))
      modifies this`callingPendingFunctors, this`pendingFunctors, this`eventfd, this`quit, this`view, this`trace
      ensures At(Check) && quit == (old(quit) || exists f <- old(pendingFunctors) :: script(f).quit)
      ensures view.pushers == old(view.pushers) && view.quitters == old(view.quitters)
      ensures view.batches == old(view.batches) + [old(pendingFunctors)]
      ensures view.done == old(view.done) + old(pendingFunctors)
      ensures pendingFunctors == Requeued(script, old(pendingFunctors))
      ensures OwnerQueuesInside(old(trace)) ==> OwnerQueuesInside(trace)
    {
      hide Reactor.Run, OwnerQueuesInside, Requeued;
      var functors := SwapPending();
      assert Requeued(script, functors[..0]) == [] by { RequeuedNone(script); }
      for i := 0 to |functors|
        invariant At(Running) && view.batch == functors[i..] && view.done == old(view.done) + functors[..i]
        invariant view.pushers == old(view.pushers) && view.quitters == old(view.quitters)
        invariant view.batches == old(view.batches) + [functors]
        invariant pendingFunctors == Requeued(script, functors[..i])
        invariant quit == (old(quit) || exists f <- functors[..i] :: script(f).quit)
        invariant OwnerQueuesInside(old(trace)) ==> OwnerQueuesInside(trace)
      {
        assert functors[..i + 1] == functors[..i] + [functors[i]];
        RequeuedSnoc(script, functors[..i], functors[i]);
        RunNext(functors[i], script);
      }
      assert functors[..|functors|] == functors;
      callingPendingFunctors := false;
      Take(EndBatch);
    }

    /** Handlers queue their tasks without a wakeup: the swap is still to come. */
    method RunHandlers(tasks: seq<T>)
      requires At(Handling(false))
      modifies this`pendingFunctors, this`eventfd, this`view, this`trace
      ensures At(Handling(false)) && pendingFunctors == old(pendingFunctors) + tasks && eventfd == old(eventfd)
      ensures view.pushers == old(view.pushers) && view.quitters == old(view.quitters)
      ensures view.batches == old(view.batches)
      ensures view.done == old(view.done) && quit == old(quit)
      ensures OwnerQueuesInside(old(trace)) ==> OwnerQueuesInside(trace)
    {
      hide Reactor.Run;
      for i := 0 to |tasks|
        invariant At(Handling(false)) && eventfd == old(eventfd) && view.done == old(view.done)
        invariant pendingFunctors == old(pendingFunctors) + tasks[..i]
        invariant view.pushers == old(view.pushers) && view.quitters == old(view.quitters)
        invariant view.batches == old(view.batches)
        invariant OwnerQueuesInside(old(trace)) ==> OwnerQueuesInside(trace)
      {
        QueueInLoop(tasks[i], true, 0);
      }
    }

    /** Poll and, when the eventfd is reported, clear it. */
    method Poll(wake: bool)
      requires At(Check) && !quit
      modifies this`eventfd, this`view, this`trace
      ensures At(Handling(false)) && view.pushers == old(view.pushers) && view.quitters == old(view.quitters)
      ensures view.done == old(view.done) && view.batches == old(view.batches)
      ensures eventfd == if wake then 0 else old(eventfd)
      ensures OwnerQueuesInside(old(trace)) ==> OwnerQueuesInside(trace)
    {
      hide Reactor.Run, OwnerQueuesInside;
      Take(CheckQuit);
      var reported := wake && eventfd > 0;
      Take(PollReturn(reported));
      if reported {
        HandleRead();
      }
    }

    /** One turn of the loop: poll, dispatch, then the pending functions. */
    method RunRound(round: Round<T>, script: T -> Script<T>)
      requires At(Check) && !quit
      modifies this
      ensures At(Check)
      ensures quit <==> round.handlers.quit || exists f <- old(pendingFunctors) + round.handlers.queue :: script(f).quit
      ensures view.pushers == old(view.pushers) && view.quitters == old(view.quitters)
      ensures view.batches == old(view.batches) + [old(pendingFunctors) + round.handlers.queue]
      ensures view.done == old(view.done) + (old(pendingFunctors) + round.handlers.queue)
      ensures pendingFunctors == Requeued(script, old(pendingFunctors) + round.handlers.queue)
      ensures OwnerQueuesInside(old(trace)) ==> OwnerQueuesInside(trace)
    {
      hide Reactor.Run, OwnerQueuesInside;
      Poll(round.wake);
      RunHandlers(round.handlers.queue);
      if round.handlers.quit {
        Quit(true, 0);
      }
      DoPendingFunctions(script);
    }

    /**
     `loop()` over the given rounds of polling; `executed` of them take place. Every round runs as one batch
     what was pending and what its handlers queued, in order, and leaves pending what that batch queued. The
     first round that quits, in a handler or in a functor, is the last; when the rounds run out before, the
     thread is left in poll, and then nothing is pending unless the eventfd is readable.
     */
    method RunLoop(rounds: seq<Round<T>>, script: T -> Script<T>) returns (executed: nat)
      requires At(Idle) && view.pushers == {}
      modifies this
      ensures At(if quit then Idle else Polling) && executed <= |rounds| && (!quit ==> executed == |rounds|)
      ensures view.batches == old(view.batches) + Batches(script, old(pendingFunctors), rounds[..executed])
      ensures view.done == old(view.done) + Flatten(Batches(script, old(pendingFunctors), rounds[..executed]))
      ensures pendingFunctors == LeftPending(script, old(pendingFunctors), rounds[..executed])
      ensures forall i :: 0 <= i < executed ==>
        (RoundQuits(script, old(pendingFunctors), rounds, i) <==> quit && i == executed - 1)
      ensures quit ==> executed > 0
      ensures OwnerQueuesInside(old(trace)) && !quit ==> eventfd > 0 || pendingFunctors == []
    {
      hide Reactor.Run, OwnerQueuesInside, Requeued, Batches, LeftPending, Flatten;
      ghost var first := pendingFunctors;
      quit := false;
      Take(Enter);
      executed := 0;
      NoRounds(script, first, rounds);
      while !quit && executed < |rounds|
        invariant 0 <= executed <= |rounds| && At(Check) && view.pushers == {} && (quit ==> executed > 0)
        invariant view.batches == old(view.batches) + Batches(script, first, rounds[..executed])
        invariant view.done == old(view.done) + Flatten(Batches(script, first, rounds[..executed]))
        invariant pendingFunctors == LeftPending(script, first, rounds[..executed])
        invariant forall i :: 0 <= i < executed ==> (RoundQuits(script, first, rounds, i) <==> quit && i == executed - 1)
        invariant OwnerQueuesInside(old(trace)) ==> OwnerQueuesInside(trace)
      {
        OneMoreRound(script, first, rounds, executed);
        RunRound(rounds[executed], script);
        executed := executed + 1;
      }
      Take(CheckQuit);
      if OwnerQueuesInside(old(trace)) && !quit {
        NoLostWakeup(trace, view);
      }
    }
  }

  /** What is pending after some rounds, `first` being pending before them. */
  function LeftPending<T>(script: T -> Script<T>, first: seq<T>, rounds: seq<Round<T>>): seq<T> {
    if rounds == [] then first
    else
      var init := rounds[..|rounds| - 1];
      Requeued(script, LeftPending(script, first, init) + rounds[|rounds| - 1].handlers.queue)
  }

  /** The batches of the rounds: each is what was pending followed by what its handlers queued. */
  function Batches<T>(script: T -> Script<T>, first: seq<T>, rounds: seq<Round<T>>): seq<seq<T>> {
    if rounds == [] then []
    else
      var init := rounds[..|rounds| - 1];
      Batches(script, first, init) + [LeftPending(script, first, init) + rounds[|rounds| - 1].handlers.queue]
  }

  /** Round `i` quits: one of its handlers does, or a functor of its batch. */
  ghost predicate RoundQuits<T(!new)>(script: T -> Script<T>, first: seq<T>, rounds: seq<Round<T>>, i: nat)
    requires i < |rounds|
  {
    || rounds[i].handlers.quit
    || exists f <- LeftPending(script, first, rounds[..i]) + rounds[i].handlers.queue :: script(f).quit
  }

  lemma NoRounds<T>(script: T -> Script<T>, first: seq<T>, rounds: seq<Round<T>>)
    ensures rounds[..0] == [] && Batches(script, first, []) == [] && LeftPending(script, first, []) == first
    ensures Flatten(Batches(script, first, [])) == []
  {
  }

  lemma OneMoreRound<T>(script: T -> Script<T>, first: seq<T>, rounds: seq<Round<T>>, i: nat)
    requires i < |rounds|
    ensures var batch := LeftPending(script, first, rounds[..i]) + rounds[i].handlers.queue;
      && Batches(script, first, rounds[..i + 1]) == Batches(script, first, rounds[..i]) + [batch]
      && Flatten(Batches(script, first, rounds[..i + 1])) == Flatten(Batches(script, first, rounds[..i])) + batch
      && LeftPending(script, first, rounds[..i + 1]) == Requeued(script, batch)
  {
    assert rounds[..i + 1][..i] == rounds[..i];
    var bs := Batches(script, first, rounds[..i]);
    var batch := LeftPending(script, first, rounds[..i]) + rounds[i].handlers.queue;
    assert (bs + [batch])[..|bs|] == bs;
  }

  /** What a batch queues in turn, in execution order. */
  function Requeued<T>(script: T -> Script<T>, batch: seq<T>): seq<T> {
    if batch == [] then [] else Requeued(script, batch[..|batch| - 1]) + script(batch[|batch| - 1]).queue
  }

  lemma RequeuedNone<T>(script: T -> Script<T>)
    ensures Requeued(script, []) == []
  {
  }

  lemma RequeuedSnoc<T>(script: T -> Script<T>, batch: seq<T>, t: T)
    ensures Requeued(script, batch + [t]) == Requeued(script, batch) + script(t).queue
  {
    assert (batch + [t])[..|batch|] == batch;
  }
}
