/**
 The thread pool as a step system: workers, enqueuers between unlock and notify, and the destructor.
 Each step is one critical section or one notification.
 */
module ThreadPoolProtocol {

  type Thread = nat

  datatype Worker<T> = Ready | Asleep | Busy(task: T) | Exited

  /** The destructor: not begun, flag set but nobody notified yet, joining, or returned. */
  datatype Dtor = NotBegun | OwesNotify | Joining | Returned

  /** `owed` are the callers of `enqueue` that have not notified yet. `accepted`, `taken` and `executed`
      are history: accepted by a queue push, taken by a worker, executed to the end. */
  datatype Pool<T> = Pool(
    tasks: seq<T>,
    stop: bool,
    workers: seq<Worker<T>>,
    owed: set<Thread>,
    dtor: Dtor,
    accepted: seq<T>,
    taken: seq<T>,
    executed: seq<T>)

  datatype Action<T> =
    | Enqueue(who: Thread, t: T)
    | NotifyOne(who: Thread, w: nat)
    | Wait(w: nat)
    | Finish(w: nat)
    | Spurious(w: nat)
    | SetStop
    | NotifyAll
    | Join

  ghost predicate HasWorker<T>(p: Pool<T>, w: nat, state: Worker<T>) { w < |p.workers| && p.workers[w] == state }

  ghost predicate AllAsleep<T>(p: Pool<T>) { forall w :: 0 <= w < |p.workers| ==> p.workers[w] == Asleep }

  ghost predicate Enabled<T>(p: Pool<T>, a: Action<T>) {
    match a
    case Enqueue(who, _) => who !in p.owed
    case NotifyOne(who, w) =>
      who in p.owed && ((exists v :: HasWorker(p, v, Asleep)) ==> HasWorker(p, w, Asleep))
    case Wait(w) => HasWorker(p, w, Ready)
    case Finish(w) => w < |p.workers| && p.workers[w].Busy?
    case Spurious(w) => HasWorker(p, w, Asleep)
    case SetStop => p.dtor == NotBegun
    case NotifyAll => p.dtor == OwesNotify
    case Join => p.dtor == Joining && forall w :: 0 <= w < |p.workers| ==> p.workers[w] == Exited
  }

  function Set<T>(p: Pool<T>, w: nat, state: Worker<T>): Pool<T>
    requires w < |p.workers|
  {
    p.(workers := p.workers[w := state])
  }

  function WakeAll<T>(workers: seq<Worker<T>>): seq<Worker<T>> {
    seq(|workers|, i requires 0 <= i < |workers| => if workers[i].Asleep? then Ready else workers[i])
  }

  ghost function Step<T>(p: Pool<T>, a: Action<T>): Pool<T>
    requires Enabled(p, a)
  {
    match a
    case Enqueue(who, t) =>
      // On a stopped pool the call throws and nothing changes.
      if p.stop then p
      else p.(tasks := p.tasks + [t], accepted := p.accepted + [t], owed := p.owed + {who})
    case NotifyOne(who, w) =>
      var told := p.(owed := p.owed - {who});
      if HasWorker(p, w, Asleep) then Set(told, w, Ready) else told
    case Wait(w) =>
      if p.tasks != [] then
        Set(p, w, Busy(p.tasks[0])).(tasks := p.tasks[1..], taken := p.taken + [p.tasks[0]])
      else if p.stop then Set(p, w, Worker.Exited)
      else Set(p, w, Asleep)
    case Finish(w) => Set(p, w, Ready).(executed := p.executed + [p.workers[w].task])
    case Spurious(w) => Set(p, w, Ready)
    case SetStop => p.(stop := true, dtor := OwesNotify)
    case NotifyAll => p.(workers := WakeAll(p.workers), dtor := Joining)
    case Join => p.(dtor := Returned)
  }

  function Start<T>(threads: nat): Pool<T> {
    Pool([], false, seq(threads, _ => Ready), {}, NotBegun, [], [], [])
  }

  ghost predicate Run<T>(p: Pool<T>, acts: seq<Action<T>>, q: Pool<T>)
    decreases |acts|
  {
    if acts == [] then p == q else Enabled(p, acts[0]) && Run(Step(p, acts[0]), acts[1..], q)
  }

  lemma {:induction false} RunSnoc<T>(p: Pool<T>, acts: seq<Action<T>>, q: Pool<T>, a: Action<T>)
    requires Run(p, acts, q) && Enabled(q, a)
    ensures Run(p, acts + [a], Step(q, a))
    decreases |acts|
  {
    hide Step, Enabled;
    if acts == [] {
      assert (acts + [a])[1..] == [];
    } else {
      assert (acts + [a])[1..] == acts[1..] + [a];
      RunSnoc(Step(p, acts[0]), acts[1..], q, a);
    }
  }

  // ---------------------------------------------------------------- order and conservation

  ghost function Runs<T>(w: Worker<T>, t: T): nat { if w == Busy(t) then 1 else 0 }

  /** How many workers are running `t`. */
  ghost function Running<T>(workers: seq<Worker<T>>, t: T): nat {
    if workers == [] then 0 else Running(workers[..|workers| - 1], t) + Runs(workers[|workers| - 1], t)
  }

  lemma {:induction false} RunningUpdate<T>(workers: seq<Worker<T>>, w: nat, state: Worker<T>, t: T)
    requires w < |workers|
    ensures Running(workers[w := state], t) + Runs(workers[w], t) == Running(workers, t) + Runs(state, t)
  {
    var last := |workers| - 1;
    if w == last {
      assert workers[w := state][..last] == workers[..last];
    } else {
      RunningUpdate(workers[..last], w, state, t);
      assert workers[w := state][..last] == workers[..last][w := state];
    }
  }

  lemma {:induction false} RunningWakeAll<T>(workers: seq<Worker<T>>, t: T)
    ensures Running(WakeAll(workers), t) == Running(workers, t)
  {
    if workers != [] {
      RunningWakeAll(workers[..|workers| - 1], t);
      assert WakeAll(workers)[..|workers| - 1] == WakeAll(workers[..|workers| - 1]);
    }
  }

  lemma {:induction false} NothingRuns<T>(workers: seq<Worker<T>>, t: T)
    requires forall w :: 0 <= w < |workers| ==> !workers[w].Busy?
    ensures Running(workers, t) == 0
  {
    if workers != [] {
      NothingRuns(workers[..|workers| - 1], t);
    }
  }

  /** Every occurrence of a task taken is running or has been executed, exactly once. */
  ghost predicate Accounted<T>(p: Pool<T>, t: T) {
    multiset(p.executed)[t] + Running(p.workers, t) == multiset(p.taken)[t]
  }

  /** Tasks are taken in the order accepted, and each one taken is accounted for. */
  ghost predicate Ordered<T(!new)>(p: Pool<T>) {
    p.taken + p.tasks == p.accepted && forall t :: Accounted(p, t)
  }

  lemma WaitAccounts<T>(p: Pool<T>, w: nat, t: T)
    requires Accounted(p, t) && Enabled(p, Wait(w))
    ensures Accounted(Step(p, Wait(w)), t)
  {
    hide Running;
    RunningUpdate(p.workers, w, Step(p, Wait(w)).workers[w], t);
  }

  lemma StepAccounts<T>(p: Pool<T>, a: Action<T>, t: T)
    requires Accounted(p, t) && Enabled(p, a)
    ensures Accounted(Step(p, a), t)
  {
    hide Running, WakeAll;
    match a
    case NotifyOne(_, w) =>
      if HasWorker(p, w, Asleep) { RunningUpdate(p.workers, w, Worker<T>.Ready, t); }
    case Wait(w) => WaitAccounts(p, w, t);
    case Finish(w) => RunningUpdate(p.workers, w, Worker<T>.Ready, t);
    case Spurious(w) => RunningUpdate(p.workers, w, Worker<T>.Ready, t);
    case NotifyAll => RunningWakeAll(p.workers, t);
    case _ =>
  }

  lemma StepKeepsOrder<T(!new)>(p: Pool<T>, a: Action<T>)
    requires Ordered(p) && Enabled(p, a)
    ensures Ordered(Step(p, a))
  {
    hide Accounted;
    var q := Step(p, a);
    forall t ensures Accounted(q, t) {
      assert Accounted(p, t);
      StepAccounts(p, a, t);
    }
    match a
    case Enqueue(_, t) => assert p.taken + (p.tasks + [t]) == p.taken + p.tasks + [t];
    case Wait(w) => assert p.tasks != [] ==> p.taken + [p.tasks[0]] + p.tasks[1..] == p.taken + p.tasks;
    case _ =>
  }

  // ---------------------------------------------------------------- nobody sleeps on a task

  /** A worker that will look at the queue again. */
  predicate WillLook<T>(w: Worker<T>) { w.Ready? || w.Busy? }

  ghost predicate Alert<T>(p: Pool<T>) {
    && (p.tasks != [] && p.workers != [] ==>
          p.owed != {} || p.dtor == OwesNotify || exists w :: 0 <= w < |p.workers| && WillLook(p.workers[w]))
    && (forall w :: 0 <= w < |p.workers| && p.workers[w] == Exited ==> p.stop && p.tasks == [])
    && (p.stop <==> p.dtor != NotBegun)
    && (p.dtor == Joining || p.dtor == Returned ==> forall w :: 0 <= w < |p.workers| ==> p.workers[w] != Asleep)
    && (p.dtor == Returned ==> forall w :: 0 <= w < |p.workers| ==> p.workers[w] == Exited)
  }

  lemma StepStaysAlert<T>(p: Pool<T>, a: Action<T>)
    requires Alert(p) && Enabled(p, a)
    ensures Alert(Step(p, a)) && |Step(p, a).workers| == |p.workers|
  {
    var q := Step(p, a);
    match a
    case Enqueue(who, _) =>
      assert !p.stop ==> who in q.owed;
    case NotifyOne(who, w) =>
      if HasWorker(p, w, Asleep) {
        assert WillLook(q.workers[w]);
      } else {
        if p.tasks != [] && p.workers != [] {
          assert !HasWorker(p, 0, Asleep) && p.workers[0] != Exited;
          assert WillLook(q.workers[0]);
        }
      }
    case Wait(w) =>
      if p.tasks != [] { assert WillLook(q.workers[w]); }
    case Finish(w) => assert WillLook(q.workers[w]);
    case Spurious(w) => assert WillLook(q.workers[w]);
    case NotifyAll =>
      if p.tasks != [] && p.workers != [] { assert WillLook(q.workers[0]); }
    case _ =>
  }

  lemma {:induction false} RunStaysAlert<T(!new)>(p: Pool<T>, acts: seq<Action<T>>, q: Pool<T>)
    requires Alert(p) && Ordered(p) && Run(p, acts, q)
    ensures Alert(q) && Ordered(q) && |q.workers| == |p.workers|
    decreases |acts|
  {
    if acts != [] {
      StepStaysAlert(p, acts[0]);
      StepKeepsOrder(p, acts[0]);
      RunStaysAlert(Step(p, acts[0]), acts[1..], q);
    }
  }

  lemma StartIsAlert<T(!new)>(threads: nat)
    ensures Alert(Start<T>(threads)) && Ordered(Start<T>(threads))
  {
    forall t ensures Accounted(Start<T>(threads), t) {
      NothingRuns(Start<T>(threads).workers, t);
    }
  }

  /** In every run of a pool with workers, a task in the queue never meets only sleeping workers unless an
      enqueuer or the destructor has yet to notify. */
  lemma NoTaskIsForgotten<T(!new)>(threads: nat, acts: seq<Action<T>>, q: Pool<T>)
    requires threads > 0 && Run(Start<T>(threads), acts, q) && AllAsleep(q) && q.tasks != []
    ensures q.owed != {} || q.dtor == OwesNotify
  {
    StartIsAlert<T>(threads);
    RunStaysAlert(Start<T>(threads), acts, q);
  }

  /** When the destructor returns, everything ever accepted was taken in order and executed exactly once. */
  lemma DrainedWhenJoined<T(!new)>(threads: nat, acts: seq<Action<T>>, q: Pool<T>)
    requires threads > 0 && Run(Start<T>(threads), acts, q) && q.dtor == Returned
    ensures q.tasks == [] && q.taken == q.accepted && multiset(q.executed) == multiset(q.accepted)
  {
    StartIsAlert<T>(threads);
    RunStaysAlert(Start<T>(threads), acts, q);
    assert q.workers[0] == Exited;
    assert q.taken + [] == q.taken;
    forall t ensures multiset(q.executed)[t] == multiset(q.accepted)[t] {
      assert Accounted(q, t);
      NothingRuns(q.workers, t);
    }
  }

  // ---------------------------------------------------------------- the destructor returns

  /** What the destructor and the workers do by themselves, when tasks end. */
  predicate Closing<T>(a: Action<T>) {
    a.Wait? || a.Finish? || a.SetStop? || a.NotifyAll? || a.Join?
  }

  ghost predicate Unaided<T>(p: Pool<T>, acts: seq<Action<T>>, q: Pool<T>) {
    Run(p, acts, q) && forall i :: 0 <= i < |acts| ==> Closing(acts[i])
  }

  lemma UnaidedOne<T>(p: Pool<T>, a: Action<T>)
    requires Enabled(p, a) && Closing(a)
    ensures Unaided(p, [a], Step(p, a))
  {
    hide Enabled, Step;
    assert [a][1..] == [] && Run(Step(p, a), [], Step(p, a));
  }

  lemma {:induction false} UnaidedConcat<T>(
      p: Pool<T>, xs: seq<Action<T>>, q: Pool<T>, ys: seq<Action<T>>, r: Pool<T>)
    requires Unaided(p, xs, q) && Unaided(q, ys, r)
    ensures Unaided(p, xs + ys, r)
    decreases |xs|
  {
    hide Enabled, Step;
    if xs == [] {
      assert xs + ys == ys;
    } else {
      assert (xs + ys)[1..] == xs[1..] + ys;
      UnaidedConcat(Step(p, xs[0]), xs[1..], q, ys, r);
    }
  }

  /** Worker `w` has left, and nobody else has moved. */
  ghost predicate LeftBy<T>(p: Pool<T>, q: Pool<T>, w: nat) {
    w < |p.workers| && q.workers == p.workers[w := Worker.Exited] && q.stop && q.dtor == Joining
  }

  lemma {:induction false} WorkerLeaves<T>(p: Pool<T>, w: nat) returns (acts: seq<Action<T>>, q: Pool<T>)
    requires p.stop && p.dtor == Joining && w < |p.workers| && p.workers[w] != Asleep
    ensures Unaided(p, acts, q) && LeftBy(p, q, w)
    decreases 2 * |p.tasks| + (match p.workers[w] case Busy(_) => 2 case Ready => 1 case _ => 0)
  {
    if p.workers[w] == Exited {
      acts, q := [], p;
    } else {
      var a := if p.workers[w].Busy? then Finish(w) else Wait(w);
      var t := Step(p, a);
      UnaidedOne(p, a);
      var rest;
      rest, q := WorkerLeaves(t, w);
      hide Step, Enabled, Unaided;
      UnaidedConcat(p, [a], t, rest, q);
      acts := [a] + rest;
    }
  }

  /** All workers from `k` on leave one after the other, and the last join returns. */
  lemma {:induction false} JoinReturns<T>(p: Pool<T>, k: nat) returns (acts: seq<Action<T>>, q: Pool<T>)
    requires p.stop && p.dtor == Joining && k <= |p.workers|
    requires forall w :: 0 <= w < |p.workers| ==> p.workers[w] != Asleep && (w < k ==> p.workers[w] == Exited)
    ensures Unaided(p, acts, q) && q.dtor == Returned
    decreases |p.workers| - k
  {
    if k == |p.workers| {
      acts, q := [Join], Step(p, Join);
      UnaidedOne(p, Join);
    } else {
      var m, rest;
      acts, m := WorkerLeaves(p, k);
      rest, q := JoinReturns(m, k + 1);
      hide Unaided;
      UnaidedConcat(p, acts, m, rest, q);
      acts := acts + rest;
    }
  }

  lemma NotifiedJoinReturns<T>(p: Pool<T>) returns (acts: seq<Action<T>>, q: Pool<T>)
    requires Alert(p) && (p.dtor == OwesNotify || p.dtor == Joining)
    ensures Unaided(p, acts, q) && q.dtor == Returned
  {
    if p.dtor == Joining {
      acts, q := JoinReturns(p, 0);
    } else {
      var t := Step(p, NotifyAll);
      StepStaysAlert(p, NotifyAll);
      UnaidedOne(p, NotifyAll);
      var rest;
      rest, q := JoinReturns(t, 0);
      hide Unaided, Step;
      UnaidedConcat(p, [NotifyAll], t, rest, q);
      acts := [NotifyAll] + rest;
    }
  }

  /**
   The destructor completes: from every reachable state its own steps and those of the workers, as tasks
   end, lead to its return, with any number of workers and whoever was asleep.
   */
  lemma DestructorReturns<T(!new)>(threads: nat, before: seq<Action<T>>, p: Pool<T>)
      returns (acts: seq<Action<T>>, q: Pool<T>)
    requires Run(Start<T>(threads), before, p)
    ensures Unaided(p, acts, q) && q.dtor == Returned
  {
    StartIsAlert<T>(threads);
    RunStaysAlert(Start<T>(threads), before, p);
    if p.dtor == Returned {
      acts, q := [], p;
    } else if p.dtor == NotBegun {
      var t := Step(p, SetStop);
      StepStaysAlert(p, SetStop);
      UnaidedOne(p, SetStop);
      var rest;
      rest, q := NotifiedJoinReturns(t);
      hide Unaided, Step;
      UnaidedConcat(p, [SetStop], t, rest, q);
      acts := [SetStop] + rest;
    } else {
      acts, q := NotifiedJoinReturns(p);
    }
  }

  /** After the stop flag nothing more is accepted. */
  lemma {:induction false} StopIsFinal<T>(p: Pool<T>, acts: seq<Action<T>>, q: Pool<T>)
    requires p.stop && Run(p, acts, q)
    ensures q.accepted == p.accepted && q.stop
    decreases |acts|
  {
    if acts != [] {
      StopIsFinal(Step(p, acts[0]), acts[1..], q);
    }
  }

  /** The condition is needed: a pool without workers returns from its destructor with tasks undone. */
  lemma NoWorkersNoDrain<T>(t: T) returns (acts: seq<Action<T>>, q: Pool<T>)
    ensures Run(Start<T>(0), acts, q) && q.dtor == Returned && q.accepted == [t] && q.executed == []
  {
    var p0 := Start<T>(0);
    var p1 := Step(p0, Enqueue(0, t));
    var p2 := Step(p1, SetStop);
    var p3 := Step(p2, NotifyAll);
    q := Step(p3, Join);
    RunSnoc(p0, [], p0, Enqueue(0, t));
    RunSnoc(p0, [] + [Enqueue(0, t)], p1, SetStop);
    RunSnoc(p0, [] + [Enqueue(0, t)] + [SetStop], p2, NotifyAll);
    RunSnoc(p0, [] + [Enqueue(0, t)] + [SetStop] + [NotifyAll], p3, Join);
    acts := [] + [Enqueue(0, t)] + [SetStop] + [NotifyAll] + [Join];
  }
}
