/** The thread pool as an object; each method is one critical section, recorded as a protocol step. */
module ThreadPool {
  import opened ThreadPoolProtocol

  datatype Outcome = Accepted | StoppedError

  class ThreadPool<T(==,!new)> {
    const threads: nat
    var tasks: seq<T>
    var stop: bool
    ghost var view: Pool<T>
    ghost var trace: seq<Action<T>>

    ghost predicate Valid()
      reads this
    {
      view.tasks == tasks && view.stop == stop && Run(Start<T>(threads), trace, view)
    }

    constructor (threads: nat)
      ensures Valid() && this.threads == threads && view == Start<T>(threads)
    {
      this.threads := threads;
      tasks, stop := [], false;
      view, trace := Start<T>(threads), [];
    }

    ghost method Take(a: Action<T>)
      requires Run(Start<T>(threads), trace, view) && Enabled(view, a)
      modifies this`view, this`trace
      ensures Run(Start<T>(threads), trace, view) && view == Step(old(view), a) && trace == old(trace) + [a]
    {
      RunSnoc(Start<T>(threads), trace, view, a);
      view := Step(view, a);
      trace := trace + [a];
    }

    /** `enqueue`: on a stopped pool it fails and leaves everything as it was. The caller then notifies. */
    method Enqueue(t: T, ghost who: Thread) returns (r: Outcome)
      requires Valid() && who !in view.owed
      modifies this`tasks, this`view, this`trace
      ensures Valid() && view == Step(old(view), ThreadPoolProtocol.Enqueue(who, t))
      ensures r == if stop then StoppedError else Accepted
      ensures tasks == if stop then old(tasks) else old(tasks) + [t]
    {
      if stop {
        r := StoppedError;
      } else {
        tasks := tasks + [t];
        r := Accepted;
      }
      Take(ThreadPoolProtocol.Enqueue(who, t));
    }

    /** A worker's critical section: take the oldest task, leave, or sleep. */
    method Fetch(ghost w: nat) returns (next: Fetched<T>)
      requires Valid() && HasWorker(view, w, Ready)
      modifies this`tasks, this`view, this`trace
      ensures Valid() && view == Step(old(view), Wait(w))
      ensures match next
        case Got(t) => old(tasks) == [t] + tasks
        case Leave => stop && tasks == old(tasks) == []
        case Sleep => !stop && tasks == old(tasks) == []
    {
      if !stop && tasks == [] {
        next := Sleep;
      } else if stop && tasks == [] {
        next := Leave;
      } else {
        next := Got(tasks[0]);
        tasks := tasks[1..];
      }
      Take(Wait(w));
    }

    /** The destructor's critical section. */
    method BeginStop()
      requires Valid() && view.dtor == NotBegun
      modifies this`stop, this`view, this`trace
      ensures Valid() && stop && view == Step(old(view), SetStop)
    {
      stop := true;
      Take(SetStop);
    }

    /** Once the destructor has joined every worker, the object has run everything it accepted. */
    lemma JoinedObjectIsDrained()
      requires Valid() && threads > 0 && view.dtor == Returned
      ensures tasks == [] && view.taken == view.accepted && multiset(view.executed) == multiset(view.accepted)
    {
      DrainedWhenJoined(threads, trace, view);
    }
  }

  datatype Fetched<T> = Got(task: T) | Leave | Sleep
}
