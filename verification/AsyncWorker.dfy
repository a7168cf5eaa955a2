/**
 The asynchronous worker as an object over its two buffers. Each method is one critical section of the
 code; `trace` records the step of `AsyncProtocol` it takes, so the theorems there hold of the object.
 */
module AsyncWorker {
  import opened Bytes
  import B = AsyncBuffer
  import opened AsyncProtocol

  /** How a push, or the part of it up to its wait, ends. */
  datatype Outcome = Done | Waits | Threw

  class AsyncWorker {
    const safe: bool
    const cfg: B.Config
    const bufferProductor: B.Buffer
    const bufferConsumer: B.Buffer
    var stop: bool
    /** The chunks handed to the flush callback. */
    var flushed: seq<seq<byte>>
    ghost var view: State
    ghost var trace: seq<Action>

    ghost predicate Valid()
      reads this, bufferProductor, bufferProductor.data, bufferConsumer, bufferConsumer.data
    {
      && bufferProductor != bufferConsumer && bufferProductor.data != bufferConsumer.data
      && bufferProductor.Valid() && bufferConsumer.Valid()
      && bufferProductor.cfg == cfg && bufferConsumer.cfg == cfg
      && view.safe == safe && view.cfg == cfg && view.stop == stop && view.flushes == flushed
      && view.producer == bufferProductor.Abs() && view.consumer == bufferConsumer.Abs()
      && !view.overrun && Reached()
    }

    ghost predicate Reached()
      reads this`view, this`trace
    {
      Run(Start(safe, cfg), trace, view)
    }

    constructor (safe: bool, cfg: B.Config)
      ensures Valid() && fresh(bufferProductor) && fresh(bufferConsumer)
      ensures this.safe == safe && this.cfg == cfg && view == Start(safe, cfg)
    {
      this.safe, this.cfg := safe, cfg;
      bufferProductor := new B.Buffer(cfg);
      bufferConsumer := new B.Buffer(cfg);
      stop, flushed := false, [];
      view, trace := Start(safe, cfg), [];
    }

    ghost method Take(a: Action)
      requires Reached() && Enabled(view, a)
      modifies this`view, this`trace
      ensures Reached() && view == Step(old(view), a) && trace == old(trace) + [a]
    {
      RunOne(view, a);
      RunConcat(Start(safe, cfg), trace, view, [a], Step(view, a));
      view := Step(view, a);
      trace := trace + [a];
    }

    /** Nothing is ever consumed in part: both read positions are at the front. */
    lemma ReadsFromTheFront()
      requires Valid()
      ensures view.producer.read == 0 && view.consumer.read == 0
    {
      RunConserves(Start(safe, cfg), trace, view);
    }

    method CopyIn(bytes: seq<byte>) returns (r: Outcome)
      requires Valid() && !B.Overruns(cfg, bufferProductor.Abs(), |bytes|)
      modifies bufferProductor, bufferProductor.data
      ensures bufferProductor.Valid() && bufferConsumer.Valid() && bufferProductor.data != bufferConsumer.data
      ensures r == if B.Throws(cfg, old(bufferProductor.Abs()), |bytes|) then Threw else Done
      ensures bufferProductor.Abs() ==
        if r == Threw then old(bufferProductor.Abs()) else B.PushTo(cfg, old(bufferProductor.Abs()), bytes)
      ensures bufferConsumer.Abs() == old(bufferConsumer.Abs())
    {
      hide B.Throws, B.Overruns, B.PushTo;
      var threw := bufferProductor.Push(bytes);
      r := if threw then Threw else Done;
    }

    /** `Push` under the mutex, up to its return, its exception or its space wait. A caller that would make
        the copy run past the vector gets no promise. */
    method Push(bytes: seq<byte>, ghost who: Thread) returns (r: Outcome)
      requires Valid() && Enabled(view, AsyncProtocol.Push(who, bytes))
      requires stop || MustWait(view, bytes) || !B.Overruns(cfg, view.producer, |bytes|)
      modifies this`view, this`trace, bufferProductor, bufferProductor.data
      ensures Valid() && view == Step(old(view), AsyncProtocol.Push(who, bytes))
      ensures r == Waits <==> !stop && MustWait(old(view), bytes)
      ensures r == Threw <==> view.lost == old(view.lost) + [bytes]
      ensures r == Done && !stop ==> view.accepted == old(view.accepted) + bytes
    {
      hide Run, B.Throws, B.Overruns, B.PushTo;
      r := Done;
      if !stop {
        if safe && |bytes| > bufferProductor.data.Length - bufferProductor.writePos {
          r := Waits;
        } else {
          r := CopyIn(bytes);
        }
      }
      Take(AsyncProtocol.Push(who, bytes));
    }

    /** A notified producer looks again. */
    method ResumePush(bytes: seq<byte>, ghost who: Thread) returns (r: Outcome)
      requires Valid() && Enabled(view, Resume(who)) && view.notified[who] == bytes
      requires MustWait(view, bytes) || !B.Overruns(cfg, view.producer, |bytes|)
      modifies this`view, this`trace, bufferProductor, bufferProductor.data
      ensures Valid() && view == Step(old(view), Resume(who)) && (r == Waits <==> MustWait(old(view), bytes))
      ensures r == Threw <==> view.lost == old(view.lost) + [bytes]
    {
      hide Run, B.Throws, B.Overruns, B.PushTo;
      if safe && |bytes| > bufferProductor.data.Length - bufferProductor.writePos {
        r := Waits;
      } else {
        r := CopyIn(bytes);
      }
      Take(Resume(who));
    }

    method SetStop()
      requires Valid()
      modifies this`stop, this`view, this`trace
      ensures Valid() && stop && view == Step(old(view), AsyncProtocol.SetStop)
    {
      hide Run;
      stop := true;
      Take(AsyncProtocol.SetStop);
    }

    /** The worker's test and swap; `false` means it goes to sleep. */
    method LockAndSwap(ghost pick: Thread) returns (awake: bool)
      requires Valid() && Enabled(view, Lock(pick))
      modifies this`view, this`trace, bufferProductor, bufferConsumer
      ensures Valid() && view == Step(old(view), Lock(pick)) && (awake <==> view.pc == Checking)
    {
      hide Run;
      ReadsFromTheFront();
      awake := stop || !bufferProductor.IsEmpty();
      if awake && !bufferProductor.IsEmpty() {
        bufferProductor.Swap(bufferConsumer);
      }
      Take(Lock(pick));
    }

    method FlushOut()
      requires Valid()
      modifies this`flushed, bufferConsumer
      ensures bufferConsumer.Valid() && bufferConsumer.data == old(bufferConsumer.data)
      ensures flushed == old(flushed) + [old(view.consumer.written)]
      ensures bufferConsumer.Abs() == old(view.consumer).(written := [], read := 0)
    {
      hide Run;
      ReadsFromTheFront();
      var chunk := bufferConsumer.Readable();
      flushed := flushed + [chunk];
      bufferConsumer.Reset();
    }

    /** The exit test at the end of the critical section, with the last flush under the mutex. */
    method CheckExit() returns (exited: bool)
      requires Valid() && view.pc == Checking
      modifies this`flushed, this`view, this`trace, bufferConsumer
      ensures Valid() && view == Step(old(view), Check) && (exited <==> view.pc == Exited)
    {
      hide Run;
      ReadsFromTheFront();
      exited := stop && bufferProductor.IsEmpty();
      if exited && !bufferConsumer.IsEmpty() {
        FlushOut();
      }
      Take(Check);
    }

    method FlushBatch()
      requires Valid() && view.pc == Flushing
      modifies this`flushed, this`view, this`trace, bufferConsumer
      ensures Valid() && view == Step(old(view), Flush)
    {
      hide Run;
      FlushOut();
      Take(Flush);
    }

    /** At the end of an object's life: when it exited with no producer waiting, what the callback got
        is everything that was accepted. */
    lemma ExitedObjectHasFlushed(s: State, before: seq<Action>, after: seq<Action>)
      requires Valid() && Run(Start(safe, cfg), before, s) && s.pc == Checking && s.stop && !s.overrun && NobodyBlocked(s)
      requires Run(Step(s, Check), after, view)
      ensures Flatten(flushed) == view.accepted == s.accepted
    {
      RunConserves(Start(safe, cfg), before, s);
      CleanExit(s, after, view);
    }
  }
}
