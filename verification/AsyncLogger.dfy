/** From an accepted log message to the bytes in the rolled files. */
module AsyncLogger {
  import opened Bytes
  import opened AsyncProtocol
  import C = AsyncBuffer
  import R = RollFiles
  import W = AsyncWorker

  /** The flush callback: every sink gets the same chunk, whole. */
  method RealFlush(sinks: seq<R.RollFileFlush>, chunk: seq<byte>, now: R.Stamp)
    requires forall i :: 0 <= i < |sinks| ==> sinks[i].Valid()
    requires forall i, j :: 0 <= i < j < |sinks| ==> sinks[i] != sinks[j]
    modifies sinks
    ensures forall i :: 0 <= i < |sinks| ==> sinks[i].Valid() && sinks[i].chunks == old(sinks[i].chunks) + [chunk]
  {
    hide R.RollFileFlush.Stores, R.FlushAll;
    for k := 0 to |sinks|
      invariant forall i :: 0 <= i < |sinks| ==> sinks[i].Valid()
      invariant forall i :: 0 <= i < k ==> sinks[i].chunks == old(sinks[i].chunks) + [chunk]
      invariant forall i :: k <= i < |sinks| ==> unchanged(sinks[i])
    {
      sinks[k].Flush(chunk, now);
    }
  }

  /** A sink on fresh names that was given exactly the worker's flushes so far. */
  ghost predicate Follows(sink: R.RollFileFlush, s: State)
    reads sink
  {
    sink.Valid() && sink.chunks == s.flushes && forall n <- sink.names :: n !in sink.initial
  }

  /**
   End to end: at every moment of every run, the bytes on disk in the rolled files, then those in the
   consumer buffer, then those in the producer buffer are exactly what producers got accepted, in lock
   order.
   */
  lemma FilesHoldTheLog(safe: bool, cfg: C.Config, acts: seq<Action>, s: State, sink: R.RollFileFlush)
    requires Run(Start(safe, cfg), acts, s) && Follows(sink, s)
    ensures R.OnDisk(sink.disk, sink.names) + s.consumer.written + s.producer.written == s.accepted
    ensures R.OnDisk(sink.disk, sink.names) <= s.accepted
  {
    LogIsConserved(safe, cfg, acts, s);
    sink.DiskHoldsTheStream();
  }

  /** After a clean exit the files on disk alone hold everything that was ever accepted, for good. */
  lemma FilesHoldEverythingAfterExit(
      safe: bool, cfg: C.Config, before: seq<Action>, s: State, after: seq<Action>, d: State, sink: R.RollFileFlush)
    requires Run(Start(safe, cfg), before, s) && s.pc == Checking && s.stop && !s.overrun && Run(Step(s, Check), after, d)
    requires NobodyBlocked(s) && Follows(sink, d)
    ensures R.OnDisk(sink.disk, sink.names) == d.accepted == s.accepted
  {
    RunConserves(Start(safe, cfg), before, s);
    CleanExit(s, after, d);
    sink.DiskHoldsTheStream();
  }

  // ---------------------------------------------------------------- the object

  /** The logger: its worker, whose callback is `RealFlush`, and its sinks. */
  class AsyncLogger {
    const worker: W.AsyncWorker
    const sinks: seq<R.RollFileFlush>

    ghost predicate SinksOk()
      reads this, worker, sinks
    {
      && (forall i :: 0 <= i < |sinks| ==> sinks[i].Valid() && sinks[i].chunks == worker.flushed)
      && (forall i, j :: 0 <= i < j < |sinks| ==> sinks[i] != sinks[j])
    }

    ghost predicate WorkerOk()
      reads this, worker, worker.bufferProductor, worker.bufferProductor.data, worker.bufferConsumer, worker.bufferConsumer.data
    {
      worker.Valid()
    }

    /** Every sink has been given exactly what the worker has flushed. */
    ghost predicate Valid()
      reads this, sinks
      reads worker, worker.bufferProductor, worker.bufferProductor.data, worker.bufferConsumer, worker.bufferConsumer.data
    {
      WorkerOk() && SinksOk()
    }

    constructor (worker: W.AsyncWorker, sinks: seq<R.RollFileFlush>)
      requires worker.Valid() && worker.flushed == []
      requires forall i :: 0 <= i < |sinks| ==> sinks[i].Valid() && sinks[i].chunks == []
      requires forall i, j :: 0 <= i < j < |sinks| ==> sinks[i] != sinks[j]
      ensures Valid() && this.worker == worker && this.sinks == sinks
    {
      this.worker, this.sinks := worker, sinks;
    }

    /** `Flush` hands a formatted message to the worker. */
    method Push(data: seq<byte>, ghost who: Thread) returns (r: W.Outcome)
      requires Valid() && Enabled(worker.view, AsyncProtocol.Push(who, data))
      requires worker.stop || MustWait(worker.view, data) || !C.Overruns(worker.cfg, worker.view.producer, |data|)
      modifies worker`view, worker`trace, worker.bufferProductor, worker.bufferProductor.data
      ensures Valid() && worker.view == Step(old(worker.view), AsyncProtocol.Push(who, data))
    {
      hide R.RollFileFlush.Stores, Run, Step, Enabled, C.Overruns;
      r := worker.Push(data, who);
    }

    /** The worker's flush outside the mutex, with its callback. */
    method FlushBatch(now: R.Stamp)
      requires Valid() && worker.view.pc == Flushing
      modifies worker`flushed, worker`view, worker`trace, worker.bufferConsumer, sinks
      ensures Valid() && worker.view == Step(old(worker.view), AsyncProtocol.Flush)
    {
      hide R.RollFileFlush.Stores, Run, R.FlushAll;
      worker.FlushBatch();
      var chunk := worker.flushed[|worker.flushed| - 1];
      assert worker.flushed == old(worker.flushed) + [chunk];
      RealFlush(sinks, chunk, now);
    }

    /** The worker's exit test, with the last flush and its callback. */
    method CheckExit(now: R.Stamp) returns (exited: bool)
      requires Valid() && worker.view.pc == Checking
      modifies worker`flushed, worker`view, worker`trace, worker.bufferConsumer, sinks
      ensures Valid() && worker.view == Step(old(worker.view), AsyncProtocol.Check) && (exited <==> worker.view.pc == Exited)
    {
      hide R.RollFileFlush.Stores, Run, R.FlushAll;
      var before := worker.flushed;
      exited := worker.CheckExit();
      if |worker.flushed| > |before| {
        var chunk := worker.flushed[|worker.flushed| - 1];
        assert worker.flushed == before + [chunk];
        RealFlush(sinks, chunk, now);
      }
    }

    /** Of every logger object: the bytes on disk of each sink on fresh names, then the consumer's, then the
        producer's are what was accepted, in lock order. */
    lemma DiskHoldsTheLog(i: nat)
      requires Valid() && i < |sinks| && forall n <- sinks[i].names :: n !in sinks[i].initial
      ensures R.OnDisk(sinks[i].disk, sinks[i].names) + worker.view.consumer.written + worker.view.producer.written
        == worker.view.accepted
    {
      hide R.RollFileFlush.Stores, Run;
      FilesHoldTheLog(worker.safe, worker.cfg, worker.trace, worker.view, sinks[i]);
    }
  }
}
