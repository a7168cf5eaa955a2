# A model of the multi-reactor TCP server and its asynchronous logger

The repository is a TCP server library in the reactor style, with one event loop per thread, and a
logger that moves formatted messages through two buffers to rolled files. This project models the parts
whose correctness is not visible in any one function and proves what holds in every run of them.

Most parts come twice. A *step system* or a *specification on values* has one step per atomic section of
the code and carries the theorems over all runs and all interleavings. A *class* with the fields of the
original carries the sequential code, and its contracts say which steps its methods take. An object either
keeps its run in a ghost `trace`, so that the theorems apply to it, or has what they rest on in its
`Valid()`: every poller object mirrors the kernel, every connection object conserves its stream and, until
its first close, half-closes gracefully, whatever other connections do on the same poller.

| part | on values | objects |
|---|---|---|
| network buffer | `BufferLayout` | `ByteBuffer` |
| channels and epoll | `PollerSpec` | `EpollPoller` |
| one connection | `ConnectionSpec` | `TcpConnection` |
| task protocol of a loop | `Reactor` | `EventLoop` |
| connections across loops | `Lifecycle`, `LifecycleSafety`, `LifecycleProgress` | `TcpServer` |
| loop allocation | `LoopPool` | `LoopPool` |
| logger buffer and worker | `AsyncBuffer`, `AsyncProtocol` | `AsyncBuffer`, `AsyncWorker` |
| rolled files, end to end | `RollFiles`, `AsyncLogger` | `RollFiles`, `AsyncLogger` |
| thread pool | `ThreadPoolProtocol` | `ThreadPool` |

System calls are parameters with the kernel's contract: `write` takes some of the bytes offered or fails
with one of the error numbers the code tells apart, `readv` delivers at most what was offered, `epoll_ctl`
refuses an ADD of a present and a MOD or DEL of an absent descriptor, `epoll_wait` reports only members of
the interest set and each once, the eventfd is a saturating counter. Event masks are sets of flags. User
callbacks are arbitrary sequences of the calls open to them: a connection's callbacks send, shut down and
retrieve input in the middle of the handler that calls them; in the step systems sends, shutdowns and queued
tasks interleave with everything else. Condition variables may wake spuriously and wake any one sleeper.

## What the code does that one might not expect

- `handleClose` leaves `state_` alone and can run several times before `connectDestroyed`; `shutdown` goes
  straight to `kDisconnected`, and `KDisconnecting` is never set.
- A callback can send while its connection is being closed and is heard
  (`ConnectionSpec.CallbackBreaksTheSilence`); `CloseSilencesDispatchIff` says exactly when a closing
  dispatch stays silent.
- `disbaleAll` on a DELETED channel adds it to the kernel set again with no events
  (`PollerSpec.DisableAllTwiceReAdds`), so ADDED does not mean that events are wanted.
- After a close, a shutdown half-closes with bytes still pending
  (`ConnectionSpec.HalfCloseAfterCloseLosesBytes`); `HalfCloseLosesBytesIff` gives the exact condition.
- A task that a loop's own thread queues before `loop()` does not wake the first poll and waits for its timeout,
  unless somebody else's wakeup is there or still to come (`Reactor.QueueOutsideIsLostIff`).
- The logger's buffer grows at most once per push and triples where its comment says that it multiplies. From
  2 GiB on the `int` in the size computation makes the result wrong for every vector
  (`AsyncBuffer.GrowthIsExactIff`); up to 4 GiB, at or beyond the threshold and with less than 4 GiB of linear
  growth, the growing push then throws or overruns the vector (`AsyncBuffer.GrowthFailsFromTwoGiB`).
- SAFE mode is commented as having a fixed size, but a copy changes the size on an exact fit
  (`AsyncProtocol.SafeCopyGrowsIff`). That is also the only way it can fail there: it overruns a vector that came
  out smaller, or `resize` throws (`AsyncProtocol.CopyFailsIff`). The exception takes the producer's notification
  with it. Mostly that does no harm, since the buffer is then not empty and the worker will notify again; it can
  leave the next producer asleep for good before an empty buffer exactly when a message as long as the initial
  buffer, of at least two bytes, makes that buffer throw (`AsyncProtocol.StrandsIff`).
- A producer that waits for space when the worker exits can still be accepted and is then never flushed
  (`AsyncProtocol.BlockedProducerOutlivesWorker`).
- `Stop` notifies without the mutex: its notification is missed exactly when it falls between the worker's test
  and its sleep and no notified producer has room to wake the worker again (`AsyncProtocol.StopIsMissedIff`).
- The vector behind the network buffer never grows while at most 1024 bytes are unread, and with a larger
  bound M on the unread bytes it never exceeds 2M + 6; both are attained (`BufferLayout.SpaceBoundIsTight`).

## Model

| member | source | states |
|---|---|---|
| `BufferLayout.CompactionIsForward` | include/Buffer.hpp:80-96 | the compacting branch is reached only with a consumed byte, so the copy goes strictly forward, and either branch makes room |
| `BufferLayout.ApplyKeepsOrder` | include/Buffer.hpp:30-67 | each operation moves the readable length by exactly the bytes it moved and never shrinks the vector |
| `BufferLayout.SpaceBound` | include/Buffer.hpp:53-96 | over every run of append, retrieve and readFd with at most M unread bytes the vector stays at 1032 when M <= 1024 and never exceeds 2M + 6 otherwise |
| `BufferLayout.SpaceBoundIsTight` | include/Buffer.hpp:80-96 | for every M there is a run that reaches the bound exactly |
| `BufferLayout.OfferedAtLeast` | src/Buffer.cpp:11-24 | a read is offered at least 64 KiB, and the stack area exactly where the writable space is smaller than that |
| `ByteBuffer.Buffer.CopyWithin` | include/Buffer.hpp:92-92 | an element-by-element copy to a lower overlapping place yields the original bytes |
| `ByteBuffer.Buffer.MakeSpace` | include/Buffer.hpp:80-96 | growing or compacting keeps the queue and makes the room asked for |
| `ByteBuffer.Buffer.Append` | include/Buffer.hpp:62-67 | the queue gains exactly the given bytes at its end |
| `ByteBuffer.Buffer.Retrieve` | include/Buffer.hpp:30-40 | the queue loses its oldest bytes, or all of them when asked for too many |
| `ByteBuffer.Buffer.RetrieveAsString` | include/Buffer.hpp:45-50 | returns the oldest bytes and removes them; asked for more than is unread it returns the whole queue first |
| `ByteBuffer.Buffer.ReadFd` | src/Buffer.cpp:6-40 | exactly the n bytes read join the queue, whether they fit or spill into the stack area; an error changes nothing |
| `PollerSpec.MirrorIsExact` | src/EpollPoller.cpp:62-99 | in a mirrored poller the kernel set is exactly the ADDED channels with their current events |
| `PollerSpec.ApplyKeepsMirror` | include/Channel.hpp:54-58 | each enable, disable and remove keeps the mirror, issues only legal `epoll_ctl` calls and touches only its own channel |
| `PollerSpec.RunKeepsMirror` | src/EpollPoller.cpp:62-99 | over every sequence of channel operations the mirror holds and no `epoll_ctl` is ever refused |
| `PollerSpec.DisableAllTwiceReAdds` | src/EpollPoller.cpp:68-82 | disabling everything twice takes the channel out of the kernel set and puts it back with no events |
| `PollerSpec.SharedFdIsRefused` | src/EpollPoller.cpp:68-75 | two channels on one descriptor break the mirror: the ADD is refused and the first is no longer found |
| `PollerSpec.RemoveIsIdempotent` | src/EpollPoller.cpp:91-99 | after a removal the channel is NEW and in neither table nor kernel; a second removal changes nothing |
| `PollerSpec.OperationsByFlag` | include/Channel.hpp:54-58 | what every operation does to the mask, flag by flag: reading is IN and PRI, writing is OUT, nothing else is touched |
| `PollerSpec.KernelWatchesNewMask` | src/EpollPoller.cpp:62-88 | after an operation on the mask the kernel watches the channel for exactly the new mask, unless that is empty |
| `EpollPoller.Poller.UpdateChannel` | src/EpollPoller.cpp:62-88 | the object takes the specified update step |
| `EpollPoller.Poller.RemoveChannel` | src/EpollPoller.cpp:91-99 | the object takes the specified removal step |
| `EpollPoller.Poller.KernelSetIsExact` | src/EpollPoller.cpp:62-99 | between calls every poller object has the kernel watch exactly its ADDED channels with their current events |
| `EpollPoller.Poller.HasChannel` | src/Poller.cpp:6-10 | in a mirrored poller the lookup succeeds exactly for ADDED and DELETED channels |
| `EpollPoller.Poller.FillActiveChannels` | src/EpollPoller.cpp:102-110 | every reported channel is listed once, in order, with its own events stored |
| `EpollPoller.Poller.Poll` | src/EpollPoller.cpp:26-60 | only live ADDED channels become active; the event list doubles exactly when it came back full; an error lists nothing |
| `EpollPoller.Channel.DisableAll` | include/Channel.hpp:58-58 | the step of the specification; the poller object stays a mirror and no `epoll_ctl` is refused, as for the other channel operations |
| `ConnectionSpec.StepConserves` | src/TcpConnection.cpp:75-228 | every entry point keeps wire followed by pending output equal to the accepted payloads |
| `ConnectionSpec.OutputIsOneStream` | src/TcpConnection.cpp:75-228 | in every run from a fresh connection, with any short writes and errors, bytes given to the kernel followed by pending bytes are the accepted payloads in order |
| `ConnectionSpec.SendOutcome` | src/TcpConnection.cpp:75-133 | a send by its outcome: refused when disconnected, appended while something is pending, else split where the kernel stopped; every failed write holds the whole payload except a broken pipe or a reset, which gives it up; write interest exactly while something waits |
| `ConnectionSpec.GivenUpIff` | src/TcpConnection.cpp:81-118 | exactly when a payload is not accepted, by state, flags and error number |
| `ConnectionSpec.WriteOutcome` | src/TcpConnection.cpp:195-228 | a drain by its outcome, in every state: what the kernel takes leaves the output, write interest goes off and a shut-down connection is half-closed exactly when nothing is left; otherwise nothing changes |
| `ConnectionSpec.ShutdownOutcome` | src/TcpConnection.cpp:135-151 | a shutdown disconnects a connected connection once, and half-closes at once unless the channel waits to write, or from another thread owes the loop one half-close |
| `ConnectionSpec.QueuedShutdownOutcome` | src/TcpConnection.cpp:145-151 | a queued half-close is run once and does nothing while the channel waits to write |
| `ConnectionSpec.ReadOutcome` | src/TcpConnection.cpp:174-193 | end of stream turns every event off and changes nothing else; other reads leave the output side alone |
| `ConnectionSpec.DestroyOutcome` | src/TcpConnection.cpp:162-171 | destruction by its outcome, from every state: disconnected if it was connected, with no event wanted, and NEW and unlisted in any case |
| `ConnectionSpec.EstablishRegisters` | src/TcpConnection.cpp:153-160 | establishing makes the connection connected and watched by the kernel for input and urgent data, with write interest as it was |
| `ConnectionSpec.EstablishedListens` | src/TcpConnection.cpp:153-160 | in every run before the first close an established connection is watched for input and urgent data, and for room to write exactly while output is pending |
| `ConnectionSpec.AcceptedWholeOrNotAtAll` | src/TcpConnection.cpp:81-118 | a payload counts whole unless the connection is disconnected or the pipe is broken, and then neither wire nor output moves |
| `ConnectionSpec.HalfCloseIsGraceful` | src/TcpConnection.cpp:135-218 | in every run before the first close, write interest means pending output, the half-close happens only with everything accepted on the wire, and it has happened once shutdown is done and nothing is pending |
| `ConnectionSpec.NothingAfterHalfClose` | src/TcpConnection.cpp:145-151 | in every run, closes and destruction included, the kernel is given and the connection accepts no byte after the half-close |
| `ConnectionSpec.HalfCloseEndsTheStream` | src/TcpConnection.cpp:135-218 | a half-close reached before any close ends the stream for good: wire and accepted bytes agree then and forever |
| `ConnectionSpec.DrainAfterShutdown` | src/TcpConnection.cpp:195-218 | after shutdown each successful handleWrite shortens the output, so there are at most as many as pending bytes, and at the end the half-close has fired |
| `ConnectionSpec.DrainWithoutSends` | src/TcpConnection.cpp:195-218 | in whatever state, over every run without sends or teardown there are at most as many successful drains as pending bytes |
| `ConnectionSpec.HalfCloseAfterCloseLosesBytes` | src/TcpConnection.cpp:135-151 | a run in which a close followed by a shutdown half-closes with bytes pending |
| `ConnectionSpec.HalfCloseLosesBytesIff` | src/TcpConnection.cpp:145-151 | a half-close loses bytes exactly when output is pending that the channel no longer waits to write |
| `ConnectionSpec.StepNotifies` | src/TcpConnection.cpp:90-132 | a step queues at most one functor: high-water exactly at an upward crossing with the new length, write-complete only with everything accepted on the wire |
| `ConnectionSpec.DrainCompletesIff` | src/TcpConnection.cpp:201-212 | a drain queues a write-complete callback exactly when one is installed and the kernel took all that was pending |
| `ConnectionSpec.SendCompletesIff` | src/TcpConnection.cpp:90-103 | a send queues one exactly when it is written directly and whole |
| `ConnectionSpec.OneHighWaterPerCrossing` | src/TcpConnection.cpp:118-126 | over every run the high-water callbacks queued are as many as the upward crossings |
| `ConnectionSpec.CrossingsAreSeparated` | src/TcpConnection.cpp:120-126 | between being at or above the mark and the next crossing there is a moment below it |
| `ConnectionSpec.RunKeepsMirror` | src/TcpConnection.cpp:75-238 | every run of a connection keeps the poller a mirror and has no `epoll_ctl` refused |
| `ConnectionSpec.DestroyIsFinal` | src/TcpConnection.cpp:162-171 | from connected or disconnected, closed any number of times or not, destruction leaves the channel NEW and unlisted, and a second destruction changes nothing |
| `ConnectionSpec.DestroyedStaysGone` | src/TcpConnection.cpp:162-171 | sends, shutdowns and further destructions never register a destroyed connection again |
| `ConnectionSpec.DispatchAfterDestroyReAdds` | src/TcpConnection.cpp:230-238 | a dispatched close after destruction would register the channel again, which is why dispatch safety matters |
| `ConnectionSpec.CallsAreRun` | src/TcpConnection.cpp:58-143 | whatever a callback calls on its connection is a run of the connection's steps |
| `ConnectionSpec.CallOutcome` | src/TcpConnection.cpp:58-143 | a callback's send needs a connected connection, its shutdown acts at once and queues nothing, its retrieval leaves the output side alone |
| `ConnectionSpec.CallsOnDisconnected` | src/TcpConnection.cpp:162-171 | the callback inside `connectDestroyed` can change nothing about the connection, so the destruction is one step |
| `ConnectionSpec.DispatchIsRun` | src/Channel.cpp:48-75 | one dispatch is a run of its close, what that callback calls, its read, what that callback calls, and its write, in that order |
| `ConnectionSpec.DispatchByFlags` | src/Channel.cpp:48-75 | which reported flags call which handler: a close first exactly on HUP without IN, a read exactly on IN or PRI, a write last exactly on OUT |
| `ConnectionSpec.CloseSilencesDispatchIff` | src/Channel.cpp:48-75 | a dispatch that closes the connection writes, holds and queues nothing and leaves no write interest exactly when every call of its callbacks is quiet: no send, or one that is refused, broken, or empty and told to nobody |
| `ConnectionSpec.NoSendIsQuiet` | src/TcpConnection.cpp:230-238 | callbacks that do not send, or find the connection shut down, are quiet |
| `ConnectionSpec.CallbackBreaksTheSilence` | src/TcpConnection.cpp:230-238 | a byte sent by the connection callback of a close, with nothing pending, is on the wire |
| `ConnectionSpec.MessageCallbackIsCalled` | src/TcpConnection.cpp:174-193 | the message callback runs after every read that delivered something and after no failed one |
| `TcpConnection.TcpConnection.constructor` | src/TcpServer.cpp:83-83 | a new connection is fresh: new channel in a mirrored poller, nothing pending or accepted |
| `TcpConnection.TcpConnection.ObjectKeepsItsPromises` | src/TcpConnection.cpp:75-238 | of every connection object: wire and pending bytes are the accepted ones, the poller mirrors the kernel, and before the first close the half-close is exactly as graceful as the run theorem says and an established connection is watched for input |
| `TcpConnection.TcpConnection.SendInLoop` | src/TcpConnection.cpp:75-133 | takes the specified send step over the real buffer and channel and keeps the object's promises |
| `TcpConnection.TcpConnection.Send` | src/TcpConnection.cpp:58-72 | in the loop's own thread: a send step when connected, nothing otherwise |
| `TcpConnection.TcpConnection.Shutdown` | src/TcpConnection.cpp:135-143 | disconnects once, then half-closes at once or through the queue |
| `TcpConnection.TcpConnection.RunCallback` | src/TcpConnection.cpp:178-182 | a callback's sends, shutdowns and retrievals take effect in order on stream and input |
| `TcpConnection.TcpConnection.ConnectEstablished` | src/TcpConnection.cpp:153-160 | connected, tied and reading, and then what the connection callback calls |
| `TcpConnection.TcpConnection.ConnectDestroyed` | src/TcpConnection.cpp:162-171 | takes the specified step, whatever the connection callback calls |
| `TcpConnection.TcpConnection.HandleRead` | src/TcpConnection.cpp:174-193 | delivered bytes join the input queue before the message callback consumes and sends; end of stream closes; an error changes nothing |
| `TcpConnection.TcpConnection.HandleWrite` | src/TcpConnection.cpp:195-228 | in every state what the kernel takes moves from the real buffer to the wire, and write interest stays exactly while something is left |
| `TcpConnection.TcpConnection.HandleClose` | src/TcpConnection.cpp:230-238 | all events off, then what the connection callback calls with the state unchanged |
| `TcpConnection.TcpConnection.HandleEventWithGuard` | src/Channel.cpp:48-75 | one dispatch in the order close, read, write, each with its callback, on stream and input |
| `TcpConnection.TcpConnection.HandleEvent` | src/Channel.cpp:32-46 | a dispatch when the channel is not tied or its owner is alive, nothing at all otherwise |
| `TcpConnection.PlainRead` | src/Channel.cpp:48-75 | a read event alone: exactly the delivered bytes join the input, and end of stream turns every event off |
| `TcpConnection.SendBeside` | src/TcpConnection.cpp:75-133 | a send leaves every other connection of the same loop valid, with its stream, state and input as they were |
| `TcpConnection.DispatchBeside` | src/Channel.cpp:32-75 | so does a whole dispatch with its callbacks |
| `Reactor.NoLostWakeup` | src/EventLoop.cpp:63-186 | in every interleaving where the owner queues only inside its running loop, a poll with a task pending or a foreign quit unseen is signalled or about to be |
| `Reactor.OnlySilentTasksAreLost` | src/EventLoop.cpp:121-134 | without that restriction an unsignalled poll has pending exactly what the owner queued outside the loop |
| `Reactor.QueueOutsideIsLostIff` | src/EventLoop.cpp:121-134 | a task queued by the owner before `loop()` is run, without a new call or a timeout, exactly when the eventfd was readable or a pusher or quitter still owed its wakeup |
| `Reactor.TasksRunInPushOrder` | src/EventLoop.cpp:121-186 | in every run executed tasks, then the rest of the batch, then the queue are the pushes in order |
| `Reactor.BatchIsFixedAtSwap` | src/EventLoop.cpp:170-186 | a batch is what was pending at the swap, whatever its functors queue |
| `Reactor.SignalDrains` | src/EventLoop.cpp:70-86 | from a signalled poll the loop's own steps run everything pending and return to the quit check |
| `Reactor.PollGoesOnIff` | src/EventLoop.cpp:70-86 | a poll with tasks pending leads to their execution, without a new call or a timeout, exactly when it is signalled or a caller still owes a wakeup |
| `Reactor.PendingTasksGetRun` | src/EventLoop.cpp:63-186 | so with the owner queueing only inside its running loop, whatever is pending in a poll of any run gets run |
| `EventLoop.EventLoop.QueueInLoop` | src/EventLoop.cpp:121-134 | the task goes to the end of the queue; only the owner outside a batch skips the wakeup; the steps taken are recorded |
| `EventLoop.EventLoop.RunInLoop` | src/EventLoop.cpp:107-118 | the owner runs the functor itself, everybody else queues it and wakes the loop |
| `EventLoop.EventLoop.Quit` | src/EventLoop.cpp:96-104 | sets the flag and wakes the loop only from another thread |
| `EventLoop.EventLoop.DoPendingFunctions` | src/EventLoop.cpp:170-186 | runs exactly what was pending at the swap, in order; what the functors queue stays pending, in order; the loop is asked to quit exactly if it was or one of them does |
| `EventLoop.EventLoop.RunRound` | src/EventLoop.cpp:72-85 | one round runs the old queue and what the handlers queued, leaves what those functors queued, and quits exactly when handlers or functors do |
| `EventLoop.EventLoop.RunLoop` | src/EventLoop.cpp:63-89 | every round runs as one batch what was pending and what its handlers queued and leaves what that batch queued; the first round in which a handler or functor quits is the last, otherwise all are executed and the loop polls, with nothing pending unless the eventfd is readable |
| `LifecycleSafety.RunKeeps` | src/TcpServer.cpp:66-107 | every reachable state of base loop and I/O loops, under every interleaving of their threads, satisfies the life-cycle invariant |
| `LifecycleSafety.ListedMeansHeld` | src/TcpServer.cpp:66-107 | whatever a poller's table or kernel set names is alive and held by the map, a queued or running functor, or a call in progress |
| `LifecycleSafety.DispatchIsSafe` | src/EventLoop.cpp:70-86 | every channel still to be dispatched or being dispatched is established, not destroyed, owned and on this loop, with any number of I/O loops or none |
| `LifecycleSafety.DestroyOnlyInFunctorPhase` | src/TcpServer.cpp:94-107 | `connectDestroyed` runs only in the functor phase of the connection's own loop, after its establishment, out of the map, with nothing being dispatched |
| `LifecycleSafety.NothingRefersToTheFreed` | src/TcpConnection.cpp:153-171 | no functor or call refers to a freed connection, and no `epoll_ctl` of any loop is refused |
| `LifecycleSafety.UnheldIsGone` | src/TcpServer.cpp:100-107 | a connection that nobody holds any more has been destroyed first |
| `LifecycleSafety.DestroyedForGood` | src/TcpConnection.cpp:162-171 | once destroyed a connection stays disconnected, out of the map, and its channel NEW and unlisted in every later state |
| `LifecycleSafety.NewNameIsUnused` | src/TcpServer.cpp:69-84 | the name of a new connection is not in the map, so no other connection is replaced |
| `LifecycleSafety.EstablishListens` | src/TcpServer.cpp:91-91 | an established connection is connected and watched for input and urgent data on its own loop |
| `LifecycleSafety.StepChangesMask` | src/TcpConnection.cpp:195-238 | a close turns every event off before its callbacks, sends and drains turn write interest on and off, a shutdown disconnects |
| `LifecycleSafety.DisconnectStops` | src/TcpConnection.cpp:162-171 | a destruction that finds the connection connected disconnects it and turns every event off |
| `LifecycleProgress.StepKeepsDoomed` | src/TcpServer.cpp:100-107 | once queued, a destruction stays queued or running until it is done, whichever step whoever takes |
| `LifecycleProgress.StepKeepsCondemned` | src/TcpServer.cpp:94-107 | a removal under way, from its close callback on, stays under way until the destruction is done, whichever step whoever takes |
| `LifecycleProgress.OneTurn` | src/EventLoop.cpp:70-86 | from any position of its thread a loop's own steps return its call in progress and run everything queued for a connection |
| `LifecycleProgress.RemovalCompletes` | src/TcpServer.cpp:94-107 | from every reachable state in which a removal is under way the loops' own steps alone lead to the destruction of the connection |
| `LifecycleProgress.RemovalStaysCompletable` | src/TcpServer.cpp:94-107 | after whatever users, connections, events and loops did meanwhile, the loops' own steps still lead to the destruction |
| `LifecycleProgress.ReportedGetsDispatched` | src/EventLoop.cpp:70-78 | every channel that a poll reports gets its dispatch by the loop's own steps |
| `TcpServer.TcpServer.NewConnection` | src/TcpServer.cpp:66-92 | the map gains exactly the new connection, under the prefix and the old counter, which rises by one, on the loop next in turn; the steps taken are accept and hand-off |
| `TcpServer.TcpServer.RemoveConnection` | src/TcpServer.cpp:94-98 | from another loop the removal is queued on the base loop; on the base loop the map lets go and the destruction is queued |
| `TcpServer.TcpServer.RemoveConnectionInLoop` | src/TcpServer.cpp:100-107 | the map lets go of the connection, whose destruction is queued on its own loop and never run in place |
| `Decimal.ToStringIsInjective` | src/TcpServer.cpp:69-69 | different counters give different numerals |
| `LoopPool.PositionIsModulo` | src/EventLoopThreadPool.cpp:32-43 | after k calls on n loops the position is k mod n |
| `LoopPool.SharesAreExact` | src/EventLoopThreadPool.cpp:32-43 | each loop has got k div n hand-outs, one more when its index is below the position |
| `LoopPool.AllocationIsFair` | src/EventLoopThreadPool.cpp:32-43 | any two loops differ by at most one hand-out |
| `LoopPool.EventLoopThreadPool.GetNextLoop` | src/EventLoopThreadPool.cpp:32-43 | the base loop when alone, otherwise the loop in turn, keeping the hand-outs fair |
| `AsyncBuffer.GrowthIsExactIff` | log_system/logs_code/AsyncBuffer.hpp:14-29 | for every vector and configuration the computed size is the intended one exactly below 2 GiB with a sum that is still a `size_t` |
| `AsyncBuffer.OneGrowthIsEnough` | log_system/logs_code/AsyncBuffer.hpp:14-42 | below 2 GiB, and with a sum that a vector can have, a push no longer than twice the vector and the linear growth neither throws nor overruns |
| `AsyncBuffer.OneGrowthIsNotAlwaysEnough` | log_system/logs_code/AsyncBuffer.hpp:14-42 | where the size is computed right, exactly which growing pushes neither throw nor overrun |
| `AsyncBuffer.GrowthFailsFromTwoGiB` | log_system/logs_code/AsyncBuffer.hpp:14-42 | from 2 GiB to 4 GiB beyond the threshold, with less than 4 GiB of linear growth, every growing push fails: it throws or overruns, and exactly when which |
| `AsyncBuffer.Buffer.Push` | log_system/logs_code/AsyncBuffer.hpp:36-42 | the unread bytes gain exactly the given ones, or an exception leaves the buffer as it was, and exactly when which |
| `AsyncProtocol.LogIsConserved` | log_system/logs_code/AsyncWorker.hpp:25-77 | in every run and both modes, failed copies included, flushed bytes, then the consumer's, then the producer's are the accepted pushes in lock order |
| `AsyncProtocol.PushOutcome` | log_system/logs_code/AsyncWorker.hpp:25-36 | a push does nothing after the stop flag, waits exactly in SAFE mode when it is longer than the room left, and is otherwise accepted behind what is there and wakes a sleeping worker, unless its copy throws or overruns |
| `AsyncProtocol.ResumeOutcome` | log_system/logs_code/AsyncWorker.hpp:30-35 | a producer that looks again has the same outcomes, whatever the stop flag says by then |
| `AsyncProtocol.ExitFlushesEverything` | log_system/logs_code/AsyncWorker.hpp:64-72 | when the worker exits, everything accepted so far has been flushed |
| `AsyncProtocol.AcceptedGetsFlushed` | log_system/logs_code/AsyncWorker.hpp:45-77 | from every reachable state with the worker alive its own steps flush everything accepted, within four of them |
| `AsyncProtocol.CleanExit` | log_system/logs_code/AsyncWorker.hpp:25-77 | exiting with no producer in the space wait, nothing is accepted later and flushed equals accepted for good |
| `AsyncProtocol.UnsafeExitIsClean` | log_system/logs_code/AsyncWorker.hpp:25-77 | in UNSAFE mode every exit is of that kind |
| `AsyncProtocol.BlockedProducerOutlivesWorker` | log_system/logs_code/AsyncWorker.hpp:25-36 | a producer in the space wait at the exit can still be accepted, and its message is never flushed |
| `AsyncProtocol.NeverAllAsleep` | log_system/logs_code/AsyncWorker.hpp:25-77 | in every SAFE-mode run with messages no longer than the initial buffer and no overrun, whichever copies threw, a sleeping producer has bytes before it or a notified colleague, and a sleeping worker an empty buffer, provided a message of exactly the initial size does not make the initial buffer throw |
| `AsyncProtocol.CopyFailsIff` | log_system/logs_code/AsyncBuffer.hpp:14-42 | a SAFE-mode copy overruns exactly on an exact fit with a smaller computed size, and throws exactly on an exact fit with a size no vector can have |
| `AsyncProtocol.NeverStuck` | log_system/logs_code/AsyncWorker.hpp:25-77 | in every such run, while not stopped and with a producer in the space wait, worker and notified producers alone get a waiting message accepted within four steps, provided a message of exactly the initial size fits after the one growth |
| `AsyncProtocol.FullMessageFails` | log_system/logs_code/AsyncWorker.hpp:25-77 | without that provision, and with at least two bytes of buffer, a run without failure leads to two producers with messages as long as the buffer, one notified and one asleep, before an empty buffer |
| `AsyncProtocol.FullCopyFails` | log_system/logs_code/AsyncWorker.hpp:30-35 | there the wait of the notified one is over and its copy overruns the vector, or throws and leaves everybody waiting |
| `AsyncProtocol.StrandedForGood` | log_system/logs_code/AsyncWorker.hpp:25-77 | after the exception, without a spurious wakeup, a further push or a stop, the producer asleep is never let in |
| `AsyncProtocol.StrandsIff` | log_system/logs_code/AsyncWorker.hpp:25-77 | some such run leaves a producer asleep, nobody notified, before an empty buffer exactly when the initial buffer has at least two bytes and a message of exactly its size makes it throw |
| `AsyncProtocol.EmptyBufferTakesIff` | log_system/logs_code/AsyncWorker.hpp:30-34 | an empty buffer takes a notified message exactly when it is no longer than the vector and its copy goes well; a longer one sleeps again |
| `AsyncProtocol.SafeCopyGrowsIff` | log_system/logs_code/AsyncBuffer.hpp:14-42 | a SAFE-mode copy, at once or after a wait, changes the size of the vector exactly on an exact fit, unless the computed size is the old one |
| `AsyncProtocol.StopIsSeenAwake` | log_system/logs_code/AsyncWorker.hpp:45-77 | a worker that is not going to sleep, asleep or gone exits within three own steps of the stop flag |
| `AsyncProtocol.StopIsMissedAsleep` | log_system/logs_code/AsyncWorker.hpp:38-54 | a worker going to sleep under the stop flag, with nobody in the space wait, stays asleep in every run that does not wake it again |
| `AsyncProtocol.StopIsMissedIff` | log_system/logs_code/AsyncWorker.hpp:38-54 | the stop notification is missed exactly when it falls between the worker's test and its sleep and no notified producer has room to wake the worker again |
| `AsyncProtocol.StopCanBeMissed` | log_system/logs_code/AsyncWorker.hpp:38-54 | that moment is reached in every mode and configuration |
| `AsyncWorker.AsyncWorker.Push` | log_system/logs_code/AsyncWorker.hpp:25-36 | takes the specified push step: waits exactly in SAFE mode without room, copies, or throws and loses the message |
| `AsyncWorker.AsyncWorker.LockAndSwap` | log_system/logs_code/AsyncWorker.hpp:51-60 | the worker sleeps, or swaps and notifies, as specified |
| `AsyncWorker.AsyncWorker.CheckExit` | log_system/logs_code/AsyncWorker.hpp:62-72 | the exit test with the last flush under the mutex, as specified |
| `AsyncWorker.AsyncWorker.ExitedObjectHasFlushed` | log_system/logs_code/AsyncWorker.hpp:45-77 | after a clean exit the callback has been given everything accepted |
| `RollFiles.FilesHoldTheStream` | log_system/logs_code/LogFlush.hpp:80-125 | over every sequence of flushes the files in order hold the chunks in order, none split |
| `RollFiles.FilesRollAtTheLimit` | log_system/logs_code/LogFlush.hpp:107-125 | with a positive limit every closed file has reached it and none had before its last chunk |
| `RollFiles.ZeroLimitRollsAlways` | log_system/logs_code/LogFlush.hpp:107-125 | with a limit of zero every chunk gets a file of its own, so the bound fails from the first flush |
| `RollFiles.NamesAreDistinct` | log_system/logs_code/LogFlush.hpp:127-141 | names with different counters differ, whatever the clock says |
| `RollFiles.NameOfAnExample` | log_system/logs_code/LogFlush.hpp:127-141 | the parts of a name in order, unpadded, on an example |
| `RollFiles.StampsCollide` | log_system/logs_code/LogFlush.hpp:127-141 | the time alone does not tell files apart: two days of every year read the same |
| `RollFiles.RollFileFlush.Flush` | log_system/logs_code/LogFlush.hpp:80-104 | the chunk is on disk whole, in the current file or a new one as the limit says |
| `RollFiles.RollFileFlush.DiskHoldsTheStream` | log_system/logs_code/LogFlush.hpp:80-141 | on fresh names the bytes on disk, in order of creation, are the flushed stream, and the names are pairwise distinct |
| `AsyncLogger.RealFlush` | log_system/logs_code/AsyncLogger.hpp:137-146 | every rolling sink gets the same chunk, whole and once |
| `AsyncLogger.FilesHoldTheLog` | log_system/logs_code/AsyncLogger.hpp:131-146 | at every moment of every run the bytes on a sink's disk, then the consumer, then the producer buffer are exactly what was accepted, in lock order |
| `AsyncLogger.FilesHoldEverythingAfterExit` | log_system/logs_code/AsyncLogger.hpp:131-146 | after a clean exit the bytes on disk alone are everything accepted |
| `AsyncLogger.AsyncLogger.FlushBatch` | log_system/logs_code/AsyncLogger.hpp:137-146 | the worker's flush hands its chunk to every sink, which all keep exactly what the worker has flushed |
| `AsyncLogger.AsyncLogger.DiskHoldsTheLog` | log_system/logs_code/AsyncLogger.hpp:131-146 | of every logger object: the bytes on disk of each sink on fresh names, then consumer, then producer bytes are what was accepted |
| `ThreadPoolProtocol.NoTaskIsForgotten` | log_system/logs_code/ThreadPool.hpp:20-73 | with a worker, a queued task never meets only sleeping workers unless an enqueuer or the destructor has yet to notify |
| `ThreadPoolProtocol.DrainedWhenJoined` | log_system/logs_code/ThreadPool.hpp:20-73 | with a worker, when the destructor returns everything accepted was taken in order and executed exactly once |
| `ThreadPoolProtocol.DestructorReturns` | log_system/logs_code/ThreadPool.hpp:65-73 | from every reachable state, with any number of workers, the destructor's and the workers' own steps lead to its return, when tasks end |
| `ThreadPoolProtocol.StopIsFinal` | log_system/logs_code/ThreadPool.hpp:54-60 | after the stop flag nothing more is accepted |
| `ThreadPoolProtocol.NoWorkersNoDrain` | log_system/logs_code/ThreadPool.hpp:65-73 | without workers the destructor returns with an accepted task undone |
| `ThreadPool.ThreadPool.Enqueue` | log_system/logs_code/ThreadPool.hpp:54-60 | appends the task, or fails on a stopped pool and changes nothing |
| `ThreadPool.ThreadPool.Fetch` | log_system/logs_code/ThreadPool.hpp:25-34 | a worker takes the oldest task, leaves a stopped empty pool, or sleeps on an empty one |
| `ThreadPool.ThreadPool.JoinedObjectIsDrained` | log_system/logs_code/ThreadPool.hpp:65-73 | once the destructor has joined, the object has executed all it accepted |

## Left out

- `sendFile` and `sendFileInLoop`: the retry queues the advanced offset with the original count, so no exact-count law holds.
- The hand-off of `send` and `shutdown` between threads as far as object lifetime goes: it queues a raw `this` and a pointer into the caller's string. `ConnectionSpec` takes the bytes as received, and `Lifecycle` counts such functors as user tasks.
- TcpConnection.TcpConnection.Send: models the call in the loop's own thread only, for the same reason.
- The server's destructor and the teardown of loop threads; a quit issued before `loop()` starts is reset by it, as in the code.
- Termination of the worker's `Stop`: `StopIsMissedIff` says when its notification is lost; that a lost one is repeated is nobody's promise.
- AsyncLogger.RealFlush: every sink is a rolling one; the plain file and console sinks are not part of this model.
- AsyncProtocol.LogIsConserved: after a copy past the end of its vector, which is undefined behaviour, the system has no further step and nothing more is claimed.
- AsyncBuffer.Buffer.Push: promises nothing to a caller whose copy runs past the vector, which is undefined behaviour.
- AsyncWorker.AsyncWorker.Push: promises nothing to a caller whose copy runs past the vector, for the same reason.
- Memory running out, and a configured buffer size that no vector can have, with which the constructor throws.
- How often the connection callback is called, and what `connected()` says inside it: both `handleClose` and `connectDestroyed` call it.
- EventLoop.EventLoop.RunLoop: the object runs alone over given rounds of polling; interleaving with other threads is in `Reactor`.
- EventLoop.EventLoop.RunInLoop: in its own thread it reports that the functor runs at once instead of running it.
- A high-water callback is queued whether or not one is installed, as in the code; calling an empty one is not modelled.
- Failing `fopen`, `fwrite`, `fflush` and `fsync`, and failing creation of the epoll and eventfd descriptors; the code only logs these.
- Overflow of the connection counter and of the file counter, which are unbounded here.
- A clock set before 1900: the fields of the time stamp are taken as non-negative.
- The wakeup channel and the acceptor's channel in the life cycle: they live as long as their loop.
- Sockets, addresses, the acceptor's system calls, time stamps and thread wrappers, which only forward to the operating system.
- Message formatting, levels, the logger registry, configuration files, and the backup client and server.
- Futures of the thread pool's tasks; a task is an identity here.
- Drivers and build files.
