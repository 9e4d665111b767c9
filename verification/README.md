# A verified model of ZeroMQ.js

The project models the parts of ZeroMQ.js whose correctness depends on the order in which things
happen: the native socket and its poller, the observer, the version 5 compatibility socket, the
Majordomo example, the ownership of message memory, the teardown of modules and contexts, and two
small cores (the cast to an unsigned 64-bit integer and the threaded worker example).
`dafny verify dfyconfig.toml` checks everything.

## How it is built

Most parts come in two halves. One half is an abstract machine: a state, the events that may happen
to it, and what every run of events keeps. The other half is imperative, in the form of the source:
classes with the source's fields, bitmasks, listener counts, maps and loops. Every method is proved to do
one step of the machine, the source's own assertions are preconditions or facts at the place where it
has them, and for the sockets, the observer and the broker a `Follow` method shows that a new object follows
every run of the machine. So what is proved of the machine's reachable states holds of the fields of the class.

| files | part of the program |
|---|---|
| SocketSpec.dfy, SocketTurns.dfy, SocketAnswers.dfy, SocketReentry.dfy, SocketJobs.dfy, NativeSocket.dfy | `src/socket.cc`, `src/socket.h`, `src/poller.h`, `src/util/uvdelayed.h` |
| Observer.dfy | `src/observer.cc` with its poller |
| CompatSpec.dfy, CompatAnswers.dfy, Compat.dfy | `src/compat.ts` |
| MajordomoSpec.dfy, MajordomoProofs.dfy, MajordomoStop.dfy, Majordomo.dfy, MajordomoRun.dfy, Mdp.dfy | `examples/majordomo` and the envelopes of ZeroMQ RFC 7/MDP |
| Trash.dfy, Messages.dfy | `src/util/trash.h`, `src/outgoing_msg.cc`, `src/incoming_msg.cc` |
| Teardown.dfy, Lending.dfy | `src/util/reaper.h`, `src/context.cc`, `src/module.h`, `src/module.cc` |
| NumberCast.dfy | the cast in `src/socket.cc` |
| Caesar.dfy | `examples/threaded-worker` |

### The native socket

A direction of the abstract socket has one owner: nobody, the poller (with or without a timer), or one
delayed callback. libzmq is an oracle: every step gets any answers to `HasEvents`, `zmq_msg_send` and
`zmq_msg_recv`; an answer stands for what is left when calls interrupted by EINTR have been repeated. JavaScript
may call anything at any time; the event loop runs only what is armed. Settling a promise only schedules
user code, so `Close` is atomic for JavaScript; the two halves of the file descriptor callback and of the
delayed callbacks are separate steps, because user code may run between them. User code runs inside a step in one
place: `send()` converts its message, which calls `toString()` of objects and getters of arrays, between its
tests and their use. In SocketSpec.dfy a send is one step, that is, its conversion runs no code on the same
socket; SocketReentry.dfy has programs in which conversions make any calls, to any depth, and the exact condition
under which what is proved in SocketSpec.dfy still holds. A wakeup being armed is what is claimed, not that libzmq
will signal it.

### Majordomo

Each client and each worker has a FIFO channel to the broker and one back. An `async` handler is cut at its
`await`, so any number of dispatch loops of a service can be suspended at once. Stopping a worker is two steps,
sending DISCONNECT and closing the socket; in between its loop goes on, and may reply or have a reply refused.
Assumed: the broker's sends do not fail; what a worker's socket accepts reaches the broker; a worker sends READY
once, first, and is stopped at most once; names and identities are byte strings.

### The compatibility socket

The listener of a pump, the coroutine waiting for the native socket and the coroutine returning from `_recv` or
`_send` are counted; that there is never more than one per direction is proved. Assumed: user callbacks
and event listeners do not throw.

## What the proofs found

- `send()` tests the state and the slot before it converts the message, and user code may run in the conversion.
  A promise is lost if and only if some send then finds its slot taken and does not complete at once
  (`SocketReentry.PromisesConservedIff`, with `SocketReentry.InnerSendIsLost`: a message whose `toString()` sends
  another one). With assertions, the one in `PollWritable` fails there. A conversion that closes the socket makes the
  send poll with released handles, unless its timeout is 0 (`SocketReentry.ClosedRest`).
- While a bind or unbind runs on a worker thread, the main thread uses the same libzmq socket if and only if a
  receive or send was pending at the call (`SocketJobs.UsedDuringJobIff`, `SocketJobs.ReceivesDuringBind`).
- When a bind or unbind job cannot be queued, the call throws but the socket stays blocked for ever
  (`SocketSpec.ClosableIffQueued`, `SocketSpec.FailedQueueBlocksForEver`). This is hypothetical: libuv refuses a work
  item only when it has no callback, and `src/util/uvwork.h` always gives one.
- A send that libzmq cannot take, or that is delayed, has asked libzmq for events, which consumes the edge of the file
  descriptor, but does not look whether a pending receive is ready; and the other way round
  (`SocketSpec.ReadyReceiveIsLeftIff`, with runs in `SocketSpec.ReadyReceiveLeft`). A delayed send looks after it is
  done; one that waits with the poller, only when the file descriptor fires.
- The limit of 512 synchronous operations does not keep JavaScript from starving the event loop: the counter is reset
  by the callbacks that run inside `send()` and `receive()`, and operations with timeout 0 are not counted. When exactly
  it can be starved is `SocketTurns.StarvesIff`; the limit that does hold is `SocketTurns.AtMost512PerTurn`.
- The comment in the reaper says that the most recently registered objects are closed first. The code closes by
  descending address; the two agree exactly when addresses ascend in the order of registration
  (`Teardown.ReapsMostRecentFirstIff`, `Teardown.NotAlwaysMostRecentFirst`).
- The comment in the observer's `Close` says that a pending receive is resolved with undefined; it is
  rejected with ENOTSOCK (`Observer.PendingReceiveIsRejected`).
- On a compatibility socket whose type cannot send, the first finished message ends the send pump for good
  (`CompatSpec.SendPumpRuns`: the pump runs if and only if the type can send).
- `Worker.stop` of the Majordomo example closes its socket only after DISCONNECT was sent. The broker lists the
  stopped worker again if and only if it sends a reply in between (`MajordomoStop.StopIsFinalIff`), and then hands
  it requests that never leave its channel (`MajordomoStop.ClosedWorkerGetsRequest`, `MajordomoStop.StuckForGood`).
- A buffer lent by one agent can be recycled into the trash of a module that is gone. In a whole run of the process
  that happens if and only if some module is unloaded, while others are left, before libzmq released all its
  buffers (`Lending.NoneLateIff`).
- A REPLY without a client does not make the broker's handler throw: its worker is listed and an unhandled promise is
  rejected (`Majordomo.Broker.OnMessage`). A READY without a service makes it throw, and forgets the worker.
- `Processor.process` ends if and only if its text is not empty and all ASCII (`Caesar.Gather`).

## Model

| member | source | states |
|---|---|---|
| SocketSpec.StepKeeps | src/poller.h:47-156 | every step of a socket, a send being one step, keeps: each promise in one place, sends faithful, fairness counter bounded, one close |
| SocketSpec.RunKeeps | src/poller.h:47-156 | the same for runs of any length and interleaving |
| SocketSpec.ReachableInv | src/socket.cc:490-622 | the invariant holds in every state a new socket can reach |
| SocketSpec.RunThenStep | src/socket.cc:490-622 | a run extended by an enabled event is a run that ends in the applied event |
| SocketSpec.ReachableStep | src/socket.cc:490-622 | an enabled step of a reachable socket is reachable |
| SocketSpec.PromiseConservation | src/socket.cc:545-577 | when conversions run no code on the socket, every promise issued is settled exactly once or pending with exactly one owner; none is settled twice or dropped |
| SocketReentry.PromisesConservedIff | src/socket.cc:515-577 | in every program of a new socket, with conversions that make any calls to any depth or throw: no promise is lost iff no send overwrites a pending one, and none is ever in two places |
| SocketReentry.LosesIff | src/socket.cc:515-577 | the same from any sound state; what is lost once is lost for good |
| SocketReentry.RestKeepsIff | src/socket.cc:545-577 | in whatever state the conversion left the socket, the rest of send keeps the whole invariant iff that state is clean |
| SocketReentry.OpenRestConservesIff | src/socket.cc:545-577 | when it is open: no promise is lost iff the slot is free or the operation completes at once |
| SocketReentry.ClosedRest | src/socket.cc:545-577 | when it is closed: a send without timeout is rejected with ENOTSOCK, or resolves when it has no parts; any other polls with released handles |
| SocketReentry.BlockedRest | src/socket.cc:545-577 | when it is blocked: the send goes on as on an open socket |
| SocketReentry.InnerSendIsLost | src/outgoing_msg.cc:84-85 | a program that loses a promise: a conversion that sends, on a new socket that libzmq cannot send on |
| SocketReentry.CleanProgramsKeep | src/socket.cc:515-577 | programs whose conversions leave clean states keep the whole invariant |
| SocketReentry.HarmlessIsClean | src/socket.cc:515-577 | conversions that call neither send nor close on the socket leave clean states, in every program |
| SocketReentry.NoCodeIsPlain | src/socket.cc:515-577 | a conversion without calls makes the plain send |
| SocketReentry.PlayOn | src/socket.cc:515-577 | the native socket plays every program with clean conversions, with all assertions of the source |
| SocketJobs.UsedDuringJobIff | src/socket.cc:353-363 | after a queued bind or unbind some run uses the libzmq socket on the main thread before completion iff an operation that does so was pending |
| SocketJobs.ReceivesDuringBind | src/socket.cc:895-901 | a run that receives while the bind job runs |
| SocketSpec.WakeupIsArmed | src/poller.h:66-114 | every pending promise has an armed waker (timer, file descriptor, delayed callback or job) that settles it when libzmq is ready |
| SocketSpec.ReadyReceiveIsLeftIff | src/socket.cc:545-577 | a send leaves a receive that is ready with the poller if and only if it has a timeout and libzmq cannot take it or the counter has run out; else the receive is settled |
| SocketSpec.ReadySendIsLeftIff | src/socket.cc:593-621 | the same for a receive and a send that is ready |
| SocketSpec.ReadyReceiveLeft | src/socket.cc:573-577 | a run of a new socket that leaves a ready receive without a timeout |
| SocketSpec.ReadySendLeft | src/socket.cc:617-621 | a run of a new socket that leaves a ready send without a timeout |
| SocketSpec.OnlyTheDescriptorEndsIt | src/poller.h:161-167 | when both directions wait with the poller without a timer, no run without the descriptor, a delayed callback or close() settles either |
| SocketSpec.WireIsFaithful | src/socket.cc:277-295 | what libzmq accepted is, settlement by settlement, the first parts given at that send's own call, in order, each flagged with more iff it is not the last of the call, and all of them iff it resolved |
| SocketAnswers.EverySettlementIsAnAnswer | src/socket.cc:277-338 | from every reachable state, whatever step settles a promise (call, descriptor, timer, delayed callback, close or job): a send resolves iff libzmq takes all its parts or it has none, else libzmq's error or ENOTSOCK without a socket; a receive gets every part of the message in order, or the error; a bind or unbind resolves iff its job had no error |
| SocketAnswers.JobIsAnswered | src/socket.cc:364-381 | whatever happens between a queued bind or unbind and its completion, its promise is settled last, resolved iff there was no error, else rejected with exactly that error |
| SocketAnswers.WaitingReadEndsIff | src/poller.h:118-124 | for each event, exactly when it settles a receive that waits; without input neither the descriptor nor a look of another step does |
| SocketAnswers.WaitingWriteEndsIff | src/poller.h:126-132 | the same for a send that waits |
| SocketAnswers.SendSettlesAtOnceIff | src/socket.cc:515-577 | a send is refused iff the socket is not open or the direction is taken; else exactly when it is settled at once, put off, or given a timer, by its timeout, the counter and what libzmq says |
| SocketAnswers.ReceiveSettlesAtOnceIff | src/socket.cc:583-621 | the same for a receive |
| SocketAnswers.OrderOfSettlement | src/poller.h:145-155 | of two promises settled in one step, a call's own is first, and closing settles the receive first |
| SocketSpec.SyncOperationsBounded | src/socket.cc:23-25 | the counter never exceeds 512 plus the outstanding delayed callbacks, so it never wraps |
| SocketTurns.TurnIsBounded | src/socket.cc:546-556 | from any state whose count is in order: guarded calls complete at most 512 times synchronously between steps of the event loop |
| SocketTurns.AtMost512PerTurn | src/socket.cc:546-556 | so for every run of a new socket in which each operation has a timeout and none of the other direction waits with the poller |
| SocketTurns.NotStarvableBound | src/socket.cc:555-572 | from a state that is not starvable, calls of send and receive alone settle at most what is left of the counter |
| SocketTurns.StarvesIff | src/socket.cc:555-572 | calls of send and receive alone can settle any number of promises before the event loop gets a turn if and only if the state is starvable, a test of the timeouts, the counter and who waits |
| SocketTurns.NewSocketStarves | src/socket.cc:895-910 | a new socket can be used so, because the callbacks inside send and receive reset the counter |
| SocketSpec.CloseLeavesOnlyDelayed | src/socket.cc:250-275 | closing an open socket settles every promise the poller owned, each once; exactly those of delayed callbacks stay pending |
| SocketSpec.ClosingJobLeavesOnlyDelayed | src/socket.cc:364-381 | so does the close at the end of a bind or unbind, which also settles the job's promise |
| SocketSpec.ClosedIsTerminal | src/socket.cc:250-275 | a closed socket stays closed, is closed in libzmq once, and puts nothing more on the wire |
| SocketSpec.CloseWaitsForJob | src/socket.cc:478-488 | until the bind or unbind completes the socket is blocked, never closed, and remembers whether close() was called |
| SocketSpec.CloseTakesEffectAtCompletion | src/socket.cc:364-381 | at completion of a job the socket is closed if and only if close() was called during it |
| SocketSpec.StuckStaysStuck | src/socket.cc:383-386 | a socket blocked without a job stays blocked in every run |
| SocketSpec.ClosableIffJobRuns | src/socket.cc:349-386 | a blocked socket can still be closed by JavaScript if and only if a job is running |
| SocketSpec.FailedQueueBlocksForEver | src/socket.cc:383-386 | a bind or unbind that cannot be queued leaves any open socket blocked in every later run |
| SocketSpec.ClosableIffQueued | src/socket.cc:349-386 | after bind or unbind on an open socket some run closes it if and only if the job was queued |
| NativeSocket.TriggeredAfterClear | src/poller.h:138-156 | clearing the event bits first does not change what triggering does |
| NativeSocket.CloseTriggers | src/poller.h:49-63 | closing the poller triggers exactly what it owns |
| NativeSocket.StaysFair | src/socket.cc:555-572 | every step keeps the bound on the counter |
| NativeSocket.Socket.constructor | src/socket.h:26-110 | a new socket is the initial state of the machine |
| NativeSocket.Socket.SendParts | src/socket.cc:277-295 | parts go out in order, each but the last with ZMQ_SNDMORE, until libzmq refuses one; resolved iff all went out, else rejected with the error |
| NativeSocket.Socket.ReceiveParts | src/socket.cc:297-338 | the promise gets all parts of one message in order, or the error |
| NativeSocket.Socket.ReadableCallback | src/socket.cc:895-901 | settles the pending receive and resets the counter |
| NativeSocket.Socket.WritableCallback | src/socket.cc:903-910 | settles the pending send with its own parts, clears them and resets the counter |
| NativeSocket.Socket.ClearEvents | src/poller.h:138-143 | clears the triggered bits and stops polling iff none is left |
| NativeSocket.Socket.Trigger | src/poller.h:138-156 | settles exactly the triggered directions, reads first, and stops their timers |
| NativeSocket.Socket.TriggerReadable | src/poller.h:118-124 | settles the receive iff its bit is set and libzmq has input |
| NativeSocket.Socket.TriggerWritable | src/poller.h:126-132 | settles the send iff its bit is set and libzmq takes output |
| NativeSocket.Socket.PollReadable | src/poller.h:66-88 | sets the bit, polls, and starts the timer iff the timeout is positive |
| NativeSocket.Socket.PollWritable | src/poller.h:90-114 | the same for writing |
| NativeSocket.Socket.ReadPromise | src/socket.cc:912-917 | fills the empty slot with a new promise |
| NativeSocket.Socket.WritePromise | src/socket.cc:919-925 | stores the message with a new promise; the slot is empty, so no pending message is overwritten |
| NativeSocket.Socket.PollerClose | src/poller.h:49-63 | settles what the poller owns and leaves no bit, timer or handle |
| NativeSocket.Socket.ValidateOpen | src/socket.cc:224-236 | no error if and only if the socket is open |
| NativeSocket.Socket.SendNow | src/socket.cc:555-557 | the fast path settles its own promise at once |
| NativeSocket.Socket.SendLater | src/socket.cc:566-577 | the message is owned by the poller or by one delayed callback |
| NativeSocket.Socket.TestSend | src/socket.cc:515-523 | the tests before the conversion: refused iff closed, blocked or writing, with the error the source throws |
| NativeSocket.Socket.SendFast | src/socket.cc:556-562 | a send that completes at once, also without a socket, and the look at the other direction |
| NativeSocket.Socket.SendRest | src/socket.cc:545-577 | from any clean state the conversion may leave, closed and blocked ones included, the rest of send does the machine's step |
| NativeSocket.Socket.SendOneWay | src/socket.cc:545-577 | chooses between the three ways of completing |
| NativeSocket.Socket.Send | src/socket.cc:515-577 | a send whose conversion runs no code on the socket: EBADF when closed, EBUSY when blocked or writing, else a new promise and the machine's step |
| NativeSocket.Socket.ReceiveNow | src/socket.cc:599-606 | the fast path settles its own promise at once |
| NativeSocket.Socket.ReceiveLater | src/socket.cc:612-621 | the receive is owned by the poller or by one delayed callback |
| NativeSocket.Socket.ReceiveOpen | src/socket.cc:593-621 | chooses between the three ways of completing and does the machine's step |
| NativeSocket.Socket.Receive | src/socket.cc:583-621 | EBADF when closed, EBUSY when blocked or reading, else a new promise and the machine's step |
| NativeSocket.Socket.CloseSocket | src/socket.cc:250-275 | settles the poller's promises, then closes libzmq's socket, once |
| NativeSocket.Socket.Close | src/socket.cc:478-488 | closes, or remembers to when blocked |
| NativeSocket.Socket.StartJob | src/socket.cc:347-389 | blocks the socket and queues the job; throws EBUSY, or EBADF when closed or when queueing fails |
| NativeSocket.Socket.OnJobDone | src/socket.cc:364-381 | reopens, closes if that was requested, then settles the job's promise, resolved iff there was no error, else rejected with it |
| NativeSocket.Socket.OnFdReadable | src/poller.h:161-164 | first half of the poll callback; when polling is active, the machine's step is enabled |
| NativeSocket.Socket.OnFdWritable | src/poller.h:165-165 | second half of the poll callback, safe after user code |
| NativeSocket.Socket.OnReadableTimer | src/poller.h:70-76 | a timer that fires finds its bit and its promise |
| NativeSocket.Socket.OnWritableTimer | src/poller.h:94-100 | a timer that fires finds its bit and its promise |
| NativeSocket.Socket.OnDelayedWrite | src/socket.cc:568-569 | the delayed callback finds its promise, even when the socket was closed before it |
| NativeSocket.Socket.OnDelayedWriteTail | src/socket.cc:570-572 | its second half does nothing on a closed socket |
| NativeSocket.Socket.OnDelayedRead | src/socket.cc:612-613 | the delayed callback finds its promise, even when the socket was closed before it |
| NativeSocket.Socket.OnDelayedReadTail | src/socket.cc:614-616 | its second half does nothing on a closed socket |
| NativeSocket.Socket.IsArmed | src/util/uvdelayed.h:29-45 | what can happen is what the handles, slots and schedules say |
| NativeSocket.Socket.Dispatch | src/util/uvdelayed.h:29-45 | whatever the machine allows is armed in the fields and does the machine's step |
| NativeSocket.Follow | src/socket.cc:490-622 | a new socket follows every run of the machine |
| Observer.StepKeeps | src/observer.cc:211-237 | every step keeps each promise settled once or pending, one libzmq close, none pending once closed |
| Observer.RunKeeps | src/observer.cc:211-237 | the same for every run |
| Observer.PromiseConservation | src/observer.cc:315-337 | after any run every promise is settled once or is the pending one; once closed all are settled, and libzmq's socket was closed once |
| Observer.ClosedIsTerminal | src/observer.cc:190-197 | nothing changes after closing |
| Observer.PendingReceiveIsRejected | src/observer.cc:221-227 | after any run, closing rejects the pending receive with ENOTSOCK |
| Observer.StopsItself | src/observer.cc:299-337 | after any run, a receive or a poll callback closes the observer iff it reads the event that monitoring stopped; every event read goes to its own receiver, a failed read rejects it with the error, nothing else is settled, and a receive that finds nothing waits |
| Observer.Observer.Read | src/observer.cc:231-307 | reads one event for its promise; re-entered from Close without a socket it rejects |
| Observer.Observer.ReadableCallback | src/observer.cc:355-360 | takes the pending promise and settles it |
| Observer.Observer.Trigger | src/poller.h:138-156 | the nested close in a callback is safe |
| Observer.Observer.PollerClose | src/poller.h:49-63 | leaves no bit, promise or handle |
| Observer.Observer.CloseObserver | src/observer.cc:211-229 | closes once, the pending receive after the socket pointer is null |
| Observer.Observer.Receive | src/observer.cc:315-337 | EBADF when closed, EBUSY when reading, else a new promise and the machine's step |
| Observer.Observer.OnFd | src/poller.h:161-167 | the poll callback, whatever its first half closes |
| Observer.Follow | src/observer.cc:315-337 | a new observer follows every run |
| CompatSpec.StepKeeps | src/compat.ts:270-303 | every step keeps order, conservation and the pumps |
| CompatSpec.RunKeeps | src/compat.ts:270-303 | the same for runs of any length and interleaving |
| CompatSpec.ReachableInv | src/compat.ts:270-303 | the invariant holds in every state a new socket can reach |
| CompatSpec.ReceivePumpRuns | src/compat.ts:270-280 | open and not paused: the receive pump runs iff the type can receive |
| CompatSpec.SendPumpRuns | src/compat.ts:282-296 | open, not paused, message queued: the send pump runs iff the type can send |
| CompatSpec.IdlePumpsAreArmed | src/compat.ts:468-476 | an idle pump of an open socket has its listener armed, and there is a reason to be idle |
| CompatSpec.ReceiveOrder | src/compat.ts:314-327 | emitted, scheduled and held messages are exactly the received ones in order; at most one is held back |
| CompatAnswers.PausedStandsStill | src/compat.ts:271-296 | from any paused state, over every run without a resume: nothing new is delivered, what comes in is held back in order, no native operation starts, the ones in flight settle at most once, and no message leaves the queue |
| CompatAnswers.ResumeReleases | src/compat.ts:314-319 | resuming schedules what was held back before anything else is received |
| CompatAnswers.ClosedStandsStill | src/compat.ts:272-296 | on a closed socket no run starts a native operation, takes a message from the queue or arms a pump that ended |
| CompatAnswers.EachNoticeTellsItsError | src/compat.ts:345-356 | after any run the user was told each thing exactly as often as finished messages tell it: each callback the error of its own message, an error without callback as an event |
| CompatAnswers.AttemptHasItsError | src/compat.ts:343-356 | a step finishes at most one message: the one in flight with what its send settled with, or one whose native send threw, with what it threw |
| CompatAnswers.SendWaitsForWhatStarted | src/compat.ts:343-346 | the send pump waits for a native send only when one was started |
| CompatAnswers.ReceiveWaitsForWhatStarted | src/compat.ts:321-322 | the same for the receive pump |
| CompatAnswers.FailuresAreEmittedIff | src/compat.ts:328-332 | a failed receive becomes one error event iff the socket is open and the error is not EBUSY; no other step makes one |
| CompatAnswers.HistoryGrows | src/compat.ts:314-356 | no step reorders what was emitted, received, submitted, finished or told |
| CompatAnswers.FinalCallsEndMessages | src/compat.ts:418-429 | calls make one message for each call without ZMQ_SNDMORE, which ends it and gives it its callback |
| CompatSpec.MessagesHoldAllParts | src/compat.ts:418-429 | the messages of any calls, with the open one, hold exactly the submitted parts in order |
| CompatSpec.SendConservation | src/compat.ts:335-358 | attempted, in flight and queued messages are exactly the submitted ones in order, boundaries at calls without ZMQ_SNDMORE |
| CompatSpec.CalledOncePerMessage | src/compat.ts:345-356 | the notices of finished messages call each callback once per message that carries it |
| CompatSpec.CallbacksCalledOnce | src/compat.ts:345-356 | after any run a callback was called exactly as often as finished messages carried it |
| CompatSpec.CallbackConservation | src/compat.ts:418-429 | calls made plus messages still in flight or queued account for every submitted callback |
| Compat.Socket.constructor | src/compat.ts:298-303 | arms the listeners of the type and starts the receive pump |
| Compat.Socket.RecvStart | src/compat.ts:314-321 | emits what was held back before it asks for more; never a second native receive |
| Compat.Socket.RecvPumpTurn | src/compat.ts:271-279 | the loop to its next await, or its end and re-arming; paused or closed it schedules and starts nothing |
| Compat.Socket.EmitFlushRecv | src/compat.ts:303-303 | starts the pump iff its listener is armed |
| Compat.Socket.OnReceived | src/compat.ts:321-332 | holds a message back when paused, else schedules it; reports errors unless closed or busy |
| Compat.Socket.OnRecvReturned | src/compat.ts:272-278 | the pump goes on |
| Compat.Socket.Notify | src/compat.ts:346-356 | one callback call, with the message's own error, or error event per attempted message |
| Compat.Socket.SendStart | src/compat.ts:343-346 | takes the oldest message; never a second native send |
| Compat.Socket.SendPumpTurn | src/compat.ts:283-294 | the loop to its next await, or its end and re-arming; paused or closed it takes nothing from the queue |
| Compat.Socket.EmitFlushSend | src/compat.ts:424-426 | starts the pump iff its listener is armed |
| Compat.Socket.Send | src/compat.ts:418-429 | joins parts until a call without ZMQ_SNDMORE, then queues and starts the pump unless paused |
| Compat.Socket.OnSent | src/compat.ts:346-356 | the message that was in flight is reported |
| Compat.Socket.OnSendReturned | src/compat.ts:284-294 | the pump goes on |
| Compat.Socket.Resume | src/compat.ts:472-476 | both pumps are started |
| Compat.Socket.Dispatch | src/compat.ts:270-303 | whatever the machine allows can happen to the object and does the machine's step |
| Compat.Follow | src/compat.ts:270-303 | a new object follows every run of the machine |
| MajordomoProofs.StepKeeps | examples/majordomo/broker.ts:44-94 | every step of clients, broker and workers keeps the whole invariant |
| MajordomoProofs.RunKeeps | examples/majordomo/broker.ts:44-94 | the same for every run with any number of clients and workers |
| MajordomoProofs.ReachableInv | examples/majordomo/broker.ts:44-94 | the invariant holds in every reachable system |
| MajordomoProofs.Moved | examples/majordomo/service.ts:34-55 | moving a request from the front of one place to the end of another keeps every request in one place |
| MajordomoProofs.DispatchKeeps | examples/majordomo/service.ts:34-55 | dispatchPending restores the invariant of its service |
| MajordomoProofs.WorkerToken | examples/majordomo/worker.ts:15-50 | a running worker is in exactly one of: READY or REPLY in flight, idle in its own service, REQUEST in flight, working; at most one message is in flight from it |
| MajordomoProofs.IdleWorkerHasNoRequest | examples/majordomo/service.ts:34-53 | a worker listed as idle has no request, so none is handed a second one |
| MajordomoStop.NothingAfterDisconnect | examples/majordomo/service.ts:65-71 | once the DISCONNECT of a worker that sent nothing after it was handled, no run without a late reply lists the worker or hands it anything |
| MajordomoStop.StopIsFinalIff | examples/majordomo/worker.ts:40-50 | for every run from stop to close: some continuation lists the worker after its DISCONNECT was handled iff it replied between the two |
| MajordomoStop.ClosedWorkerGetsRequest | examples/majordomo/worker.ts:19-50 | a run from the start, for any worker, service and client, at whose end a closed worker is listed and gets the next request |
| MajordomoStop.StuckForGood | examples/majordomo/worker.ts:48-48 | what is on the way to a closed worker never leaves its channel |
| MajordomoProofs.RequestConservation | examples/majordomo/service.ts:16-55 | every request is in exactly one place, once, unchanged, or its reply is, addressed to its client; no channel holds a reply that the places leave out |
| MajordomoProofs.HistoryGrows | examples/majordomo/service.ts:34-55 | no step changes which worker got a request or what it replied |
| MajordomoProofs.HistoryTells | examples/majordomo/worker.ts:19-30 | the history the results speak of is what was called, replied and fetched |
| MajordomoProofs.ListingKeepsTurns | examples/majordomo/service.ts:21-22 | a worker listed again keeps its turn, another goes last |
| MajordomoProofs.OneWorkerOneReply | examples/majordomo/service.ts:21-55 | over any run a request keeps its one worker and its one reply |
| MajordomoProofs.RepliesGoHome | examples/majordomo/service.ts:21-32 | what a client got is its worker's result for its own request |
| MajordomoProofs.NoLostDispatch | examples/majordomo/service.ts:16-71 | idle worker and queued request: a suspended activation exists and will hand the oldest request to the worker listed longest |
| MajordomoProofs.RequestsServedInOrder | examples/majordomo/service.ts:34-53 | requests leave each service in arrival order |
| MajordomoProofs.OwnerKnown | examples/majordomo/broker.ts:107-113 | the broker knows the service of every worker it hears REPLY or DISCONNECT from |
| MajordomoProofs.BrokerNeverCrashes | examples/majordomo/broker.ts:86-94 | no run makes the broker look up an unknown worker |
| Mdp.CodesOfTheProtocol | examples/majordomo/types.ts:1-12 | names and message codes as ZeroMQ RFC 7/MDP has them |
| Mdp.WhatTheBrokerSends | examples/majordomo/service.ts:21-55 | the envelopes to workers and clients, frame by frame |
| Mdp.BrokerUnderstands | examples/majordomo/broker.ts:21-73 | what clients and workers send is decoded to what they meant, for all payloads |
| Mdp.BrokerDecodesOnly | examples/majordomo/broker.ts:21-73 | a message decodes to a request, READY, reply or DISCONNECT if and only if its frames are that envelope; only blank frames are not looked at |
| Mdp.WorkerUnderstands | examples/majordomo/worker.ts:19-21 | the worker sees the client and the payload the broker was given |
| Mdp.ClientUnderstands | examples/majordomo/index.ts:43-45 | the client sees the payload of the reply |
| Mdp.EnvelopeRoundTrip | examples/majordomo/worker.ts:19-30 | client to broker to worker and back: both payloads arrive unchanged where they belong |
| Majordomo.Service.SetWorker | examples/majordomo/service.ts:21-22 | a listed worker keeps its position, a new one goes last |
| Majordomo.Service.DispatchPending | examples/majordomo/service.ts:34-55 | one turn of the loop takes the first worker and the first request and sends exactly that envelope |
| Majordomo.Service.OnRequestSent | examples/majordomo/service.ts:45-53 | the loop goes on after its await |
| Majordomo.Service.DispatchRequest | examples/majordomo/service.ts:16-19 | queues last, then dispatches |
| Majordomo.Service.DispatchReply | examples/majordomo/service.ts:21-29 | lists the worker and sends the reply to the client; without a client the worker is listed and the promise rejected |
| Majordomo.Service.OnReplySent | examples/majordomo/service.ts:29-32 | dispatches after the await |
| Majordomo.Service.Register | examples/majordomo/service.ts:57-63 | lists the worker, then dispatches |
| Majordomo.Service.Deregister | examples/majordomo/service.ts:65-71 | unlists the worker, then dispatches |
| Majordomo.Broker.GetService | examples/majordomo/broker.ts:96-105 | finds or makes the service of a name and disturbs no other |
| Majordomo.Broker.HandleClient | examples/majordomo/broker.ts:44-48 | only the named service changes, by its own step |
| Majordomo.Broker.SetWorkerService | examples/majordomo/broker.ts:111-113 | stores the worker's service; undefined counts as none |
| Majordomo.Broker.Register | examples/majordomo/broker.ts:77-80 | remembers the worker's service and only that service changes; without a service it throws after forgetting the worker |
| Majordomo.Broker.DispatchReply | examples/majordomo/broker.ts:86-89 | throws iff the worker is unknown and then changes nothing; else only its service changes |
| Majordomo.Broker.Deregister | examples/majordomo/broker.ts:91-94 | throws iff the worker is unknown and then changes nothing; else only its service changes |
| Majordomo.Broker.OnMessage | examples/majordomo/broker.ts:21-75 | every message, complete or not: the state it leads to, what is sent, and whether the handler throws or its promise is rejected |
| Majordomo.Worker.constructor | examples/majordomo/worker.ts:15-16 | a started worker has sent READY |
| Majordomo.Worker.OnReadySent | examples/majordomo/worker.ts:16-37 | the loop begins when READY was sent |
| Majordomo.RequestArrives | examples/majordomo/worker.ts:19-21 | the job a worker takes from the broker's envelope is that request's client and payload |
| Majordomo.Worker.OnMessage | examples/majordomo/worker.ts:19-21 | whatever arrives is taken apart by position and becomes the job |
| Majordomo.Worker.OnProcessed | examples/majordomo/worker.ts:21-33 | the reply goes to the client of the job iff the socket is open and no other send waits; otherwise it is swallowed, which on an open socket happens only while stopping |
| Majordomo.Worker.Stop | examples/majordomo/worker.ts:40-47 | DISCONNECT is sent iff the socket is open and no other send waits; if one waits the promise is rejected and the worker goes on |
| Majordomo.Worker.OnDisconnectSent | examples/majordomo/worker.ts:48-48 | the socket is closed after the await |
| MajordomoRun.OnCall | examples/majordomo/broker.ts:21-48 | a request arriving from a client takes the broker object to the system's next state, and it sends what the system's step sends |
| MajordomoRun.OnReady | examples/majordomo/broker.ts:52-56 | so does a READY |
| MajordomoRun.OnReply | examples/majordomo/broker.ts:58-62 | so does a REPLY of a worker the broker knows |
| MajordomoRun.OnDisconnect | examples/majordomo/broker.ts:68-70 | so does a DISCONNECT of a worker the broker knows |
| MajordomoRun.OnLoop | examples/majordomo/service.ts:45-53 | and a dispatch loop that goes on |
| MajordomoRun.OnReplied | examples/majordomo/service.ts:29-31 | and a reply that was sent |
| MajordomoRun.ChannelsCarryOutputs | examples/majordomo/service.ts:21-55 | in every run the requests sent to a worker are those it takes followed by those in its channel, in order; the same for replies and clients |
| MajordomoRun.InboxesHold | examples/majordomo/worker.ts:19-21 | frames sent to a worker or client, decoded as it decodes them, are exactly the requests or replies sent to it |
| MajordomoRun.Follow | examples/majordomo/broker.ts:16-33 | a new broker object follows every run of the system; its frames, as decoded, are what each worker took or has in its channel and what each client fetched or has in its channel |
| Trash.RunKeeps | src/util/trash.h:43-59 | every interleaving of threads keeps references, lock and wakeup in order |
| Trash.ReferenceConservation | src/outgoing_msg.cc:16-32 | each reference is in exactly one of: libzmq, one recycling thread, the trash, freed; and freed at most once |
| Trash.OnlyMainThreadFrees | src/util/trash.h:56-59 | a step frees only as the main thread's clear, holding the lock, or when libzmq refused the buffer |
| Trash.TrashIsNotForgotten | src/util/trash.h:43-59 | in every state trash has a pending wakeup, a clear about to happen, or a lock holder about to ask for a wakeup; with the lock free one of the first two |
| Trash.TrashCanBeCleared | src/util/trash.h:24-31 | from every state at most six steps of the lock's holder and the main thread free all that is in the trash |
| Trash.AddIsFourSteps | src/util/trash.h:43-53 | an undisturbed Add is four steps of one thread and does to the contents what the container's Add does |
| Trash.ClearIsFourSteps | src/util/trash.h:56-59 | an undisturbed wakeup is four steps of the main thread and does what the container's Clear does |
| Trash.Container.Add | src/util/trash.h:43-53 | appends and asks for a wakeup |
| Trash.Container.Clear | src/util/trash.h:56-59 | frees everything, front to back |
| Messages.StepKeeps | src/incoming_msg.cc:10-48 | every step keeps each reference with one owner, a message or a buffer, until it is deleted |
| Messages.ReferencesDeletedOnce | src/incoming_msg.cc:10-48 | after any run no reference is deleted twice or leaked, and a message in scope has a live one |
| Messages.IncomingMsg.IntoBuffer | src/incoming_msg.cc:17-56 | ownership is given away at most once, only for long parts, and a second try fails with EINVAL |
| Messages.MakeOutgoing | src/outgoing_msg.cc:8-88 | no part iff the conversion throws; else the bytes of the value, a reference iff it is a buffer over the threshold, kept iff libzmq took the part |
| Messages.MakeList | src/outgoing_msg.cc:101-105 | the list built back to front has the parts in their order; none iff some conversion throws |
| Messages.MakeParts | src/outgoing_msg.cc:99-109 | the same for an array and for one value |
| Teardown.ClosedAllEffect | src/util/reaper.h:29-32 | closing a set of open objects closes each once, by descending address, and hands exactly their own contexts to the terminator |
| Teardown.ReapingClosesEachOnce | src/util/reaper.h:24-33 | the reaper leaves nothing open and has closed what was open exactly once, though each close erases from its set |
| Teardown.StepKeeps | src/module.h:84-101 | loading, creating, closing and unloading in any agent keep the invariant |
| Teardown.RunKeeps | src/module.h:84-101 | the same for every run with any number of agents |
| Teardown.ReachableInv | src/module.cc:75-93 | the invariant holds in every process state |
| Teardown.ReaperHasTheOpenObjects | src/util/reaper.h:35-43 | the reaper's set is the set of open objects; each address was closed as often as registered, but for the open ones |
| Teardown.GoneAgentsClosedAll | src/module.cc:110-119 | an unloaded module closed every object it had registered |
| Teardown.SocketsOutlivedByTheirContext | src/context.cc:50-73 | the libzmq context of an open socket or context object is not terminated |
| Teardown.TerminationIsLastAndComplete | src/module.h:84-92 | contexts are terminated only with the last module, and then every one ever made, exactly once |
| Teardown.LastTerminatesAll | src/module.cc:68-93 | unloading the last module terminates exactly the contexts that are alive |
| Teardown.OthersTerminateNone | src/module.cc:75-93 | unloading another module terminates none |
| Lending.StepKeeps | src/module.cc:75-93 | every step of the process, its modules and what libzmq holds keeps their invariant |
| Lending.NoneLateIff | src/module.h:84-92 | in every run of the process from start to end, no reference is recycled after its module is gone iff each module that is not the last is unloaded with none of its references held |
| Lending.LentAndUnloadedIsLate | src/outgoing_msg.cc:95-97 | from any state with two agents, lending and unloading leads to a late recycling in every continuation to the end |
| Lending.OneAgentIsPrompt | src/module.h:84-92 | with at most one agent at a time nothing is late |
| Teardown.ClosesMostRecentFirstIff | src/util/reaper.h:25-29 | for a list of addresses, descending order is the reverse of the list if and only if the list is ascending |
| Teardown.ReapsMostRecentFirstIff | src/util/reaper.h:25-32 | in any state of any run, the reaper of an agent closes most recently registered first if and only if its open objects were registered in address order |
| Teardown.NotAlwaysMostRecentFirst | src/util/reaper.h:25-32 | a run for which it does not: a context is closed before the socket made later in it |
| Teardown.Module.Close | src/context.cc:50-73 | an object is removed, closed and its context handed over, once; nothing when it is closed already |
| Teardown.Module.Copy | src/util/reaper.h:29-29 | the copy is the set in descending order |
| Teardown.Module.Reap | src/util/reaper.h:24-33 | the loop that closes while the set shrinks does what the specification says |
| NumberCast.NextAfterExists | src/socket.cc:39-50 | both neighbours that the code asks nextafter for exist for every double |
| NumberCast.PowersOnGrid | src/socket.cc:47-50 | 2^64 is a double, and so are 0 and -1/2 |
| NumberCast.LowerTest | src/socket.cc:39-39 | the first test passes only numbers above -1 and catches only numbers whose result is 0 |
| NumberCast.UpperTest | src/socket.cc:47-52 | the second test is exact: it is true if and only if the number is at least 2^64 |
| NumberCast.CastToUint64 | src/socket.cc:35-55 | for every double but NaN the result is the whole part of a number in range, 0 below and 2^64-1 from 2^64 on |
| NumberCast.ClampedIff | src/socket.cc:35-55 | that is the truncated number clamped to the range, and no other integer |
| NumberCast.ClampedIsMonotone | src/socket.cc:35-55 | a larger number never becomes a smaller integer |
| Caesar.RotateTwice | examples/threaded-worker/threaded-worker.ts:83-89 | steps add up |
| Caesar.RotateIff | examples/threaded-worker/threaded-worker.ts:85-88 | the rotated character is the one in the same alphabet, upper or lower case, that many places on modulo 26, and no other; what is no letter is unchanged |
| Caesar.WholeLoopIsRot13 | examples/threaded-worker/threaded-worker.ts:33-33 | the odd number of steps by 13 is one ROT13, its own inverse |
| Caesar.Work | examples/threaded-worker/threaded-worker.ts:78-92 | the loop moves a letter of either case by steps times shift within its alphabet and leaves anything else |
| Caesar.TextRoundTrip | examples/threaded-worker/processor.ts:36-41 | a position survives being written and parsed |
| Caesar.AnswerIsGenuine | examples/threaded-worker/threaded-worker.ts:61-75 | an answer carries the position and the ROT13 of one ASCII letter of the text |
| Caesar.EveryLetterIsAnswered | examples/threaded-worker/threaded-worker.ts:61-75 | each ASCII letter is answered |
| Caesar.Scatter | examples/threaded-worker/processor.ts:34-37 | one job per character, with its position |
| Caesar.Store | examples/threaded-worker/processor.ts:41-41 | an answer is stored at its own position and keeps the others |
| Caesar.Fill | examples/threaded-worker/processor.ts:39-45 | for any arrival order the loop ends complete iff the text is not empty and all ASCII |
| Caesar.Gather | examples/threaded-worker/processor.ts:31-48 | the result is the ROT13 of the text, each letter 13 places on in its own alphabet, iff it is not empty and all ASCII; otherwise it waits for ever |

## Left out

- libzmq, libuv, Node-API and V8 themselves: their answers are parameters of the steps. A multipart send that is
  started is not assumed to be accepted whole.
- Whether the edge-triggered file descriptor fires: only that a wakeup is armed.
- The count of endpoints of a socket: it also changes on failed bind and unbind calls.
- Connect, disconnect, join, leave, options, `src/proxy.cc`, event and error names, argument validation, the metadata
  frames of draft socket types, and the build option ZMQ_NO_SYNC_RESOLVE.
- Garbage collection and environment shutdown of a socket that is blocked or has promises pending: closing there ignores
  the state. Teardown.dfy covers which objects are closed, and in what order, not their promises.
- The trash's own destruction inside Trash.dfy (Lending.dfy says when something is recycled after it), and
  `Napi::Reference` counting.
- Messages.IncomingMsg.IntoBuffer: a buffer is not collected before the native call that made it returns.
- A buffer that JavaScript changes after it was lent to libzmq.
- NumberCast.CastToUint64: NaN, for which the final conversion is undefined.
- Timing: timeouts of the compatibility socket, heartbeats (not implemented in the example), send timeouts of the router.
- A second `stop()` of a Majordomo worker before the first is done, which sends a second DISCONNECT. A `process` that
  rejects is one that never finishes.
- Messages.MakeList: after a part that libzmq could not initialise the loop goes on with an exception pending; whether
  Node-API then still reads the next element is not modelled.
- Lending.dfy: which context a buffer was sent through, and when libzmq releases it; any time is possible, and
  terminating all contexts releases everything.
- Bytes of identities and names are compared as bytes; the example converts them to text first.
- Caesar.Gather: answers left over from an earlier call of `process` on the same object, and stopping the workers.
- Receiving metadata, monitoring and the synchronous methods of the compatibility socket.
- `examples/queue`: a simpler case of the compatibility send pump.
