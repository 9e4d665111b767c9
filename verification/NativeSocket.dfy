/** The native socket and its poller as the source has them: mutable fields, an event bitmask,
    handles that are started and stopped, deferred promises in optional slots. Every method is
    proved to do one step of the abstract machine in SocketSpec.dfy, and every `assert` of the
    source is proved where it stands, provided that the conversion of a message leaves a clean
    state: what that means, and that it is the exact condition, is in SocketReentry.dfy. */
module NativeSocket {
  import opened Common
  import opened SocketSpec
  import opened SocketAnswers

  // The two bits of the poller's event mask.
  datatype Events = Events(readable: bool, writable: bool)

  const NO_EVENTS := Events(false, false)

  newtype uint32 = x: int | 0 <= x < 0x1_0000_0000

  const EBADF: int := 9
  const EBUSY: int := 16

  // What a call from JavaScript gets back at once.
  datatype CallResult = Promised(promise: nat) | Threw(errno: int)

  function Without(events: Events, cleared: Events): Events {
    Events(events.readable && !cleared.readable, events.writable && !cleared.writable)
  }

  // The owner a direction seems to have while its event bit is already cleared.
  function Disarmed(o: Owner): Owner {
    match o
    case ByPoller(promise, parts, _) => ByDelayed(promise, parts)
    case _ => o
  }

  function Cleared(w: World, triggered: Events): World {
    w.(reader := if triggered.readable then Disarmed(w.reader) else w.reader,
       writer := if triggered.writable then Disarmed(w.writer) else w.writer)
  }

  function Triggered(w: World, triggered: Events, z: Zmq): World
    requires triggered.readable ==> !w.reader.Nobody?
    requires triggered.writable ==> !w.writer.Nobody?
  {
    var w1 := if triggered.readable then FinishRead(w, true, z) else w;
    if triggered.writable then FinishWrite(w1, true, z) else w1
  }

  lemma TriggeredAfterClear(w: World, triggered: Events, z: Zmq)
    requires triggered.readable ==> !w.reader.Nobody?
    requires triggered.writable ==> !w.writer.Nobody?
    ensures Triggered(Cleared(w, triggered), triggered, z) == Triggered(w, triggered, z)
  {
  }

  // Closing triggers whatever the poller waits for.
  lemma CloseTriggers(w: World, events: Events, z: Zmq)
    requires w.phase != Closed && events == Events(w.reader.ByPoller?, w.writer.ByPoller?)
    ensures var w' := Triggered(w, events, z); CloseNow(w, z) == w'.(phase := Closed, log := w'.log.CloseZmq())
  {
  }

  class Socket {
    // The poller.
    var events: Events
    var handlesOpen: bool               // poll and timer handles have not been released
    var pollActive: bool
    var readableTimer: bool
    var writableTimer: bool
    var readDeferred: Option<nat>
    var writeDeferred: Option<nat>
    var writeValue: seq<Frame>
    // Delayed callbacks that are scheduled on the event loop.
    var delayedReads: nat
    var delayedWrites: nat
    // The socket.
    var hasSocket: bool                 // the libzmq socket pointer is not null
    var state: Phase
    var requestClose: bool
    var syncOperations: uint32
    var sendTimeout: int
    var receiveTimeout: int
    var jobs: seq<nat>                  // promises of the queued bind and unbind jobs
    var nextPromise: nat
    // What happened so far.
    ghost var log: Log

    ghost function ReaderOwner(): Owner
      reads this
    {
      if readDeferred.None? then Nobody
      else if events.readable then ByPoller(readDeferred.value, [], readableTimer)
      else ByDelayed(readDeferred.value, [])
    }

    ghost function WriterOwner(): Owner
      reads this
    {
      if writeDeferred.None? then Nobody
      else if events.writable then ByPoller(writeDeferred.value, writeValue, writableTimer)
      else ByDelayed(writeDeferred.value, writeValue)
    }

    // The abstract state this object stands for.
    ghost function View(): World
      reads this
    {
      World(state, requestClose, if jobs == [] then None else Some(jobs[0]), sendTimeout, receiveTimeout,
            syncOperations as nat, ReaderOwner(), WriterOwner(), log)
    }

    // How the concrete fields hang together between two steps.
    ghost predicate Coherent()
      reads this
    {
      && (events.readable ==> readDeferred.Some?)
      && (events.writable ==> writeDeferred.Some?)
      && delayedReads == Bit(readDeferred.Some? && !events.readable)
      && delayedWrites == Bit(writeDeferred.Some? && !events.writable)
      && (writeDeferred.None? ==> writeValue == [])
      && (pollActive <==> events != NO_EVENTS)
      && (readableTimer ==> events.readable)
      && (writableTimer ==> events.writable)
      && (hasSocket <==> state != Closed)
      && (handlesOpen <==> hasSocket)
      && (events != NO_EVENTS ==> handlesOpen)
      && |jobs| == Bit(jobs != [])
      && (jobs != [] ==> state == Blocked)
      && nextPromise == |log.issued|
    }

    ghost predicate Valid()
      reads this
    {
      Coherent() && Fair(View())
    }

    constructor ()
      ensures Valid() && View() == INITIAL
    {
      events, handlesOpen, pollActive, readableTimer, writableTimer := NO_EVENTS, true, false, false, false;
      readDeferred, writeDeferred, writeValue := None, None, [];
      delayedReads, delayedWrites := 0, 0;
      hasSocket, state, requestClose, syncOperations := true, Open, false, 0;
      sendTimeout, receiveTimeout, jobs, nextPromise := -1, -1, [], 0;
      log := Log([], [], [], 0);
    }

    // ----- libzmq ------------------------------------------------------------------------------

    // Sends the parts one by one until libzmq refuses one, then settles the promise.
    method SendParts(res: nat, parts: seq<Frame>, z: Zmq)
      modifies `log
      ensures log == old(log).Settle(Sending(res, parts, hasSocket, z))
      ensures SendAnswered(parts, log.settled[|old(log).settled|], hasSocket, z)
    {
      SendingAnswers(res, parts, hasSocket, z);
      var sent := [];
      var iter := 0;
      while iter != |parts|
        invariant 0 <= iter <= Accepted(parts, hasSocket, z)
        invariant sent == Marked(parts, iter)
        invariant log == old(log).(wire := old(log).wire + sent)
        decreases |parts| - iter
      {
        var part := parts[iter];
        var more := iter + 1 != |parts|;
        if !hasSocket || iter == z.accepts {
          var errno := if hasSocket then z.sendErrno else ENOTSOCK;
          log := log.(settled := log.settled + [Settlement(res, Rejected(errno), sent)]);
          return;
        }
        assert Marked(parts, iter + 1) == sent + [OnWire(part, more)];
        log := log.(wire := log.wire + [OnWire(part, more)]);
        sent := sent + [OnWire(part, more)];
        iter := iter + 1;
      }
      log := log.(settled := log.settled + [Settlement(res, Resolved, sent)]);
    }

    // Collects the parts of one message while libzmq says that there are more.
    method ReceiveParts(res: nat, z: Zmq)
      modifies `log
      ensures log == old(log).Settle(Settlement(res, ReceiveOutcome(hasSocket, z), []))
      ensures ReceiveAnswered(log.settled[|old(log).settled|], hasSocket, z)
    {
      if !hasSocket {
        log := log.Settle(Settlement(res, Rejected(ENOTSOCK), []));
        return;
      }
      match z.incoming {
        case NoMessage(errno) =>
          log := log.Settle(Settlement(res, Rejected(errno), []));
        case Message(first, rest) =>
          var list := [first];
          var i := 0;
          while i < |rest|
            invariant 0 <= i <= |rest|
            invariant list == [first] + rest[..i]
          {
            list := list + [rest[i]];
            i := i + 1;
          }
          assert rest[..i] == rest;
          log := log.Settle(Settlement(res, Received(list), []));
      }
    }

    // ----- the poller --------------------------------------------------------------------------

    method ReadableCallback(z: Zmq)
      requires readDeferred.Some?
      modifies `readDeferred, `syncOperations, `log
      ensures readDeferred == None
      ensures View() == FinishRead(old(View()), hasSocket, z)
    {
      syncOperations := 0;
      var res := readDeferred.value;
      readDeferred := None;
      ReceiveParts(res, z);
    }

    method WritableCallback(z: Zmq)
      requires writeDeferred.Some?
      modifies `writeDeferred, `writeValue, `syncOperations, `log
      ensures writeDeferred == None && writeValue == []
      ensures View() == FinishWrite(old(View()), hasSocket, z)
    {
      syncOperations := 0;
      var res := writeDeferred.value;
      writeDeferred := None;
      SendParts(res, writeValue, z);
      writeValue := [];
    }

    // Clears the triggered bits and stops polling when none is left.
    method ClearEvents(triggered: Events)
      requires handlesOpen
      requires (triggered.readable ==> events.readable) && (triggered.writable ==> events.writable)
      modifies `events, `pollActive
      ensures events == Without(old(events), triggered)
      ensures pollActive == (old(pollActive) && events != NO_EVENTS)
      ensures View() == Cleared(old(View()), triggered)
    {
      events := Without(events, triggered);
      if events == NO_EVENTS {
        pollActive := false;
      }
    }

    // Settles what is triggered without asking libzmq first, reads before writes.
    method Trigger(triggered: Events, z: Zmq)
      requires handlesOpen && hasSocket
      requires triggered.readable ==> events.readable && readDeferred.Some?
      requires triggered.writable ==> events.writable && writeDeferred.Some?
      modifies `events, `pollActive, `readableTimer, `writableTimer, `readDeferred, `writeDeferred, `writeValue,
               `syncOperations, `log
      ensures events == Without(old(events), triggered)
      ensures pollActive == (old(pollActive) && events != NO_EVENTS)
      ensures readableTimer == (old(readableTimer) && !triggered.readable)
      ensures writableTimer == (old(writableTimer) && !triggered.writable)
      ensures readDeferred == if triggered.readable then None else old(readDeferred)
      ensures writeDeferred == if triggered.writable then None else old(writeDeferred)
      ensures writeValue == if triggered.writable then [] else old(writeValue)
      ensures View() == Triggered(old(View()), triggered, z)
    {
      ghost var w := View();
      ClearEvents(triggered);
      TriggeredAfterClear(w, triggered, z);
      if triggered.readable {
        readableTimer := false;
        ReadableCallback(z);
      }
      if triggered.writable {
        writableTimer := false;
        WritableCallback(z);
      }
    }

    method TriggerReadable(z: Zmq)
      requires Coherent()
      modifies `events, `pollActive, `readableTimer, `writableTimer, `readDeferred, `writeDeferred, `writeValue,
               `syncOperations, `log
      ensures Coherent() && View() == KickReader(old(View()), z)
    {
      if events.readable {
        if z.pollIn {
          Trigger(Events(true, false), z);
        }
      }
    }

    method TriggerWritable(z: Zmq)
      requires Coherent()
      modifies `events, `pollActive, `readableTimer, `writableTimer, `readDeferred, `writeDeferred, `writeValue,
               `syncOperations, `log
      ensures Coherent() && View() == KickWriter(old(View()), z)
    {
      if events.writable {
        if z.pollOut {
          Trigger(Events(false, true), z);
        }
      }
    }

    method PollReadable(timeout: int)
      requires !events.readable && handlesOpen && (pollActive <==> events != NO_EVENTS) && !readableTimer
      modifies `readableTimer, `pollActive, `events
      ensures events == old(events).(readable := true) && pollActive && readableTimer == (timeout > 0)
    {
      if timeout > 0 {
        readableTimer := true;
      }
      if events == NO_EVENTS {
        pollActive := true;
      }
      events := events.(readable := true);
    }

    method PollWritable(timeout: int)
      requires !events.writable && handlesOpen && (pollActive <==> events != NO_EVENTS) && !writableTimer
      modifies `writableTimer, `pollActive, `events
      ensures events == old(events).(writable := true) && pollActive && writableTimer == (timeout > 0)
    {
      if timeout > 0 {
        writableTimer := true;
      }
      if events == NO_EVENTS {
        pollActive := true;
      }
      events := events.(writable := true);
    }

    method ReadPromise() returns (promise: nat)
      requires readDeferred.None? && nextPromise == |log.issued|
      modifies `readDeferred, `nextPromise, `log
      ensures promise == old(nextPromise) && nextPromise == promise + 1
      ensures readDeferred == Some(promise) && log == old(log).Issue(ReceiveCall)
    {
      promise := nextPromise;
      readDeferred, nextPromise, log := Some(promise), nextPromise + 1, log.Issue(ReceiveCall);
    }

    method WritePromise(value: seq<Frame>) returns (promise: nat)
      requires writeDeferred.None? && nextPromise == |log.issued|
      modifies `writeDeferred, `writeValue, `nextPromise, `log
      ensures promise == old(nextPromise) && nextPromise == promise + 1
      ensures writeDeferred == Some(promise) && writeValue == value && log == old(log).Issue(SendCall(value))
    {
      writeValue := value;
      promise := nextPromise;
      writeDeferred, nextPromise, log := Some(promise), nextPromise + 1, log.Issue(SendCall(value));
    }

    method PollerClose(z: Zmq)
      requires Coherent() && handlesOpen
      modifies `events, `pollActive, `readableTimer, `writableTimer, `readDeferred, `writeDeferred, `writeValue,
               `syncOperations, `log, `handlesOpen
      ensures events == NO_EVENTS && !pollActive && !readableTimer && !writableTimer && !handlesOpen
      ensures readDeferred == if old(events.readable) then None else old(readDeferred)
      ensures writeDeferred == if old(events.writable) then None else old(writeDeferred)
      ensures writeValue == if old(events.writable) then [] else old(writeValue)
      ensures View() == Triggered(old(View()), old(events), z)
    {
      Trigger(events, z);
      handlesOpen := false;
    }

    // ----- calls from JavaScript ---------------------------------------------------------------

    // The error a call on a socket that is not open throws.
    function ValidateOpen(): (r: Option<int>)
      reads this
      ensures r == None <==> state == Open
    {
      match state
      case Blocked => Some(EBUSY)
      case Closed => Some(EBADF)
      case Open => None
    }

    // The fast path of send(): a promise that is settled at once.
    method SendNow(parts: seq<Frame>, z: Zmq) returns (promise: nat)
      requires nextPromise == |log.issued|
      modifies `nextPromise, `log
      ensures promise == old(nextPromise) && nextPromise == |log.issued|
      ensures log == old(log).Issue(SendCall(parts)).Settle(Sending(promise, parts, hasSocket, z))
    {
      promise := nextPromise;
      nextPromise, log := nextPromise + 1, log.Issue(SendCall(parts));
      SendParts(promise, parts, z);
    }

    // After it the other direction may be ready.
    method SendFast(parts: seq<Frame>, z: Zmq) returns (promise: nat)
      requires Coherent()
      modifies this
      ensures Coherent() && promise == |old(log).issued|
      ensures var w := old(View()).(log := old(log).Issue(SendCall(parts)));
              var w3 := Transmit(w, promise, parts, old(hasSocket), z);
              View() == if old(hasSocket) then KickReader(w3, z) else w3
    {
      promise := SendNow(parts, z);
      TriggerReadable(z.(pollIn := hasSocket && z.pollIn));
    }

    // The slow path of send(): the poller or a delayed callback gets the message.
    method SendLater(parts: seq<Frame>, delayed: bool) returns (promise: nat)
      requires Coherent() && hasSocket && writeDeferred.None?
      modifies this
      ensures Coherent() && promise == |old(log).issued|
      ensures View() == old(View()).(log := old(log).Issue(SendCall(parts)),
                                     writer := if delayed then ByDelayed(promise, parts)
                                               else ByPoller(promise, parts, sendTimeout > 0))
    {
      if delayed {
        delayedWrites := delayedWrites + 1;
      } else {
        PollWritable(sendTimeout);
      }
      promise := WritePromise(parts);
    }

    // send() from where the message has been converted. The source's assertions on the slot and the
    // event bit hold just in case the conversion left a clean state.
    method SendRest(parts: seq<Frame>, z: Zmq) returns (promise: nat)
      requires Valid() && RestClean(View(), z)
      modifies this
      ensures Valid() && View() == SocketSpec.SendRest(old(View()), parts, z)
      ensures promise == |old(log).issued|
    {
      RestStaysFair(View(), parts, z);
      promise := SendOneWay(parts, z);
    }

    // The three ways in which a send completes.
    method SendOneWay(parts: seq<Frame>, z: Zmq) returns (promise: nat)
      requires Coherent() && Fair(View()) && RestClean(View(), z)
      modifies this
      ensures Coherent() && View() == SocketSpec.SendRest(old(View()), parts, z)
      ensures promise == |old(log).issued|
    {
      var ready := sendTimeout == 0 || (hasSocket && z.pollOut);
      var sync := sendTimeout == 0;
      if ready && !sync {
        sync := syncOperations < 512;
        syncOperations := syncOperations + 1;
      }
      if ready && sync {
        promise := SendFast(parts, z);
      } else {
        promise := SendLater(parts, ready);
      }
    }

    // The tests at the start of send(), before the message is converted.
    method TestSend() returns (refused: Option<int>)
      requires Valid()
      ensures refused.None? <==> SendAllowed(View())
      ensures refused == if state == Closed then Some(EBADF)
                         else if state == Blocked || writeDeferred.Some? then Some(EBUSY) else None
    {
      refused := ValidateOpen();
      if refused.None? && writeDeferred.Some? {
        refused := Some(EBUSY);
      }
    }

    // send() of a message whose conversion runs no code on this socket.
    method Send(parts: seq<Frame>, z: Zmq) returns (r: CallResult)
      requires Valid()
      modifies this
      ensures Valid() && View() == SocketSpec.Send(old(View()), parts, z)
      ensures r == if old(state) == Closed then Threw(EBADF)
                   else if old(state) == Blocked || old(writeDeferred.Some?) then Threw(EBUSY)
                   else Promised(|old(log).issued|)
    {
      var refused := TestSend();
      if refused.Some? {
        r := Threw(refused.value);
      } else {
        var promise := SendRest(parts, z);
        r := Promised(promise);
      }
    }

    // The fast path of receive().
    method ReceiveNow(z: Zmq) returns (promise: nat)
      requires hasSocket && nextPromise == |log.issued|
      modifies `nextPromise, `log
      ensures promise == old(nextPromise) && nextPromise == |log.issued|
      ensures log == old(log).Issue(ReceiveCall).Settle(Settlement(promise, ReceiveOutcome(true, z), []))
    {
      promise := nextPromise;
      nextPromise, log := nextPromise + 1, log.Issue(ReceiveCall);
      ReceiveParts(promise, z);
    }

    // The slow path of receive(): the poller or a delayed callback waits for the message.
    method ReceiveLater(delayed: bool) returns (promise: nat)
      requires Coherent() && ReceiveAllowed(View())
      modifies this
      ensures Coherent() && promise == |old(log).issued|
      ensures View() == old(View()).(log := old(log).Issue(ReceiveCall),
                                     reader := if delayed then ByDelayed(promise, [])
                                               else ByPoller(promise, [], receiveTimeout > 0))
    {
      if delayed {
        delayedReads := delayedReads + 1;
      } else {
        PollReadable(receiveTimeout);
      }
      promise := ReadPromise();
    }

    // What receive() does once it is allowed to.
    method ReceiveOpen(z: Zmq) returns (promise: nat)
      requires Coherent() && Fair(View()) && ReceiveAllowed(View())
      modifies this
      ensures Coherent() && View() == SocketSpec.Receive(old(View()), z)
      ensures promise == |old(log).issued|
    {
      var ready := receiveTimeout == 0 || z.pollIn;
      var sync := receiveTimeout == 0;
      if ready && !sync {
        sync := syncOperations < 512;
        syncOperations := syncOperations + 1;
      }
      if ready && sync {
        promise := ReceiveNow(z);
        TriggerWritable(z);
      } else {
        promise := ReceiveLater(ready);
      }
    }

    method Receive(z: Zmq) returns (r: CallResult)
      requires Valid()
      modifies this
      ensures Valid() && View() == SocketSpec.Receive(old(View()), z)
      ensures r == if old(state) == Closed then Threw(EBADF)
                   else if old(state) == Blocked || old(readDeferred.Some?) then Threw(EBUSY)
                   else Promised(|old(log).issued|)
    {
      StaysFair(View(), ReceiveEvent(z));
      var invalid := ValidateOpen();
      if invalid.Some? {
        r := Threw(invalid.value);
      } else if readDeferred.Some? {
        r := Threw(EBUSY);
      } else {
        var promise := ReceiveOpen(z);
        r := Promised(promise);
      }
    }

    // Socket::Close(): what close() and the completion of a job call.
    method CloseSocket(z: Zmq)
      requires Coherent() && jobs == []
      modifies `events, `pollActive, `readableTimer, `writableTimer, `readDeferred, `writeDeferred, `writeValue,
               `syncOperations, `log, `handlesOpen, `state, `hasSocket
      ensures Coherent() && View() == CloseNow(old(View()), z)
    {
      if hasSocket {
        CloseTriggers(View(), events, z);
        PollerClose(z);
        CloseZmq();
      }
    }

    method CloseZmq()
      requires hasSocket
      modifies `log, `state, `hasSocket
      ensures state == Closed && !hasSocket && log == old(log).CloseZmq()
      ensures View() == old(View()).(phase := Closed, log := log)
    {
      log := log.CloseZmq();
      state := Closed;
      hasSocket := false;
    }

    method Close(z: Zmq)
      requires Valid()
      modifies this
      ensures Valid() && View() == CloseCalled(old(View()), z)
    {
      StaysFair(View(), CloseEvent(z));
      if state == Blocked {
        requestClose := true;
      } else {
        requestClose := false;
        CloseSocket(z);
      }
    }

    // Bind and unbind differ only in the libzmq function the job calls.
    method StartJob(call: Call, queued: bool) returns (r: CallResult)
      requires Valid() && (call.BindCall? || call.UnbindCall?)
      modifies this
      ensures Valid() && View() == SocketSpec.StartJob(old(View()), call, queued)
      ensures r == if old(state) == Blocked then Threw(EBUSY)
                   else if old(state) == Closed || !queued then Threw(EBADF)
                   else Promised(|old(log).issued|)
    {
      var invalid := ValidateOpen();
      if invalid.Some? {
        r := Threw(invalid.value);
      } else {
        state := Blocked;
        if queued {
          r := Promised(nextPromise);
          QueueJob(call);
        } else {
          r := Threw(EBADF);
        }
      }
    }

    method QueueJob(call: Call)
      requires jobs == [] && nextPromise == |log.issued|
      modifies `jobs, `nextPromise, `log
      ensures jobs == [old(nextPromise)] && nextPromise == |log.issued| && log == old(log).Issue(call)
    {
      jobs, nextPromise, log := jobs + [nextPromise], nextPromise + 1, log.Issue(call);
    }

    method SetTimeouts(send: int, receive: int)
      requires Valid()
      modifies this
      ensures Valid() && View() == Apply(old(View()), TimeoutsEvent(send, receive))
    {
      sendTimeout, receiveTimeout := send, receive;
    }

    // ----- callbacks from the event loop -------------------------------------------------------

    method OnJobDone(errno: int, z: Zmq)
      requires Valid() && jobs != []
      modifies this
      ensures Valid() && View() == Apply(old(View()), JobDoneEvent(errno, z))
      ensures var n := |log.settled| - 1;
        && n >= |old(log).settled| && log.settled[n].promise == old(jobs[0])
        && (log.settled[n].outcome == Resolved <==> errno == 0)
        && (errno != 0 ==> log.settled[n].outcome == Rejected(errno))
    {
      StaysFair(View(), JobDoneEvent(errno, z));
      var res := Reopen();
      if requestClose {
        CloseSocket(z);
      }
      log := log.Settle(Settlement(res, JobOutcome(errno), []));
    }

    method Reopen() returns (res: nat)
      requires Coherent() && jobs != []
      modifies `jobs, `state
      ensures Coherent() && jobs == [] && state == Open && old(View()).job == Some(res)
      ensures View() == old(View()).(phase := Open, job := None)
    {
      res := jobs[0];
      jobs := jobs[1..];
      state := Open;
    }

    // The two halves of Poller::Callback; user code may run between them.
    method OnFdReadable(z: Zmq)
      requires Valid() && pollActive
      modifies this
      ensures Enabled(old(View()), FdReadEvent(z))
      ensures Valid() && View() == Apply(old(View()), FdReadEvent(z))
    {
      TriggerReadable(z);
    }

    method OnFdWritable(z: Zmq)
      requires Valid()
      modifies this
      ensures Valid() && View() == Apply(old(View()), FdWriteEvent(z))
    {
      TriggerWritable(z);
    }

    method OnReadableTimer(z: Zmq)
      requires Valid() && readableTimer
      modifies this
      ensures Enabled(old(View()), ReadTimerEvent(z))
      ensures Valid() && View() == Apply(old(View()), ReadTimerEvent(z))
    {
      Trigger(Events(true, false), z);
    }

    method OnWritableTimer(z: Zmq)
      requires Valid() && writableTimer
      modifies this
      ensures Enabled(old(View()), WriteTimerEvent(z))
      ensures Valid() && View() == Apply(old(View()), WriteTimerEvent(z))
    {
      Trigger(Events(false, true), z);
    }

    // A delayed callback: it runs once, and the socket may have been closed before it or by the
    // user code that runs after its first half.
    method OnDelayedWrite(z: Zmq)
      requires Valid() && delayedWrites > 0
      modifies this
      ensures Enabled(old(View()), DelayedWriteEvent(z))
      ensures Valid() && View() == Apply(old(View()), DelayedWriteEvent(z))
    {
      delayedWrites := delayedWrites - 1;
      WritableCallback(z);
    }

    method OnDelayedWriteTail(z: Zmq)
      requires Valid()
      modifies this
      ensures Valid() && View() == Apply(old(View()), DelayedWriteTailEvent(z))
    {
      if !hasSocket {
        return;
      }
      TriggerReadable(z);
    }

    method OnDelayedRead(z: Zmq)
      requires Valid() && delayedReads > 0
      modifies this
      ensures Enabled(old(View()), DelayedReadEvent(z))
      ensures Valid() && View() == Apply(old(View()), DelayedReadEvent(z))
    {
      delayedReads := delayedReads - 1;
      ReadableCallback(z);
    }

    method OnDelayedReadTail(z: Zmq)
      requires Valid()
      modifies this
      ensures Valid() && View() == Apply(old(View()), DelayedReadTailEvent(z))
    {
      if !hasSocket {
        return;
      }
      TriggerWritable(z);
    }

    // Whether the event loop or JavaScript can do e now.
    method IsArmed(e: Event) returns (armed: bool)
      requires Valid()
      ensures armed == Enabled(View(), e)
    {
      match e {
        case JobEvent(call, _) => armed := call.BindCall? || call.UnbindCall?;
        case JobDoneEvent(_, _) => armed := jobs != [];
        case FdReadEvent(_) => armed := pollActive;
        case ReadTimerEvent(_) => armed := readableTimer;
        case WriteTimerEvent(_) => armed := writableTimer;
        case DelayedReadEvent(_) => armed := delayedReads > 0;
        case DelayedWriteEvent(_) => armed := delayedWrites > 0;
        case _ => armed := true;
      }
    }

    // One turn: whatever the abstract machine allows, the native handler for it is armed.
    method Dispatch(e: Event)
      requires Valid() && Enabled(View(), e)
      modifies this
      ensures Valid() && View() == Apply(old(View()), e)
    {
      match e {
        case SendEvent(parts, z) => var _ := Send(parts, z);
        case ReceiveEvent(z) => var _ := Receive(z);
        case CloseEvent(z) => Close(z);
        case JobEvent(call, queued) => var _ := StartJob(call, queued);
        case JobDoneEvent(errno, z) => OnJobDone(errno, z);
        case TimeoutsEvent(send, receive) => SetTimeouts(send, receive);
        case FdReadEvent(z) => OnFdReadable(z);
        case FdWriteEvent(z) => OnFdWritable(z);
        case ReadTimerEvent(z) => OnReadableTimer(z);
        case WriteTimerEvent(z) => OnWritableTimer(z);
        case DelayedReadEvent(z) => OnDelayedRead(z);
        case DelayedReadTailEvent(z) => OnDelayedReadTail(z);
        case DelayedWriteEvent(z) => OnDelayedWrite(z);
        case DelayedWriteTailEvent(z) => OnDelayedWriteTail(z);
      }
    }
  }

  // A new socket follows every run of the abstract machine, so what SocketSpec proves about its
  // reachable states holds of the native fields.
  method Follow(es: seq<Event>) returns (s: Socket)
    requires Runs(INITIAL, es)
    ensures fresh(s) && s.Valid() && s.View() == Exec(INITIAL, es)
  {
    s := new Socket();
    var i := 0;
    assert es[0..] == es;
    while i < |es|
      invariant 0 <= i <= |es| && fresh(s) && s.Valid()
      invariant Runs(s.View(), es[i..]) && Exec(s.View(), es[i..]) == Exec(INITIAL, es)
    {
      assert es[i..][1..] == es[i + 1..];
      s.Dispatch(es[i]);
      i := i + 1;
    }
  }

  lemma RestStaysFair(w: World, parts: seq<Frame>, z: Zmq)
    requires Fair(w) && RestClean(w, z)
    ensures Fair(SocketSpec.SendRest(w, parts, z))
  {
  }

  lemma StaysFair(w: World, e: Event)
    requires Fair(w) && Enabled(w, e)
    ensures Fair(Apply(w, e))
  {
  }
}
