/** What every call of a native socket is answered: the promise of a send, a receive, a bind or an unbind
    settles with what libzmq said in the very step that settles it, whichever way that step came about. */
module SocketAnswers {
  import opened Common
  import opened SocketSpec

  // ----- what an answer is ------------------------------------------------------------------------------

  ghost predicate SendAnswered(parts: seq<Frame>, s: Settlement, alive: bool, z: Zmq) {
    && FirstParts(s.sent, parts)
    && (s.outcome == Resolved <==> |s.sent| == |parts|)
    && (s.outcome == Resolved <==> parts == [] || (alive && z.accepts >= |parts|))
    && (s.outcome != Resolved && alive ==> |s.sent| == z.accepts && s.outcome == Rejected(z.sendErrno))
    && (s.outcome != Resolved && !alive ==> s.sent == [] && s.outcome == Rejected(88))
  }

  // The parts of the message, in the order in which they came.
  ghost predicate IsMessage(frames: seq<Frame>, first: Frame, rest: seq<Frame>) {
    |frames| == 1 + |rest| && frames[0] == first && forall k :: 0 <= k < |rest| ==> frames[k + 1] == rest[k]
  }

  ghost predicate ReceiveAnswered(s: Settlement, alive: bool, z: Zmq) {
    && s.sent == []
    && (alive && z.incoming.Message? ==>
          s.outcome.Received? && IsMessage(s.outcome.frames, z.incoming.first, z.incoming.rest))
    && (alive && z.incoming.NoMessage? ==> s.outcome == Rejected(z.incoming.errno))
    && (!alive ==> s.outcome == Rejected(88))
  }

  predicate IsJob(c: Call) {
    c.BindCall? || c.UnbindCall?
  }

  // `alive` is whether there still is a libzmq socket, `errno` is how a job ended.
  ghost predicate Answered(c: Call, s: Settlement, alive: bool, z: Zmq, errno: Option<int>) {
    match c
    case SendCall(parts) => SendAnswered(parts, s, alive, z)
    case ReceiveCall => ReceiveAnswered(s, alive, z)
    case _ =>
      && s.sent == [] && errno.Some?
      && (s.outcome == Resolved <==> errno == Some(0))
      && (s.outcome != Resolved ==> s.outcome == Rejected(errno.value))
  }

  // Every settlement of a step, one after the other, is the answer to its own call.
  ghost predicate NewsAnswered(w: World, w': World, alive: bool, z: Zmq, errno: Option<int>) {
    && w.log.settled <= w'.log.settled && w.log.issued <= w'.log.issued
    && forall i :: |w.log.settled| <= i < |w'.log.settled| ==>
         var s := w'.log.settled[i];
         s.promise < |w'.log.issued| && Answered(w'.log.issued[s.promise], s, alive, z, errno)
  }

  // ----- the parts of a step ----------------------------------------------------------------------------

  lemma SendingAnswers(p: nat, parts: seq<Frame>, alive: bool, z: Zmq)
    ensures SendAnswered(parts, Sending(p, parts, alive, z), alive, z)
  {
  }

  lemma CollectAnswers(w: World, p: nat, alive: bool, z: Zmq, errno: Option<int>)
    requires p < |w.log.issued| && w.log.issued[p] == ReceiveCall
    ensures NewsAnswered(w, Collect(w, p, alive, z), alive, z, errno)
  {
  }

  lemma TransmitAnswers(w: World, p: nat, parts: seq<Frame>, alive: bool, z: Zmq, errno: Option<int>)
    requires p < |w.log.issued| && w.log.issued[p] == SendCall(parts)
    ensures NewsAnswered(w, Transmit(w, p, parts, alive, z), alive, z, errno)
  {
    SendingAnswers(p, parts, alive, z);
  }

  lemma NewsJoin(w: World, w1: World, w2: World, alive: bool, z: Zmq, errno: Option<int>)
    requires NewsAnswered(w, w1, alive, z, errno) && NewsAnswered(w1, w2, alive, z, errno)
    ensures NewsAnswered(w, w2, alive, z, errno)
  {
    forall i | |w.log.settled| <= i < |w2.log.settled|
      ensures w2.log.settled[i].promise < |w2.log.issued|
      ensures Answered(w2.log.issued[w2.log.settled[i].promise], w2.log.settled[i], alive, z, errno)
    {
      if i < |w1.log.settled| {
        assert w2.log.settled[i] == w1.log.settled[i];
      }
    }
  }

  ghost predicate OwnersKnown(w: World) {
    && (!w.reader.Nobody? ==> w.reader.promise < |w.log.issued| && w.log.issued[w.reader.promise] == ReceiveCall)
    && (!w.writer.Nobody? ==>
          w.writer.promise < |w.log.issued| && w.log.issued[w.writer.promise] == SendCall(w.writer.parts))
  }

  lemma FinishReadAnswers(w: World, alive: bool, z: Zmq, errno: Option<int>)
    requires OwnersKnown(w) && !w.reader.Nobody?
    ensures NewsAnswered(w, FinishRead(w, alive, z), alive, z, errno) && OwnersKnown(FinishRead(w, alive, z))
  {
    CollectAnswers(w.(reader := Nobody, syncOperations := 0), w.reader.promise, alive, z, errno);
  }

  lemma FinishWriteAnswers(w: World, alive: bool, z: Zmq, errno: Option<int>)
    requires OwnersKnown(w) && !w.writer.Nobody?
    ensures NewsAnswered(w, FinishWrite(w, alive, z), alive, z, errno) && OwnersKnown(FinishWrite(w, alive, z))
  {
    TransmitAnswers(w.(writer := Nobody, syncOperations := 0), w.writer.promise, w.writer.parts, alive, z, errno);
  }

  lemma SendAnswers(w: World, parts: seq<Frame>, z: Zmq)
    requires OwnersKnown(w)
    ensures NewsAnswered(w, Send(w, parts, z), w.phase != Closed, z, None)
  {
    var w1 := w.(log := w.log.Issue(SendCall(parts)));
    if SendAllowed(w) && (w.sendTimeout == 0 || z.pollOut) && Immediate(w1, w.sendTimeout) {
      var w2 := Counted(w1, w.sendTimeout);
      var w3 := Transmit(w2, |w.log.issued|, parts, true, z);
      TransmitAnswers(w2, |w.log.issued|, parts, true, z, None);
      if w.reader.ByPoller? && z.pollIn {
        FinishReadAnswers(w3, true, z, None);
        NewsJoin(w2, w3, KickReader(w3, z), true, z, None);
      }
    }
  }

  lemma ReceiveAnswers(w: World, z: Zmq)
    requires OwnersKnown(w)
    ensures NewsAnswered(w, Receive(w, z), w.phase != Closed, z, None)
  {
    var w1 := w.(log := w.log.Issue(ReceiveCall));
    if ReceiveAllowed(w) && (w.receiveTimeout == 0 || z.pollIn) && Immediate(w1, w.receiveTimeout) {
      var w2 := Counted(w1, w.receiveTimeout);
      var w3 := Collect(w2, |w.log.issued|, true, z);
      CollectAnswers(w2, |w.log.issued|, true, z, None);
      if w.writer.ByPoller? && z.pollOut {
        FinishWriteAnswers(w3, true, z, None);
        NewsJoin(w2, w3, KickWriter(w3, z), true, z, None);
      }
    }
  }

  lemma CloseNowAnswers(w: World, z: Zmq, errno: Option<int>)
    requires OwnersKnown(w)
    ensures NewsAnswered(w, CloseNow(w, z), true, z, errno)
  {
    var w1 := if w.reader.ByPoller? then FinishRead(w, true, z) else w;
    if w.reader.ByPoller? {
      FinishReadAnswers(w, true, z, errno);
    }
    if w.writer.ByPoller? {
      FinishWriteAnswers(w1, true, z, errno);
      NewsJoin(w, w1, FinishWrite(w1, true, z), true, z, errno);
    }
  }

  lemma FinishJobAnswers(w: World, errno: int, z: Zmq)
    requires OwnersKnown(w) && w.job.Some? && w.job.value < |w.log.issued| && IsJob(w.log.issued[w.job.value])
    ensures NewsAnswered(w, FinishJob(w, errno, z), true, z, Some(errno))
  {
    var w1 := w.(phase := Open, job := None);
    var w2 := if w.requestClose then CloseNow(w1, z) else w1;
    if w.requestClose {
      CloseNowAnswers(w1, z, Some(errno));
    }
    NewsJoin(w1, w2, FinishJob(w, errno, z), true, z, Some(errno));
  }

  // ----- every step ---------------------------------------------------------------------------------------

  const SILENT := Zmq(false, false, 0, 0, NoMessage(0))

  // What libzmq says in a step.
  function Says(e: Event): Zmq {
    match e
    case JobEvent(_, _) => SILENT
    case TimeoutsEvent(_, _) => SILENT
    case JobDoneEvent(_, z) => z
    case _ => e.z
  }

  function JobEnd(e: Event): Option<int> {
    if e.JobDoneEvent? then Some(e.errno) else None
  }

  // Whatever settles a promise of a reachable socket, by whichever path, its outcome is the answer to its
  // own call: a send resolves if and only if libzmq takes all its parts, a receive gets the whole message
  // in order, a bind or unbind resolves if and only if its job ended without an error.
  lemma EverySettlementIsAnAnswer(w: World, e: Event)
    requires Reachable(w) && Enabled(w, e)
    ensures NewsAnswered(w, Apply(w, e), w.phase != Closed, Says(e), JobEnd(e))
  {
    ReachableInv(w);
    var z, end := Says(e), JobEnd(e);
    match e
    case SendEvent(parts, _) => SendAnswers(w, parts, z);
    case ReceiveEvent(_) => ReceiveAnswers(w, z);
    case CloseEvent(_) => if w.phase == Open { CloseNowAnswers(w.(requestClose := false), z, end); }
    case JobDoneEvent(errno, _) => FinishJobAnswers(w, errno, z);
    case FdReadEvent(_) => if w.reader.ByPoller? { FinishReadAnswers(w, true, z, end); }
    case DelayedWriteTailEvent(_) => if w.reader.ByPoller? { FinishReadAnswers(w, true, z, end); }
    case FdWriteEvent(_) => if w.writer.ByPoller? { FinishWriteAnswers(w, true, z, end); }
    case DelayedReadTailEvent(_) => if w.writer.ByPoller? { FinishWriteAnswers(w, true, z, end); }
    case ReadTimerEvent(_) => FinishReadAnswers(w, true, z, end);
    case WriteTimerEvent(_) => FinishWriteAnswers(w, true, z, end);
    case DelayedReadEvent(_) => FinishReadAnswers(w, w.phase != Closed, z, end);
    case DelayedWriteEvent(_) => FinishWriteAnswers(w, w.phase != Closed, z, end);
    case _ =>
  }

  // So the promise of a bind or unbind is settled last when its job completes, resolved if and only if there
  // was no error, whatever happened in between and also when the completion closes the socket.
  lemma JobIsAnswered(w: World, call: Call, es: seq<Event>, errno: int, z: Zmq)
    requires Reachable(w) && w.phase == Open && IsJob(call)
    requires Runs(StartJob(w, call, true), es) && NoJobDone(es)
    ensures var w1 := Exec(StartJob(w, call, true), es);
      && Enabled(w1, JobDoneEvent(errno, z))
      && var settled := Apply(w1, JobDoneEvent(errno, z)).log.settled;
      && settled != []
      && settled[|settled| - 1].promise == |w.log.issued|
      && (settled[|settled| - 1].outcome == Resolved <==> errno == 0)
      && (errno != 0 ==> settled[|settled| - 1].outcome == Rejected(errno))
  {
    ReachableInv(w);
    StepKeeps(w, JobEvent(call, true));
    CloseWaitsForJob(StartJob(w, call, true), es);
  }

  // ----- when a promise is settled ------------------------------------------------------------------------

  // What ends a receive that waits. Without input the descriptor and the looks of others do not.
  predicate ReadIsDue(w: World, e: Event) {
    if w.reader.ByDelayed? then e.DelayedReadEvent?
    else
      match e
      case FdReadEvent(z) => z.pollIn
      case DelayedWriteTailEvent(z) => z.pollIn
      case SendEvent(_, z) =>
        SendAllowed(w) && z.pollIn && (w.sendTimeout == 0 || (z.pollOut && w.syncOperations < 512))
      case ReadTimerEvent(_) => true
      case CloseEvent(_) => w.phase == Open
      case JobDoneEvent(_, _) => w.requestClose
      case _ => false
  }

  predicate WriteIsDue(w: World, e: Event) {
    if w.writer.ByDelayed? then e.DelayedWriteEvent?
    else
      match e
      case FdWriteEvent(z) => z.pollOut
      case DelayedReadTailEvent(z) => z.pollOut
      case ReceiveEvent(z) =>
        ReceiveAllowed(w) && z.pollOut && (w.receiveTimeout == 0 || (z.pollIn && w.syncOperations < 512))
      case WriteTimerEvent(_) => true
      case CloseEvent(_) => w.phase == Open
      case JobDoneEvent(_, _) => w.requestClose
      case _ => false
  }

  lemma ReaderEndsIff(w: World, e: Event)
    requires ClosesOnce(w) && Enabled(w, e) && !w.reader.Nobody?
    requires var p := w.reader.promise; p < |w.log.issued| && !Owns(w.writer, p) && w.job != Some(p)
    ensures var w' := Apply(w, e); var p := w.reader.promise;
      && w'.reader == (if ReadIsDue(w, e) then Nobody else w.reader)
      && |w'.log.issued| >= |w.log.issued| && !Owns(w'.writer, p) && w'.job != Some(p)
  {
  }

  lemma WaitingReadEndsIff(w: World, e: Event)
    requires Reachable(w) && Enabled(w, e) && !w.reader.Nobody?
    ensures TimesSettled(Apply(w, e).log.settled, w.reader.promise) == Bit(ReadIsDue(w, e))
    ensures Apply(w, e).reader == if ReadIsDue(w, e) then Nobody else w.reader
  {
    hide Apply, Enabled, ReadIsDue, ClosesOnce;
    ReachableInv(w);
    ReachableStep(w, e);
    ReachableInv(Apply(w, e));
    ConservedAt(w, w.reader.promise);
    ConservedAt(Apply(w, e), w.reader.promise);
    ReaderEndsIff(w, e);
  }

  lemma WriterEndsIff(w: World, e: Event)
    requires ClosesOnce(w) && Enabled(w, e) && !w.writer.Nobody?
    requires var p := w.writer.promise; p < |w.log.issued| && !Owns(w.reader, p) && w.job != Some(p)
    ensures var w' := Apply(w, e); var p := w.writer.promise;
      && w'.writer == (if WriteIsDue(w, e) then Nobody else w.writer)
      && |w'.log.issued| >= |w.log.issued| && !Owns(w'.reader, p) && w'.job != Some(p)
  {
  }

  lemma WaitingWriteEndsIff(w: World, e: Event)
    requires Reachable(w) && Enabled(w, e) && !w.writer.Nobody?
    ensures TimesSettled(Apply(w, e).log.settled, w.writer.promise) == Bit(WriteIsDue(w, e))
    ensures Apply(w, e).writer == if WriteIsDue(w, e) then Nobody else w.writer
  {
    hide Apply, Enabled, WriteIsDue, ClosesOnce;
    ReachableInv(w);
    ReachableStep(w, e);
    ReachableInv(Apply(w, e));
    ConservedAt(w, w.writer.promise);
    ConservedAt(Apply(w, e), w.writer.promise);
    WriterEndsIff(w, e);
  }

  // What a call does on a socket with such a timeout. Without time to wait it is settled at once, ready or
  // not; a timer runs only for a positive timeout and only while the operation is not ready.
  ghost predicate SendStarted(w: World, w2: World, parts: seq<Frame>, timeout: int, z: Zmq) {
    && w2.log.issued == w.log.issued + [SendCall(parts)]
    && (TimesSettled(w2.log.settled, |w.log.issued|) == 1 <==>
          timeout == 0 || (z.pollOut && w.syncOperations < 512))
    && (Enabled(w2, DelayedWriteEvent(z)) <==> timeout != 0 && z.pollOut && w.syncOperations >= 512)
    && (Enabled(w2, WriteTimerEvent(z)) <==> timeout > 0 && !z.pollOut)
  }

  ghost predicate ReceiveStarted(w: World, w2: World, timeout: int, z: Zmq) {
    && w2.log.issued == w.log.issued + [ReceiveCall]
    && (TimesSettled(w2.log.settled, |w.log.issued|) == 1 <==>
          timeout == 0 || (z.pollIn && w.syncOperations < 512))
    && (Enabled(w2, DelayedReadEvent(z)) <==> timeout != 0 && z.pollIn && w.syncOperations >= 512)
    && (Enabled(w2, ReadTimerEvent(z)) <==> timeout > 0 && !z.pollIn)
  }

  lemma SendIsStarted(w: World, parts: seq<Frame>, z: Zmq)
    requires Inv(w) && SendAllowed(w)
    ensures SendStarted(w, Send(w, parts, z), parts, w.sendTimeout, z)
  {
    SendKeeps(w, parts, z);
    ConservedAt(Send(w, parts, z), |w.log.issued|);
  }

  lemma ReceiveIsStarted(w: World, z: Zmq)
    requires Inv(w) && ReceiveAllowed(w)
    ensures ReceiveStarted(w, Receive(w, z), w.receiveTimeout, z)
  {
    ReceiveKeeps(w, z);
    ConservedAt(Receive(w, z), |w.log.issued|);
  }

  // A call with these timeouts set is refused unless the socket is open and its direction is free.
  lemma SendSettlesAtOnceIff(w: World, send: int, receive: int, parts: seq<Frame>, z: Zmq)
    requires Reachable(w)
    ensures var w1 := Apply(w, TimeoutsEvent(send, receive)); var w2 := Apply(w1, SendEvent(parts, z));
      if w.phase != Open || !w.writer.Nobody? then w2 == w1 else SendStarted(w, w2, parts, send, z)
  {
    var w1 := Apply(w, TimeoutsEvent(send, receive));
    ReachableStep(w, TimeoutsEvent(send, receive));
    ReachableInv(w1);
    if SendAllowed(w1) {
      SendIsStarted(w1, parts, z);
    }
  }

  lemma ReceiveSettlesAtOnceIff(w: World, send: int, receive: int, z: Zmq)
    requires Reachable(w)
    ensures var w1 := Apply(w, TimeoutsEvent(send, receive)); var w2 := Apply(w1, ReceiveEvent(z));
      if w.phase != Open || !w.reader.Nobody? then w2 == w1 else ReceiveStarted(w, w2, receive, z)
  {
    var w1 := Apply(w, TimeoutsEvent(send, receive));
    ReachableStep(w, TimeoutsEvent(send, receive));
    ReachableInv(w1);
    if ReceiveAllowed(w1) {
      ReceiveIsStarted(w1, z);
    }
  }

  // When a step settles two promises of its two directions, a call settles its own first, and closing
  // settles the receive first.
  lemma OrderOfSettlement(w: World, e: Event)
    requires Reachable(w) && Enabled(w, e) && |Apply(w, e).log.settled| >= |w.log.settled| + 2
    ensures var n := |w.log.settled|; var settled := Apply(w, e).log.settled;
      && (e.SendEvent? ==> settled[n].promise == |w.log.issued| && Owns(w.reader, settled[n + 1].promise))
      && (e.ReceiveEvent? ==> settled[n].promise == |w.log.issued| && Owns(w.writer, settled[n + 1].promise))
      && (e.CloseEvent? ==> Owns(w.reader, settled[n].promise) && Owns(w.writer, settled[n + 1].promise))
      && (e.SendEvent? || e.ReceiveEvent? || e.CloseEvent? || e.JobDoneEvent?)
  {
  }
}
