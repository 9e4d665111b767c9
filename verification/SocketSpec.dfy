/** What a native socket promises, as an abstract state machine.

    The native code keeps an event bitmask, a poll handle, two timers, two optional deferred
    promises, a saved message and any number of scheduled callbacks. Here each direction has one
    `Owner` instead: nobody, the poller, or one delayed callback. NativeSocket.dfy proves that the
    native code behaves like this machine; this module proves what every run of it keeps. */
module SocketSpec {
  import opened Common

  // The number of operations that may complete synchronously before one is delayed.
  const MAX_SYNC_OPERATIONS: nat := 512

  const ENOTSOCK: int := 88

  datatype Phase = Open | Blocked | Closed

  // What JavaScript asked for; promise number n belongs to call number n.
  datatype Call =
    | SendCall(parts: seq<Frame>)
    | ReceiveCall
    | BindCall(address: string)
    | UnbindCall(address: string)

  datatype Outcome = Resolved | Received(frames: seq<Frame>) | Rejected(errno: int)

  // One successful zmq_msg_send: a part and its ZMQ_SNDMORE flag.
  datatype OnWire = OnWire(part: Frame, more: bool)

  // A promise being settled, and what was put on the wire for it.
  datatype Settlement = Settlement(promise: nat, outcome: Outcome, sent: seq<OnWire>)

  // Who is going to settle the pending promise of one direction.
  datatype Owner =
    | Nobody
    | ByPoller(promise: nat, parts: seq<Frame>, timed: bool)
    | ByDelayed(promise: nat, parts: seq<Frame>)

  datatype Incoming = Message(first: Frame, rest: seq<Frame>) | NoMessage(errno: int)

  // The answers libzmq gives during one step: any answer is possible.
  datatype Zmq = Zmq(pollIn: bool, pollOut: bool, accepts: nat, sendErrno: int, incoming: Incoming)

  // What happened so far: the calls, the settled promises, every part libzmq accepted, and how
  // often the libzmq socket was closed.
  datatype Log = Log(issued: seq<Call>, settled: seq<Settlement>, wire: seq<OnWire>, zmqCloses: nat)
  {
    function Issue(call: Call): Log {
      this.(issued := issued + [call])
    }

    function Settle(s: Settlement): Log {
      this.(settled := settled + [s], wire := wire + s.sent)
    }

    function CloseZmq(): Log {
      this.(zmqCloses := zmqCloses + 1)
    }
  }

  datatype World = World(
    phase: Phase,
    requestClose: bool,
    job: Option<nat>,            // promise of the bind or unbind running on a worker thread
    sendTimeout: int,
    receiveTimeout: int,
    syncOperations: nat,
    reader: Owner,
    writer: Owner,
    log: Log)

  const INITIAL := World(Open, false, None, -1, -1, 0, Nobody, Nobody, Log([], [], [], 0))

  // ----- steps ---------------------------------------------------------------------------------

  // The first n parts of a message as they go out: every part but the last one is followed by more.
  function Marked(parts: seq<Frame>, n: nat): (r: seq<OnWire>)
    requires n <= |parts|
    ensures |r| == n
  {
    seq(n, i requires 0 <= i < n => OnWire(parts[i], i + 1 < |parts|))
  }

  // How many parts libzmq takes. A null socket pointer takes none.
  function Accepted(parts: seq<Frame>, alive: bool, z: Zmq): (n: nat)
    ensures n <= |parts|
  {
    if !alive then 0 else if z.accepts < |parts| then z.accepts else |parts|
  }

  function SendOutcome(parts: seq<Frame>, alive: bool, z: Zmq): Outcome {
    if Accepted(parts, alive, z) == |parts| then Resolved
    else Rejected(if alive then z.sendErrno else ENOTSOCK)
  }

  function ReceiveOutcome(alive: bool, z: Zmq): Outcome {
    if !alive then Rejected(ENOTSOCK)
    else match z.incoming
      case Message(first, rest) => Received([first] + rest)
      case NoMessage(errno) => Rejected(errno)
  }

  // How a send ends.
  function Sending(p: nat, parts: seq<Frame>, alive: bool, z: Zmq): Settlement {
    Settlement(p, SendOutcome(parts, alive, z), Marked(parts, Accepted(parts, alive, z)))
  }

  function Transmit(w: World, p: nat, parts: seq<Frame>, alive: bool, z: Zmq): World {
    w.(log := w.log.Settle(Sending(p, parts, alive, z)))
  }

  function Collect(w: World, p: nat, alive: bool, z: Zmq): World {
    w.(log := w.log.Settle(Settlement(p, ReceiveOutcome(alive, z), [])))
  }

  function FinishRead(w: World, alive: bool, z: Zmq): World
    requires !w.reader.Nobody?
  {
    Collect(w.(reader := Nobody, syncOperations := 0), w.reader.promise, alive, z)
  }

  function FinishWrite(w: World, alive: bool, z: Zmq): World
    requires !w.writer.Nobody?
  {
    Transmit(w.(writer := Nobody, syncOperations := 0), w.writer.promise, w.writer.parts, alive, z)
  }

  function KickReader(w: World, z: Zmq): World {
    if w.reader.ByPoller? && z.pollIn then FinishRead(w, true, z) else w
  }

  function KickWriter(w: World, z: Zmq): World {
    if w.writer.ByPoller? && z.pollOut then FinishWrite(w, true, z) else w
  }

  // The operation is counted whenever its timeout is not zero, even if it is then delayed.
  function Counted(w: World, timeout: int): World {
    if timeout == 0 then w else w.(syncOperations := w.syncOperations + 1)
  }

  predicate Immediate(w: World, timeout: int) {
    timeout == 0 || w.syncOperations < MAX_SYNC_OPERATIONS
  }

  predicate SendAllowed(w: World) {
    w.phase == Open && w.writer == Nobody
  }

  predicate ReceiveAllowed(w: World) {
    w.phase == Open && w.reader == Nobody
  }

  // send() from where the message has been converted. The conversion may have run code of the user, so
  // any state is possible here; nothing is tested again, and a null socket has no events.
  function SendRest(w: World, parts: seq<Frame>, z: Zmq): World {
    var p := |w.log.issued|;
    var w1 := w.(log := w.log.Issue(SendCall(parts)));
    var timeout := w.sendTimeout;
    var alive := w.phase != Closed;
    if timeout == 0 || (alive && z.pollOut) then
      var w2 := Counted(w1, timeout);
      if Immediate(w1, timeout) then
        var w3 := Transmit(w2, p, parts, alive, z);
        if alive then KickReader(w3, z) else w3
      else w2.(writer := ByDelayed(p, parts))
    else w1.(writer := ByPoller(p, parts, timeout > 0))
  }

  // send() of a message whose conversion runs no code on this socket.
  function Send(w: World, parts: seq<Frame>, z: Zmq): World {
    if SendAllowed(w) then SendRest(w, parts, z) else w
  }

  function Receive(w: World, z: Zmq): World {
    if !ReceiveAllowed(w) then w
    else
      var p := |w.log.issued|;
      var w1 := w.(log := w.log.Issue(ReceiveCall));
      var timeout := w.receiveTimeout;
      if timeout == 0 || z.pollIn then
        var w2 := Counted(w1, timeout);
        if Immediate(w1, timeout)
        then KickWriter(Collect(w2, p, true, z), z)
        else w2.(reader := ByDelayed(p, []))
      else w1.(reader := ByPoller(p, [], timeout > 0))
  }

  // What the poller owns is settled when the socket is closed, reads first.
  function Released(w: World, z: Zmq): World {
    var w1 := if w.reader.ByPoller? then FinishRead(w, true, z) else w;
    if w.writer.ByPoller? then FinishWrite(w1, true, z) else w1
  }

  // Closing settles what the poller owns and then closes the libzmq socket.
  function CloseNow(w: World, z: Zmq): World {
    if w.phase == Closed then w
    else
      var w1 := Released(w, z);
      w1.(phase := Closed, log := w1.log.CloseZmq())
  }

  function CloseCalled(w: World, z: Zmq): World {
    if w.phase == Blocked then w.(requestClose := true)
    else CloseNow(w.(requestClose := false), z)
  }

  // Bind or unbind. When the job cannot be queued the call throws, but the phase stays Blocked.
  function StartJob(w: World, call: Call, queued: bool): World {
    if w.phase != Open then w
    else if queued then w.(phase := Blocked, job := Some(|w.log.issued|), log := w.log.Issue(call))
    else w.(phase := Blocked)
  }

  function JobOutcome(errno: int): Outcome {
    if errno != 0 then Rejected(errno) else Resolved
  }

  function FinishJob(w: World, errno: int, z: Zmq): World
    requires w.job.Some?
  {
    var w1 := w.(phase := Open, job := None);
    var w2 := if w.requestClose then CloseNow(w1, z) else w1;
    w2.(log := w2.log.Settle(Settlement(w.job.value, JobOutcome(errno), [])))
  }

  datatype Event =
    | SendEvent(parts: seq<Frame>, z: Zmq)
    | ReceiveEvent(z: Zmq)
    | CloseEvent(z: Zmq)
    | JobEvent(call: Call, queued: bool)
    | JobDoneEvent(errno: int, z: Zmq)
    | TimeoutsEvent(send: int, receive: int)
    | FdReadEvent(z: Zmq)
    | FdWriteEvent(z: Zmq)
    | ReadTimerEvent(z: Zmq)
    | WriteTimerEvent(z: Zmq)
    | DelayedReadEvent(z: Zmq)
    | DelayedReadTailEvent(z: Zmq)
    | DelayedWriteEvent(z: Zmq)
    | DelayedWriteTailEvent(z: Zmq)

  // JavaScript may call anything at any time. The event loop only runs what was armed. The second
  // halves of the callbacks are allowed at any time: user code may have run since the first half.
  predicate Enabled(w: World, e: Event) {
    match e
    case JobEvent(call, _) => call.BindCall? || call.UnbindCall?
    case JobDoneEvent(_, _) => w.job.Some?
    case FdReadEvent(_) => w.reader.ByPoller? || w.writer.ByPoller?
    case ReadTimerEvent(_) => w.reader.ByPoller? && w.reader.timed
    case WriteTimerEvent(_) => w.writer.ByPoller? && w.writer.timed
    case DelayedReadEvent(_) => w.reader.ByDelayed?
    case DelayedWriteEvent(_) => w.writer.ByDelayed?
    case _ => true
  }

  function Apply(w: World, e: Event): World
    requires Enabled(w, e)
  {
    match e
    case SendEvent(parts, z) => Send(w, parts, z)
    case ReceiveEvent(z) => Receive(w, z)
    case CloseEvent(z) => CloseCalled(w, z)
    case JobEvent(call, queued) => StartJob(w, call, queued)
    case JobDoneEvent(errno, z) => FinishJob(w, errno, z)
    case TimeoutsEvent(send, receive) => w.(sendTimeout := send, receiveTimeout := receive)
    case FdReadEvent(z) => KickReader(w, z)
    case FdWriteEvent(z) => KickWriter(w, z)
    case ReadTimerEvent(z) => FinishRead(w, true, z)
    case WriteTimerEvent(z) => FinishWrite(w, true, z)
    case DelayedReadEvent(z) => FinishRead(w, w.phase != Closed, z)
    case DelayedReadTailEvent(z) => if w.phase == Closed then w else KickWriter(w, z)
    case DelayedWriteEvent(z) => FinishWrite(w, w.phase != Closed, z)
    case DelayedWriteTailEvent(z) => if w.phase == Closed then w else KickReader(w, z)
  }

  predicate Runs(w: World, es: seq<Event>)
    decreases |es|
  {
    es == [] || (Enabled(w, es[0]) && Runs(Apply(w, es[0]), es[1..]))
  }

  function Exec(w: World, es: seq<Event>): World
    requires Runs(w, es)
    decreases |es|
  {
    if es == [] then w else Exec(Apply(w, es[0]), es[1..])
  }

  // ----- the invariant -------------------------------------------------------------------------

  function TimesSettled(settled: seq<Settlement>, p: nat): nat {
    if settled == [] then 0
    else TimesSettled(settled[..|settled| - 1], p) + Bit(settled[|settled| - 1].promise == p)
  }

  predicate Owns(o: Owner, p: nat) {
    !o.Nobody? && o.promise == p
  }

  // In how many places promise p is: each settlement, each direction's owner and the job count.
  function Places(w: World, p: nat): nat {
    TimesSettled(w.log.settled, p) + Bit(Owns(w.reader, p)) + Bit(Owns(w.writer, p)) + Bit(w.job == Some(p))
  }

  // Every promise is in exactly one place, except that `hole` is in none while a step handles it.
  ghost predicate PromisesInOnePlace(w: World, hole: Option<nat>) {
    forall p: nat :: Places(w, p) + Bit(hole == Some(p)) == Bit(p < |w.log.issued|)
  }

  // What libzmq took of a message: the first parts, in order, each but the last of all followed by more.
  ghost predicate FirstParts(sent: seq<OnWire>, parts: seq<Frame>) {
    && |sent| <= |parts|
    && forall k :: 0 <= k < |sent| ==> sent[k].part == parts[k] && (sent[k].more <==> k + 1 < |parts|)
  }

  // A settled send put the first of its own parts on the wire, and all of them iff it resolved.
  ghost predicate Faithful(w: World, s: Settlement) {
    && s.promise < |w.log.issued|
    && match w.log.issued[s.promise]
       case SendCall(parts) =>
         && FirstParts(s.sent, parts)
         && (s.outcome.Resolved? <==> |s.sent| == |parts|)
         && !s.outcome.Received?
       case ReceiveCall => s.sent == [] && !s.outcome.Resolved?
       case _ => s.sent == [] && !s.outcome.Received?
  }

  function Flat(settled: seq<Settlement>): seq<OnWire> {
    if settled == [] then []
    else Flat(settled[..|settled| - 1]) + settled[|settled| - 1].sent
  }

  ghost predicate SendsAreFaithful(w: World) {
    && (forall i :: 0 <= i < |w.log.settled| ==> Faithful(w, w.log.settled[i]))
    && (!w.writer.Nobody? ==>
          w.writer.promise < |w.log.issued| && w.log.issued[w.writer.promise] == SendCall(w.writer.parts))
    && (!w.reader.Nobody? ==> w.reader.promise < |w.log.issued| && w.log.issued[w.reader.promise] == ReceiveCall)
    && (w.job.Some? ==> w.job.value < |w.log.issued| &&
                        (w.log.issued[w.job.value].BindCall? || w.log.issued[w.job.value].UnbindCall?))
    && w.log.wire == Flat(w.log.settled)
  }

  predicate Fair(w: World) {
    w.syncOperations <= MAX_SYNC_OPERATIONS + Bit(w.reader.ByDelayed?) + Bit(w.writer.ByDelayed?)
  }

  predicate ClosesOnce(w: World) {
    && w.log.zmqCloses == Bit(w.phase == Closed)
    && (w.phase == Closed ==> !w.reader.ByPoller? && !w.writer.ByPoller?)
    && (w.job.Some? ==> w.phase == Blocked)
    && (w.requestClose ==> w.phase != Open)
  }

  ghost predicate InvBut(w: World, hole: Option<nat>) {
    && PromisesInOnePlace(w, hole)
    && SendsAreFaithful(w)
    && Fair(w)
    && ClosesOnce(w)
  }

  ghost predicate Inv(w: World) {
    InvBut(w, None)
  }

  // ----- every step keeps the invariant ----------------------------------------------------------

  lemma AppendSettled(s: seq<Settlement>, x: Settlement, p: nat)
    ensures TimesSettled(s + [x], p) == TimesSettled(s, p) + Bit(x.promise == p)
    ensures Flat(s + [x]) == Flat(s) + x.sent
  {
    assert (s + [x])[..|s|] == s;
  }

  // Settling the promise in the hole.
  lemma SettleHole(w: World, x: Settlement, w': World)
    requires InvBut(w, Some(x.promise)) && Faithful(w, x)
    requires w' == w.(log := w.log.Settle(x))
    ensures InvBut(w', None)
  {
    forall p: nat ensures Places(w', p) == Bit(p < |w'.log.issued|) {
      AppendSettled(w.log.settled, x, p);
      assert Places(w, p) + Bit(Some(x.promise) == Some(p)) == Bit(p < |w.log.issued|);
    }
    AppendSettled(w.log.settled, x, 0);
  }

  lemma FinishReadKeeps(w: World, alive: bool, z: Zmq, hole: Option<nat>)
    requires InvBut(w, hole) && !w.reader.Nobody?
    ensures InvBut(FinishRead(w, alive, z), hole)
  {
    var w' := FinishRead(w, alive, z);
    var x := w'.log.settled[|w.log.settled|];
    forall p: nat ensures Places(w', p) + Bit(hole == Some(p)) == Bit(p < |w'.log.issued|) {
      AppendSettled(w.log.settled, x, p);
      assert Places(w, p) + Bit(hole == Some(p)) == Bit(p < |w.log.issued|);
    }
    AppendSettled(w.log.settled, x, 0);
    assert Faithful(w', x);
  }

  lemma FinishWriteKeeps(w: World, alive: bool, z: Zmq, hole: Option<nat>)
    requires InvBut(w, hole) && !w.writer.Nobody?
    ensures InvBut(FinishWrite(w, alive, z), hole)
  {
    var w' := FinishWrite(w, alive, z);
    var x := w'.log.settled[|w.log.settled|];
    forall p: nat ensures Places(w', p) + Bit(hole == Some(p)) == Bit(p < |w'.log.issued|) {
      AppendSettled(w.log.settled, x, p);
      assert Places(w, p) + Bit(hole == Some(p)) == Bit(p < |w.log.issued|);
    }
    AppendSettled(w.log.settled, x, 0);
    assert Faithful(w', x);
  }

  lemma ReleasedKeeps(w: World, z: Zmq, hole: Option<nat>)
    requires InvBut(w, hole)
    ensures InvBut(Released(w, z), hole)
  {
    var w1 := if w.reader.ByPoller? then FinishRead(w, true, z) else w;
    if w.reader.ByPoller? {
      FinishReadKeeps(w, true, z, hole);
    }
    if w.writer.ByPoller? {
      FinishWriteKeeps(w1, true, z, hole);
    }
  }

  lemma CloseNowKeeps(w: World, z: Zmq, hole: Option<nat>)
    requires InvBut(w, hole) && w.job.None?
    ensures InvBut(CloseNow(w, z), hole)
  {
    if w.phase != Closed {
      ReleasedKeeps(w, z, hole);
      SidestepKeeps(Released(w, z), CloseNow(w, z), hole);
    }
  }

  // A new promise starts in the hole.
  lemma IssueKeeps(w: World, call: Call, w': World)
    requires Inv(w) && w' == w.(log := w.log.Issue(call))
    ensures InvBut(w', Some(|w.log.issued|))
  {
    forall p: nat ensures Places(w', p) + Bit(Some(|w.log.issued|) == Some(p)) == Bit(p < |w'.log.issued|) {
      assert Places(w, p) + Bit(None == Some(p)) == Bit(p < |w.log.issued|);
    }
    assert forall x: Settlement :: Faithful(w, x) ==> Faithful(w', x);
  }

  // Only the fields that the promises and messages do not depend on change.
  lemma SidestepKeeps(w: World, w': World, hole: Option<nat>)
    requires InvBut(w, hole) && Fair(w') && ClosesOnce(w')
    requires w' == w.(phase := w'.phase, requestClose := w'.requestClose, sendTimeout := w'.sendTimeout,
                      receiveTimeout := w'.receiveTimeout, syncOperations := w'.syncOperations,
                      log := w.log.(zmqCloses := w'.log.zmqCloses))
    ensures InvBut(w', hole)
  {
    forall p: nat ensures Places(w', p) == Places(w, p) {}
    assert forall x: Settlement :: Faithful(w, x) ==> Faithful(w', x);
  }

  lemma KickReaderKeeps(w: World, z: Zmq)
    requires Inv(w)
    ensures Inv(KickReader(w, z))
  {
    if w.reader.ByPoller? && z.pollIn {
      FinishReadKeeps(w, true, z, None);
    }
  }

  lemma KickWriterKeeps(w: World, z: Zmq)
    requires Inv(w)
    ensures Inv(KickWriter(w, z))
  {
    if w.writer.ByPoller? && z.pollOut {
      FinishWriteKeeps(w, true, z, None);
    }
  }

  // The states after the conversion in which the rest of send() does what it should: the slot is free,
  // or the operation completes at once; and on a closed socket it does so without the poller.
  predicate RestClean(w: World, z: Zmq) {
    if w.phase == Closed then w.sendTimeout == 0
    else w.writer == Nobody || ((w.sendTimeout == 0 || z.pollOut) && Immediate(w, w.sendTimeout))
  }

  lemma SendRestKeeps(w: World, parts: seq<Frame>, z: Zmq)
    requires Inv(w) && RestClean(w, z)
    ensures Inv(SendRest(w, parts, z))
  {
    var p := |w.log.issued|;
    var w1 := w.(log := w.log.Issue(SendCall(parts)));
    IssueKeeps(w, SendCall(parts), w1);
    var timeout := w.sendTimeout;
    var alive := w.phase != Closed;
    if (timeout == 0 || (alive && z.pollOut)) && Immediate(w1, timeout) {
      var w2 := Counted(w1, timeout);
      SidestepKeeps(w1, w2, Some(p));
      var w3 := Transmit(w2, p, parts, alive, z);
      var x := w3.log.settled[|w.log.settled|];
      assert Faithful(w2, x);
      SettleHole(w2, x, w3);
      KickReaderKeeps(w3, z);
    } else {
      PutInWriter(w1, SendRest(w, parts, z), p, parts);
    }
  }

  lemma SendKeeps(w: World, parts: seq<Frame>, z: Zmq)
    requires Inv(w)
    ensures Inv(Send(w, parts, z))
  {
    if SendAllowed(w) {
      SendRestKeeps(w, parts, z);
    }
  }

  // The promise in the hole is handed to an owner.
  lemma PutInWriter(w: World, w': World, p: nat, parts: seq<Frame>)
    requires InvBut(w, Some(p)) && w.writer == Nobody && Owns(w'.writer, p) && w'.writer.parts == parts
    requires p < |w.log.issued| && w.log.issued[p] == SendCall(parts)
    requires w' == w.(writer := w'.writer, syncOperations := w'.syncOperations)
    requires Fair(w') && ClosesOnce(w')
    ensures Inv(w')
  {
    forall q: nat ensures Places(w', q) + Bit(None == Some(q)) == Bit(q < |w'.log.issued|) {
      assert Places(w, q) + Bit(Some(p) == Some(q)) == Bit(q < |w.log.issued|);
    }
    assert forall x: Settlement :: Faithful(w, x) ==> Faithful(w', x);
  }

  lemma PutInReader(w: World, w': World, p: nat)
    requires InvBut(w, Some(p)) && w.reader == Nobody && Owns(w'.reader, p)
    requires p < |w.log.issued| && w.log.issued[p] == ReceiveCall
    requires w' == w.(reader := w'.reader, syncOperations := w'.syncOperations)
    requires Fair(w') && ClosesOnce(w')
    ensures Inv(w')
  {
    forall q: nat ensures Places(w', q) + Bit(None == Some(q)) == Bit(q < |w'.log.issued|) {
      assert Places(w, q) + Bit(Some(p) == Some(q)) == Bit(q < |w.log.issued|);
    }
    assert forall x: Settlement :: Faithful(w, x) ==> Faithful(w', x);
  }

  lemma ReceiveKeeps(w: World, z: Zmq)
    requires Inv(w)
    ensures Inv(Receive(w, z))
  {
    if ReceiveAllowed(w) {
      var p := |w.log.issued|;
      var w1 := w.(log := w.log.Issue(ReceiveCall));
      IssueKeeps(w, ReceiveCall, w1);
      var timeout := w.receiveTimeout;
      if (timeout == 0 || z.pollIn) && Immediate(w1, timeout) {
        var w2 := Counted(w1, timeout);
        SidestepKeeps(w1, w2, Some(p));
        var w3 := Collect(w2, p, true, z);
        var x := w3.log.settled[|w.log.settled|];
        assert Faithful(w2, x);
        SettleHole(w2, x, w3);
        KickWriterKeeps(w3, z);
      } else {
        PutInReader(w1, Receive(w, z), p);
      }
    }
  }

  lemma StartJobKeeps(w: World, call: Call, queued: bool)
    requires Inv(w) && (call.BindCall? || call.UnbindCall?)
    ensures Inv(StartJob(w, call, queued))
  {
    if w.phase == Open {
      var w' := StartJob(w, call, queued);
      if queued {
        var w1 := w.(log := w.log.Issue(call));
        IssueKeeps(w, call, w1);
        forall p: nat ensures Places(w', p) + Bit(None == Some(p)) == Bit(p < |w'.log.issued|) {
          assert Places(w1, p) + Bit(Some(|w.log.issued|) == Some(p)) == Bit(p < |w1.log.issued|);
        }
        assert forall x: Settlement :: Faithful(w1, x) ==> Faithful(w', x);
      } else {
        SidestepKeeps(w, w', None);
      }
    }
  }

  // The promise of a completed job is in the hole until it is settled.
  lemma TakeJobKeeps(w: World)
    requires Inv(w) && w.job.Some?
    ensures InvBut(w.(job := None), w.job)
  {
    var w0 := w.(job := None);
    forall q: nat ensures Places(w0, q) + Bit(w.job == Some(q)) == Bit(q < |w0.log.issued|) {
      assert Places(w, q) + Bit(None == Some(q)) == Bit(q < |w.log.issued|);
    }
    assert forall x: Settlement :: Faithful(w, x) ==> Faithful(w0, x);
  }

  lemma FinishJobKeeps(w: World, errno: int, z: Zmq)
    requires Inv(w) && w.job.Some?
    ensures Inv(FinishJob(w, errno, z))
  {
    var p := w.job.value;
    var w0 := w.(job := None);
    TakeJobKeeps(w);
    var w2 := if w.requestClose then CloseNow(w0, z) else w0.(phase := Open);
    if w.requestClose {
      CloseNowKeeps(w0, z, Some(p));
    } else {
      SidestepKeeps(w0, w2, Some(p));
    }
    var x := Settlement(p, JobOutcome(errno), []);
    assert FinishJob(w, errno, z) == w2.(log := w2.log.Settle(x));
    SettleHole(w2, x, FinishJob(w, errno, z));
  }

  lemma StepKeeps(w: World, e: Event)
    requires Inv(w) && Enabled(w, e)
    ensures Inv(Apply(w, e))
  {
    match e
    case SendEvent(parts, z) => SendKeeps(w, parts, z);
    case ReceiveEvent(z) => ReceiveKeeps(w, z);
    case CloseEvent(z) =>
      if w.phase == Blocked {
        SidestepKeeps(w, w.(requestClose := true), None);
      } else {
        SidestepKeeps(w, w.(requestClose := false), None);
        CloseNowKeeps(w.(requestClose := false), z, None);
      }
    case JobEvent(call, queued) => StartJobKeeps(w, call, queued);
    case JobDoneEvent(errno, z) => FinishJobKeeps(w, errno, z);
    case TimeoutsEvent(send, receive) => SidestepKeeps(w, w.(sendTimeout := send, receiveTimeout := receive), None);
    case FdReadEvent(z) => KickReaderKeeps(w, z);
    case FdWriteEvent(z) => KickWriterKeeps(w, z);
    case ReadTimerEvent(z) => FinishReadKeeps(w, true, z, None);
    case WriteTimerEvent(z) => FinishWriteKeeps(w, true, z, None);
    case DelayedReadEvent(z) => FinishReadKeeps(w, w.phase != Closed, z, None);
    case DelayedReadTailEvent(z) => KickWriterKeeps(w, z);
    case DelayedWriteEvent(z) => FinishWriteKeeps(w, w.phase != Closed, z, None);
    case DelayedWriteTailEvent(z) => KickReaderKeeps(w, z);
  }

  lemma {:induction false} RunKeeps(w: World, es: seq<Event>)
    requires Inv(w) && Runs(w, es)
    ensures Inv(Exec(w, es))
    decreases |es|
  {
    if es != [] {
      StepKeeps(w, es[0]);
      RunKeeps(Apply(w, es[0]), es[1..]);
    }
  }

  // ----- what holds after any run of a new socket ------------------------------------------------

  // The states some run reaches.
  ghost predicate Reachable(w: World) {
    exists es :: Runs(INITIAL, es) && Exec(INITIAL, es) == w
  }

  lemma ReachableInv(w: World)
    requires Reachable(w)
    ensures Inv(w)
  {
    var es :| Runs(INITIAL, es) && Exec(INITIAL, es) == w;
    RunKeeps(INITIAL, es);
  }

  lemma {:induction false} RunThenStep(w: World, es: seq<Event>, e: Event)
    requires Runs(w, es) && Enabled(Exec(w, es), e)
    ensures Runs(w, es + [e]) && Exec(w, es + [e]) == Apply(Exec(w, es), e)
    decreases |es|
  {
    if es == [] {
      assert [e][1..] == [];
      assert Runs(Apply(w, e), []) && Exec(Apply(w, e), []) == Apply(w, e);
    } else {
      RunThenStep(Apply(w, es[0]), es[1..], e);
      assert (es + [e])[1..] == es[1..] + [e];
    }
  }

  lemma ReachableStep(w: World, e: Event)
    requires Reachable(w) && Enabled(w, e)
    ensures Reachable(Apply(w, e))
  {
    var es :| Runs(INITIAL, es) && Exec(INITIAL, es) == w;
    RunThenStep(INITIAL, es, e);
  }

  predicate Pending(w: World, p: nat) {
    Owns(w.reader, p) || Owns(w.writer, p) || w.job == Some(p)
  }

  // No promise is settled twice or forgotten: each one is either settled once or has one owner.
  lemma PromiseConservation(w: World, p: nat)
    requires Reachable(w)
    ensures p < |w.log.issued| <==> TimesSettled(w.log.settled, p) == 1 || Pending(w, p)
    ensures TimesSettled(w.log.settled, p) <= 1
    ensures Pending(w, p) ==> TimesSettled(w.log.settled, p) == 0
    ensures Bit(Owns(w.reader, p)) + Bit(Owns(w.writer, p)) + Bit(w.job == Some(p)) <= 1
  {
    ReachableInv(w);
    assert Places(w, p) + Bit(None == Some(p)) == Bit(p < |w.log.issued|);
  }

  // The step that settles a pending promise: its timer, its file descriptor, its delayed callback
  // or the completion of its job.
  function Waker(w: World, p: nat, z: Zmq): Event
    requires Pending(w, p)
  {
    if Owns(w.reader, p) then
      if w.reader.ByDelayed? then DelayedReadEvent(z) else if w.reader.timed then ReadTimerEvent(z) else FdReadEvent(z)
    else if Owns(w.writer, p) then
      if w.writer.ByDelayed? then DelayedWriteEvent(z)
      else if w.writer.timed then WriteTimerEvent(z) else FdWriteEvent(z)
    else JobDoneEvent(0, z)
  }

  // No pending promise is stranded: something armed settles it once libzmq has something for it.
  lemma WakeupIsArmed(w: World, p: nat, z: Zmq)
    requires Reachable(w) && Pending(w, p) && z.pollIn && z.pollOut
    ensures Enabled(w, Waker(w, p, z))
    ensures TimesSettled(Apply(w, Waker(w, p, z)).log.settled, p) == 1
  {
    ReachableInv(w);
    var e := Waker(w, p, z);
    StepKeeps(w, e);
    var w' := Apply(w, e);
    assert Places(w, p) + Bit(None == Some(p)) == Bit(p < |w.log.issued|);
    assert Places(w', p) + Bit(None == Some(p)) == Bit(p < |w'.log.issued|);
  }

  // A send asks libzmq for events, which consumes the edge of the file descriptor. It looks for a
  // receive that is ready only on its fast path: a ready receive is left with the poller if and only if
  // the send has a timeout and libzmq cannot take it, or it has completed too often.
  lemma ReadyReceiveIsLeftIff(w: World, parts: seq<Frame>, z: Zmq)
    requires SendAllowed(w) && w.reader.ByPoller? && z.pollIn
    ensures Send(w, parts, z).reader == w.reader <==>
              w.sendTimeout != 0 && (!z.pollOut || w.syncOperations >= MAX_SYNC_OPERATIONS)
    ensures Send(w, parts, z).reader == w.reader || Send(w, parts, z).reader == Nobody
  {
  }

  lemma ReadySendIsLeftIff(w: World, z: Zmq)
    requires ReceiveAllowed(w) && w.writer.ByPoller? && z.pollOut
    ensures Receive(w, z).writer == w.writer <==>
              w.receiveTimeout != 0 && (!z.pollIn || w.syncOperations >= MAX_SYNC_OPERATIONS)
    ensures Receive(w, z).writer == w.writer || Receive(w, z).writer == Nobody
  {
  }

  // It happens: a receive without a timeout waits, and a send that libzmq cannot take leaves it with
  // the poller although libzmq said that it is ready.
  lemma ReadyReceiveLeft(parts: seq<Frame>, errno: int)
    ensures var none := Zmq(false, false, 0, errno, NoMessage(errno));
            var es := [ReceiveEvent(none), SendEvent(parts, none.(pollIn := true))];
      && Runs(INITIAL, es)
      && Exec(INITIAL, es).reader == ByPoller(0, [], false) && Exec(INITIAL, es).writer == ByPoller(1, parts, false)
  {
    var none := Zmq(false, false, 0, errno, NoMessage(errno));
    RunOfTwo(INITIAL, ReceiveEvent(none), SendEvent(parts, none.(pollIn := true)));
  }

  // The twin: a send waits, and a receive that has nothing to read leaves it with the poller.
  lemma ReadySendLeft(parts: seq<Frame>, errno: int)
    ensures var none := Zmq(false, false, 0, errno, NoMessage(errno));
            var es := [SendEvent(parts, none), ReceiveEvent(none.(pollOut := true))];
      && Runs(INITIAL, es)
      && Exec(INITIAL, es).writer == ByPoller(0, parts, false) && Exec(INITIAL, es).reader == ByPoller(1, [], false)
  {
    var none := Zmq(false, false, 0, errno, NoMessage(errno));
    RunOfTwo(INITIAL, SendEvent(parts, none), ReceiveEvent(none.(pollOut := true)));
  }

  // No look at libzmq because of the file descriptor or after a delayed callback, and no close().
  predicate Unlooked(es: seq<Event>) {
    forall i :: 0 <= i < |es| ==>
      !es[i].FdReadEvent? && !es[i].FdWriteEvent? && !es[i].CloseEvent?
      && !es[i].DelayedReadTailEvent? && !es[i].DelayedWriteTailEvent?
  }

  // Once both directions wait with the poller without a timer, as in those two runs, nothing else ends
  // the wait, however ready libzmq is: further calls are refused, and a bind or unbind changes nothing.
  lemma {:induction false} OnlyTheDescriptorEndsIt(w: World, es: seq<Event>)
    requires w.reader.ByPoller? && !w.reader.timed && w.writer.ByPoller? && !w.writer.timed && !w.requestClose
    requires Runs(w, es) && Unlooked(es)
    ensures var w' := Exec(w, es); w'.reader == w.reader && w'.writer == w.writer && w'.log.wire == w.log.wire
    decreases |es|
  {
    if es != [] {
      var w1 := Apply(w, es[0]);
      assert w1.reader == w.reader && w1.writer == w.writer && w1.log.wire == w.log.wire && !w1.requestClose by {
        assert !es[0].FdReadEvent? && !es[0].FdWriteEvent? && !es[0].CloseEvent?
            && !es[0].DelayedReadTailEvent? && !es[0].DelayedWriteTailEvent?;
        assert es[0].JobDoneEvent? ==> w1.log.wire == w.log.wire + [];
      }
      OnlyTheDescriptorEndsIt(w1, es[1..]);
    }
  }

  // What libzmq got is the settled sends one after the other, each the first of the parts given at its
  // own call, in order and with their flags, and all of them exactly when its promise resolved.
  lemma WireIsFaithful(w: World, i: nat)
    requires Reachable(w) && i < |w.log.settled|
    ensures w.log.wire == Flat(w.log.settled)
    ensures w.log.settled[i].promise < |w.log.issued|
    ensures match w.log.issued[w.log.settled[i].promise]
            case SendCall(parts) =>
              && FirstParts(w.log.settled[i].sent, parts)
              && (w.log.settled[i].outcome == Resolved <==> |w.log.settled[i].sent| == |parts|)
            case _ => w.log.settled[i].sent == []
  {
    ReachableInv(w);
    assert Faithful(w, w.log.settled[i]);
  }

  // The counter never exceeds 514, so it never wraps. What it means for the event loop is in
  // SocketTurns.dfy.
  lemma SyncOperationsBounded(w: World)
    requires Reachable(w)
    ensures w.syncOperations <= MAX_SYNC_OPERATIONS + Bit(w.reader.ByDelayed?) + Bit(w.writer.ByDelayed?) <= 514
  {
    ReachableInv(w);
  }

  // Closing settles every promise the poller owned; what is left is up to a delayed callback.
  lemma CloseLeavesOnlyDelayed(w: World, z: Zmq, p: nat)
    requires Reachable(w) && w.phase == Open
    ensures var w' := CloseCalled(w, z);
      && w'.phase == Closed && w'.log.zmqCloses == 1 && w'.log.issued == w.log.issued
      && (w.reader.ByPoller? && Owns(w.reader, p) ==> TimesSettled(w'.log.settled, p) == 1)
      && (w.writer.ByPoller? && Owns(w.writer, p) ==> TimesSettled(w'.log.settled, p) == 1)
      && (Pending(w', p) <==> (w.reader.ByDelayed? && Owns(w.reader, p)) || (w.writer.ByDelayed? && Owns(w.writer, p)))
      && |w'.log.settled| == |w.log.settled| + Bit(w.reader.ByPoller?) + Bit(w.writer.ByPoller?)
  {
    ReachableInv(w);
    StepKeeps(w, CloseEvent(z));
    var w' := CloseCalled(w, z);
    assert Places(w, p) + Bit(None == Some(p)) == Bit(p < |w.log.issued|);
    assert Places(w', p) + Bit(None == Some(p)) == Bit(p < |w'.log.issued|);
  }

  function WithoutPoller(o: Owner): Owner {
    if o.ByPoller? then Nobody else o
  }

  lemma FinishedJobShape(w: World, errno: int, z: Zmq)
    requires w.phase == Blocked && w.job.Some? && w.requestClose
    ensures var w' := FinishJob(w, errno, z);
      && w'.phase == Closed && w'.log.zmqCloses == w.log.zmqCloses + 1 && w'.log.issued == w.log.issued
      && w'.job == None && w'.reader == WithoutPoller(w.reader) && w'.writer == WithoutPoller(w.writer)
      && |w'.log.settled| == |w.log.settled| + Bit(w.reader.ByPoller?) + Bit(w.writer.ByPoller?) + 1
  {
  }

  // The same when the completion of a job closes the socket, which also settles the job's promise.
  lemma ClosingJobLeavesOnlyDelayed(w: World, errno: int, z: Zmq, p: nat)
    requires Reachable(w) && w.job.Some? && w.requestClose
    ensures var w' := FinishJob(w, errno, z);
      && w'.phase == Closed && w'.log.zmqCloses == 1 && w'.log.issued == w.log.issued
      && (Pending(w, p) ==>
            (TimesSettled(w'.log.settled, p) == 1 <==>
               || (Owns(w.reader, p) && w.reader.ByPoller?)
               || (Owns(w.writer, p) && w.writer.ByPoller?)
               || w.job == Some(p)))
      && (Pending(w', p) <==> (w.reader.ByDelayed? && Owns(w.reader, p)) || (w.writer.ByDelayed? && Owns(w.writer, p)))
      && |w'.log.settled| == |w.log.settled| + Bit(w.reader.ByPoller?) + Bit(w.writer.ByPoller?) + 1
  {
    ReachableInv(w);
    StepKeeps(w, JobDoneEvent(errno, z));
    FinishedJobShape(w, errno, z);
    var w' := FinishJob(w, errno, z);
    ConservedAt(w, p);
    ConservedAt(w', p);
  }

  lemma ConservedAt(w: World, p: nat)
    requires Inv(w)
    ensures TimesSettled(w.log.settled, p) + Bit(Owns(w.reader, p)) + Bit(Owns(w.writer, p)) + Bit(w.job == Some(p))
         == Bit(p < |w.log.issued|)
  {
    assert Places(w, p) + Bit(None == Some(p)) == Bit(p < |w.log.issued|);
  }

  lemma {:induction false} ClosedIsTerminal(w: World, es: seq<Event>)
    requires Inv(w) && w.phase == Closed && Runs(w, es)
    ensures Exec(w, es).phase == Closed && Exec(w, es).log.zmqCloses == 1 && Exec(w, es).log.wire == w.log.wire
    decreases |es|
  {
    if es != [] {
      StepKeeps(w, es[0]);
      ClosedIsTerminal(Apply(w, es[0]), es[1..]);
    }
  }

  predicate HasClose(es: seq<Event>)
    decreases |es|
  {
    es != [] && (es[0].CloseEvent? || HasClose(es[1..]))
  }

  predicate NoJobDone(es: seq<Event>) {
    forall i :: 0 <= i < |es| ==> !es[i].JobDoneEvent?
  }

  // Until the job completes the socket stays open, whatever else happens and however often it is
  // closed; it remembers whether it was.
  lemma {:induction false} CloseWaitsForJob(w: World, es: seq<Event>)
    requires Inv(w) && w.job.Some? && Runs(w, es) && NoJobDone(es)
    ensures var w' := Exec(w, es);
      && w'.phase == Blocked && w'.log.zmqCloses == 0 && w'.job == w.job
      && w'.requestClose == (w.requestClose || HasClose(es))
    decreases |es|
  {
    if es != [] {
      StepKeeps(w, es[0]);
      CloseWaitsForJob(Apply(w, es[0]), es[1..]);
    }
  }

  // A close() during a bind or unbind takes effect exactly when the job completes, and the socket
  // is closed then only if close() was called.
  lemma CloseTakesEffectAtCompletion(w: World, call: Call, es: seq<Event>, errno: int, z: Zmq)
    requires Reachable(w) && w.phase == Open && (call.BindCall? || call.UnbindCall?)
    requires Runs(StartJob(w, call, true), es) && NoJobDone(es)
    ensures var w1 := Exec(StartJob(w, call, true), es);
      && w1.phase == Blocked && w1.log.zmqCloses == 0 && w1.job == Some(|w.log.issued|)
      && FinishJob(w1, errno, z).phase == (if HasClose(es) then Closed else Open)
      && FinishJob(w1, errno, z).log.zmqCloses == Bit(HasClose(es))
  {
    ReachableInv(w);
    StepKeeps(w, JobEvent(call, true));
    CloseWaitsForJob(StartJob(w, call, true), es);
  }

  lemma {:induction false} StuckStaysStuck(w: World, es: seq<Event>)
    requires Inv(w) && w.phase == Blocked && w.job.None? && Runs(w, es)
    ensures Exec(w, es).phase == Blocked && Exec(w, es).log.zmqCloses == 0
    decreases |es|
  {
    if es != [] {
      StepKeeps(w, es[0]);
      StuckStaysStuck(Apply(w, es[0]), es[1..]);
    }
  }

  // A blocked socket can still be closed by JavaScript if and only if a job is running. When queueing
  // the job failed, bind() and unbind() throw but leave the socket blocked for ever.
  lemma ClosableIffJobRuns(w: World)
    requires Reachable(w) && w.phase == Blocked
    ensures (exists es :: Runs(w, es) && Exec(w, es).phase == Closed) <==> w.job.Some?
  {
    ReachableInv(w);
    if w.job.Some? {
      var z := Zmq(false, false, 0, 0, NoMessage(0));
      RunOfTwo(w, CloseEvent(z), JobDoneEvent(0, z));
    } else {
      forall es | Runs(w, es) ensures Exec(w, es).phase != Closed {
        StuckStaysStuck(w, es);
      }
    }
  }

  lemma RunOfTwo(w: World, e1: Event, e2: Event)
    requires Enabled(w, e1) && Enabled(Apply(w, e1), e2)
    ensures Runs(w, [e1, e2]) && Exec(w, [e1, e2]) == Apply(Apply(w, e1), e2)
  {
    var w1 := Apply(w, e1);
    assert [e1, e2][1..] == [e2] && [e2][1..] == [];
    assert Runs(Apply(w1, e2), []) && Exec(Apply(w1, e2), []) == Apply(w1, e2);
    assert Runs(w1, [e2]) && Exec(w1, [e2]) == Apply(w1, e2);
  }

  // A bind or unbind whose job libuv refuses leaves any open socket blocked for ever.
  lemma FailedQueueBlocksForEver(w: World, call: Call)
    requires Reachable(w) && w.phase == Open && (call.BindCall? || call.UnbindCall?)
    ensures var w' := StartJob(w, call, false);
      && Reachable(w') && w'.job.None?
      && forall es :: Runs(w', es) ==> Exec(w', es).phase == Blocked && Exec(w', es).log.zmqCloses == 0
  {
    var w' := StartJob(w, call, false);
    ReachableInv(w);
    ReachableStep(w, JobEvent(call, false));
    ReachableInv(w');
    forall es | Runs(w', es) ensures Exec(w', es).phase == Blocked && Exec(w', es).log.zmqCloses == 0 {
      StuckStaysStuck(w', es);
    }
  }

  // After bind() or unbind() on an open socket some run closes it if and only if the job was queued.
  lemma ClosableIffQueued(w: World, call: Call, queued: bool)
    requires Reachable(w) && w.phase == Open && (call.BindCall? || call.UnbindCall?)
    ensures var w' := StartJob(w, call, queued);
      (exists es :: Runs(w', es) && Exec(w', es).phase == Closed) <==> queued
  {
    ReachableInv(w);
    ReachableStep(w, JobEvent(call, queued));
    ClosableIffJobRuns(StartJob(w, call, queued));
  }
}
