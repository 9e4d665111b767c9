/** What the version 5 compatibility socket promises, as an abstract state machine.

    Each direction is driven by a pump: a loop started by an event listener that re-arms itself
    when it ends. Here a pump is in exactly one of four places; Compat.dfy proves that the listener
    counts and suspended coroutines of the real socket amount to that. User callbacks and event
    listeners are assumed not to throw. */
module CompatSpec {
  import opened Common

  const EBUSY: int := 16

  type Msg = seq<Frame>

  // A finished message waiting to be sent, and the callback to call afterwards.
  datatype Queued = Queued(msg: Msg, callback: Option<nat>)

  // One call of send().
  datatype Submit = Submit(parts: Msg, more: bool, callback: Option<nat>)

  datatype Finished = Finished(item: Queued, error: Option<int>)

  // What the user hears about a finished message.
  datatype Notice = Called(callback: nat, error: Option<int>) | ErrorEvent(code: int)

  // What is scheduled with process.nextTick().
  datatype Tick = Deliver(msg: Msg) | Complain(code: int)

  datatype RecvPump = RecvArmed | RecvWaiting | RecvBetween | RecvGone

  datatype SendPump = SendArmed | SendWaiting(item: Queued) | SendBetween | SendGone

  // A native send() or receive() returns a promise or throws at once.
  datatype Start = Pending | Throws(code: int)

  datatype RecvResult = Got(msg: Msg) | Failed(code: int)

  datatype State = State(
    canRecv: bool,
    canSend: bool,
    closed: bool,
    paused: bool,
    msg: Msg,
    recvQueue: seq<Msg>,
    sendQueue: seq<Queued>,
    recvPump: RecvPump,
    sendPump: SendPump,
    ticks: seq<Tick>,
    log: Log)

  // History: events emitted, messages received natively, calls of send(), messages that were
  // attempted, and what the user was told about them.
  datatype Log = Log(
    emitted: seq<Tick>,
    received: seq<Msg>,
    submitted: seq<Submit>,
    finished: seq<Finished>,
    notices: seq<Notice>)

  // ----- steps ---------------------------------------------------------------------------------

  function Complained(s: State, code: int): State {
    if !s.closed && code != EBUSY then s.(ticks := s.ticks + [Complain(code)]) else s
  }

  // A message that was held back goes out.
  function Released(s: State): State {
    if s.recvQueue == [] then s
    else s.(recvQueue := s.recvQueue[1..], ticks := s.ticks + [Deliver(s.recvQueue[0])])
  }

  // The first half of _recv(): what was held back goes out before the next message is asked for.
  function StartReceive(s: State, o: Start): State {
    var s1 := Released(s);
    match o
    case Pending => s1.(recvPump := RecvWaiting)
    case Throws(code) => Complained(s1, code).(recvPump := RecvBetween)
  }

  // The loop condition of the receive pump and what follows the loop.
  function RecvLoop(s: State, o: Start): State {
    if !s.closed && !s.paused then StartReceive(s, o)
    else s.(recvPump := if s.closed then RecvGone else RecvArmed)
  }

  function FlushRecv(s: State, o: Start): State {
    if s.recvPump == RecvArmed then RecvLoop(s, o) else s
  }

  function Receive(s: State, r: RecvResult): State {
    match r
    case Got(m) =>
      var s1 := s.(recvPump := RecvBetween, log := s.log.(received := s.log.received + [m]));
      if s.paused then s1.(recvQueue := s.recvQueue + [m]) else s1.(ticks := s.ticks + [Deliver(m)])
    case Failed(code) => Complained(s, code).(recvPump := RecvBetween)
  }

  function NoticeOf(f: Finished): seq<Notice> {
    match f.item.callback
    case Some(c) => [Called(c, f.error)]
    case None => if f.error.Some? then [ErrorEvent(f.error.value)] else []
  }

  function Finish(s: State, f: Finished): State {
    s.(sendPump := SendBetween,
       log := s.log.(finished := s.log.finished + [f], notices := s.log.notices + NoticeOf(f)))
  }

  function StartSend(s: State, o: Start): State
    requires s.sendQueue != []
  {
    var s1 := s.(sendQueue := s.sendQueue[1..]);
    match o
    case Pending => s1.(sendPump := SendWaiting(s.sendQueue[0]))
    case Throws(code) => Finish(s1, Finished(s.sendQueue[0], Some(code)))
  }

  // The send pump. On a socket that cannot send, _send() throws before it takes anything from the
  // queue; the pump ends and is never armed again.
  function SendLoop(s: State, o: Start): State {
    if !s.closed && !s.paused && s.sendQueue != [] then
      if s.canSend then StartSend(s, o) else s.(sendPump := SendGone)
    else s.(sendPump := if s.closed then SendGone else SendArmed)
  }

  function FlushSend(s: State, o: Start): State {
    if s.sendPump == SendArmed then SendLoop(s, o) else s
  }

  function Submitted(s: State, c: Submit): State {
    var s1 := s.(log := s.log.(submitted := s.log.submitted + [c]));
    if c.more then s1.(msg := s.msg + c.parts)
    else s1.(msg := [], sendQueue := s.sendQueue + [Queued(s.msg + c.parts, c.callback)])
  }

  function Send(s: State, c: Submit, o: Start): State {
    var s1 := Submitted(s, c);
    if !c.more && !s.paused then FlushSend(s1, o) else s1
  }

  function Resume(s: State, o1: Start, o2: Start): State {
    FlushSend(FlushRecv(s.(paused := false), o1), o2)
  }

  function Fresh(canRecv: bool, canSend: bool): State {
    State(canRecv, canSend, false, false, [], [], [], if canRecv then RecvArmed else RecvGone, SendArmed, [],
          Log([], [], [], [], []))
  }

  // A new socket: the constructor ends by starting the receive pump.
  function New(canRecv: bool, canSend: bool, o: Start): State {
    FlushRecv(Fresh(canRecv, canSend), o)
  }

  datatype Event =
    | SendEvent(call: Submit, o: Start)
    | PauseEvent
    | ResumeEvent(o1: Start, o2: Start)
    | ClosedEvent                          // the native socket becomes closed
    | ReceivedEvent(r: RecvResult)         // a native receive() settles
    | RecvResumeEvent(o: Start)            // the receive pump continues after _recv()
    | SentEvent(error: Option<int>)        // a native send() settles
    | SendResumeEvent(o: Start)            // the send pump continues after _send()
    | TickEvent                            // process.nextTick() runs one entry

  predicate Enabled(s: State, e: Event) {
    match e
    case ReceivedEvent(_) => s.recvPump == RecvWaiting
    case RecvResumeEvent(_) => s.recvPump == RecvBetween
    case SentEvent(_) => s.sendPump.SendWaiting?
    case SendResumeEvent(_) => s.sendPump == SendBetween
    case TickEvent => s.ticks != []
    case _ => true
  }

  function Apply(s: State, e: Event): State
    requires Enabled(s, e)
  {
    match e
    case SendEvent(call, o) => Send(s, call, o)
    case PauseEvent => s.(paused := true)
    case ResumeEvent(o1, o2) => Resume(s, o1, o2)
    case ClosedEvent => s.(closed := true)
    case ReceivedEvent(r) => Receive(s, r)
    case RecvResumeEvent(o) => RecvLoop(s, o)
    case SentEvent(error) => Finish(s, Finished(s.sendPump.item, error))
    case SendResumeEvent(o) => SendLoop(s, o)
    case TickEvent => s.(ticks := s.ticks[1..], log := s.log.(emitted := s.log.emitted + [s.ticks[0]]))
  }

  predicate Runs(s: State, es: seq<Event>)
    decreases |es|
  {
    es == [] || (Enabled(s, es[0]) && Runs(Apply(s, es[0]), es[1..]))
  }

  function Exec(s: State, es: seq<Event>): State
    requires Runs(s, es)
    decreases |es|
  {
    if es == [] then s else Exec(Apply(s, es[0]), es[1..])
  }

  // ----- what the calls of send() amount to ------------------------------------------------------

  // The parts after the last call without ZMQ_SNDMORE.
  function OpenParts(calls: seq<Submit>): Msg {
    if calls == [] then []
    else
      var last := calls[|calls| - 1];
      if last.more then OpenParts(calls[..|calls| - 1]) + last.parts else []
  }

  // The messages those calls make: each ends at a call without ZMQ_SNDMORE.
  function Messages(calls: seq<Submit>): seq<Queued> {
    if calls == [] then []
    else
      var last := calls[|calls| - 1];
      var before := calls[..|calls| - 1];
      if last.more then Messages(before)
      else Messages(before) + [Queued(OpenParts(before) + last.parts, last.callback)]
  }

  function Delivered(ts: seq<Tick>): seq<Msg> {
    if ts == [] then []
    else
      var before := Delivered(ts[..|ts| - 1]);
      match ts[|ts| - 1]
      case Deliver(m) => before + [m]
      case Complain(_) => before
  }

  function Items(fs: seq<Finished>): seq<Queued> {
    seq(|fs|, i requires 0 <= i < |fs| => fs[i].item)
  }

  function NoticesOf(fs: seq<Finished>): seq<Notice> {
    if fs == [] then [] else NoticesOf(fs[..|fs| - 1]) + NoticeOf(fs[|fs| - 1])
  }

  function InFlight(p: SendPump): seq<Queued> {
    if p.SendWaiting? then [p.item] else []
  }

  // ----- the invariant -------------------------------------------------------------------------

  // What was emitted, is scheduled and is held back is what came in, in that order.
  ghost predicate InOrder(emitted: seq<Tick>, ticks: seq<Tick>, held: seq<Msg>, received: seq<Msg>) {
    Delivered(emitted) + Delivered(ticks) + held == received
  }

  ghost predicate ReceivesInOrder(s: State) {
    && InOrder(s.log.emitted, s.ticks, s.recvQueue, s.log.received)
    && |s.recvQueue| <= 1
    && (s.recvPump == RecvWaiting ==> s.recvQueue == [])
  }

  predicate RecvPumpAlive(s: State) {
    && (s.recvPump == RecvArmed ==> s.closed || s.paused)
    && (s.recvPump == RecvGone ==> s.closed || !s.canRecv)
    && (!s.canRecv ==> s.recvPump == RecvGone)
  }

  predicate SendPumpAlive(s: State) {
    && (s.sendPump == SendArmed ==> s.closed || s.paused || s.sendQueue == [])
    && (s.sendPump == SendGone ==> s.closed || !s.canSend)
    && (!s.canSend ==> s.sendPump == SendArmed || s.sendPump == SendGone)
  }

  // What was finished, is in flight and is queued is what send() was given, in that order.
  ghost predicate Conserved(finished: seq<Finished>, flying: seq<Queued>, queue: seq<Queued>, submitted: seq<Submit>) {
    Items(finished) + flying + queue == Messages(submitted)
  }

  ghost predicate SendsConserved(s: State) {
    && Conserved(s.log.finished, InFlight(s.sendPump), s.sendQueue, s.log.submitted)
    && s.msg == OpenParts(s.log.submitted)
    && s.log.notices == NoticesOf(s.log.finished)
  }

  ghost predicate Inv(s: State) {
    ReceivesInOrder(s) && RecvPumpAlive(s) && SendPumpAlive(s) && SendsConserved(s)
  }

  // ----- the receiving side ----------------------------------------------------------------------

  lemma AppendTick(ts: seq<Tick>, t: Tick)
    ensures Delivered(ts + [t]) == Delivered(ts) + (if t.Deliver? then [t.msg] else [])
  {
    assert (ts + [t])[..|ts|] == ts;
  }

  lemma {:induction false} ShiftTick(ts: seq<Tick>)
    requires ts != []
    ensures Delivered(ts) == (if ts[0].Deliver? then [ts[0].msg] else []) + Delivered(ts[1..])
  {
    var n := |ts| - 1;
    if n > 0 {
      ShiftTick(ts[..n]);
      assert ts[..n][1..] == ts[1..][..n - 1];
      assert ts[1..][n - 1] == ts[n];
    } else {
      assert ts[..0] == [] && ts[1..] == [];
    }
  }

  lemma ReleaseHeld(e: seq<Tick>, ts: seq<Tick>, held: seq<Msg>, received: seq<Msg>)
    requires InOrder(e, ts, held, received) && held != []
    ensures InOrder(e, ts + [Deliver(held[0])], held[1..], received)
  {
    AppendTick(ts, Deliver(held[0]));
    var a, b, m, rest := Delivered(e), Delivered(ts), held[0], held[1..];
    assert held == [m] + rest;
    assert a + b + ([m] + rest) == a + (b + [m]) + rest;
  }

  lemma AddComplaint(e: seq<Tick>, ts: seq<Tick>, held: seq<Msg>, received: seq<Msg>, code: int)
    requires InOrder(e, ts, held, received)
    ensures InOrder(e, ts + [Complain(code)], held, received)
  {
    AppendTick(ts, Complain(code));
    assert Delivered(ts) + [] == Delivered(ts);
  }

  lemma HoldBack(e: seq<Tick>, ts: seq<Tick>, held: seq<Msg>, received: seq<Msg>, m: Msg)
    requires InOrder(e, ts, held, received)
    ensures InOrder(e, ts, held + [m], received + [m])
  {
  }

  lemma Schedule(e: seq<Tick>, ts: seq<Tick>, received: seq<Msg>, m: Msg)
    requires InOrder(e, ts, [], received)
    ensures InOrder(e, ts + [Deliver(m)], [], received + [m])
  {
    AppendTick(ts, Deliver(m));
    var a, b := Delivered(e), Delivered(ts);
    assert a + b + [] == a + b;
    assert a + (b + [m]) + [] == (a + b) + [m];
  }

  lemma RunTick(e: seq<Tick>, ts: seq<Tick>, held: seq<Msg>, received: seq<Msg>)
    requires InOrder(e, ts, held, received) && ts != []
    ensures InOrder(e + [ts[0]], ts[1..], held, received)
  {
    ShiftTick(ts);
    AppendTick(e, ts[0]);
    var a, b := Delivered(e), Delivered(ts[1..]);
    var m := if ts[0].Deliver? then [ts[0].msg] else [];
    assert a + (m + b) == (a + m) + b;
  }

  lemma ReleasedKeeps(s: State)
    requires ReceivesInOrder(s)
    ensures ReceivesInOrder(Released(s)) && Released(s).recvQueue == []
  {
    if s.recvQueue != [] {
      ReleaseHeld(s.log.emitted, s.ticks, s.recvQueue, s.log.received);
    }
  }

  lemma ComplainedKeeps(s: State, code: int)
    requires ReceivesInOrder(s)
    ensures ReceivesInOrder(Complained(s, code).(recvPump := RecvBetween))
  {
    AddComplaint(s.log.emitted, s.ticks, s.recvQueue, s.log.received, code);
  }

  lemma StartReceiveKeeps(s: State, o: Start)
    requires ReceivesInOrder(s)
    ensures ReceivesInOrder(StartReceive(s, o))
  {
    ReleasedKeeps(s);
    if o.Throws? {
      ComplainedKeeps(Released(s), o.code);
    }
  }

  lemma ReceiveKeeps(s: State, r: RecvResult)
    requires ReceivesInOrder(s) && s.recvPump == RecvWaiting
    ensures ReceivesInOrder(Receive(s, r))
  {
    match r
    case Got(m) =>
      HoldBack(s.log.emitted, s.ticks, s.recvQueue, s.log.received, m);
      Schedule(s.log.emitted, s.ticks, s.log.received, m);
    case Failed(code) => ComplainedKeeps(s, code);
  }

  // What the receiving side consists of; nothing else can change it.
  predicate SameRecvSide(s: State, t: State) {
    && s.recvQueue == t.recvQueue && s.recvPump == t.recvPump && s.ticks == t.ticks
    && s.log.emitted == t.log.emitted && s.log.received == t.log.received
  }

  lemma SendLoopLeavesReceives(s: State, o: Start)
    ensures SameRecvSide(s, SendLoop(s, o)) && SameRecvSide(s, FlushSend(s, o))
  {
  }

  lemma ResumeKeepsOrder(s: State, o1: Start, o2: Start)
    requires ReceivesInOrder(s)
    ensures ReceivesInOrder(Resume(s, o1, o2))
  {
    var s1 := s.(paused := false);
    StartReceiveKeeps(s1, o1);
    SendLoopLeavesReceives(FlushRecv(s1, o1), o2);
  }

  lemma RecvSideKeeps(s: State, e: Event)
    requires ReceivesInOrder(s) && Enabled(s, e)
    ensures ReceivesInOrder(Apply(s, e))
  {
    match e
    case SendEvent(call, o) => SendLoopLeavesReceives(Submitted(s, call), o);
    case ResumeEvent(o1, o2) => ResumeKeepsOrder(s, o1, o2);
    case ReceivedEvent(r) => ReceiveKeeps(s, r);
    case RecvResumeEvent(o) => StartReceiveKeeps(s, o);
    case SendResumeEvent(o) => SendLoopLeavesReceives(s, o);
    case TickEvent => RunTick(s.log.emitted, s.ticks, s.recvQueue, s.log.received);
    case _ =>
  }

  // ----- the sending side --------------------------------------------------------------------------

  lemma AppendFinished(fs: seq<Finished>, f: Finished)
    ensures Items(fs + [f]) == Items(fs) + [f.item]
    ensures NoticesOf(fs + [f]) == NoticesOf(fs) + NoticeOf(f)
  {
    assert (fs + [f])[..|fs|] == fs;
  }

  // The message a further call completes, if any.
  function Completed(calls: seq<Submit>, c: Submit): seq<Queued> {
    if c.more then [] else [Queued(OpenParts(calls) + c.parts, c.callback)]
  }

  lemma AppendSubmit(calls: seq<Submit>, c: Submit)
    ensures OpenParts(calls + [c]) == if c.more then OpenParts(calls) + c.parts else []
    ensures Messages(calls + [c]) == Messages(calls) + Completed(calls, c)
  {
    assert (calls + [c])[..|calls|] == calls;
  }

  lemma TakeOff(fs: seq<Finished>, queue: seq<Queued>, calls: seq<Submit>)
    requires Conserved(fs, [], queue, calls) && queue != []
    ensures Conserved(fs, [queue[0]], queue[1..], calls)
  {
    var a, q, rest := Items(fs), queue[0], queue[1..];
    assert queue == [q] + rest;
    assert a + [] + ([q] + rest) == a + [q] + rest;
  }

  lemma Land(fs: seq<Finished>, f: Finished, queue: seq<Queued>, calls: seq<Submit>)
    requires Conserved(fs, [f.item], queue, calls)
    ensures Conserved(fs + [f], [], queue, calls)
  {
    AppendFinished(fs, f);
    var a := Items(fs);
    assert (a + [f.item]) + [] + queue == a + [f.item] + queue;
  }

  lemma Enqueue(fs: seq<Finished>, flying: seq<Queued>, queue: seq<Queued>, calls: seq<Submit>, c: Submit)
    requires Conserved(fs, flying, queue, calls)
    ensures Conserved(fs, flying, queue + Completed(calls, c), calls + [c])
  {
    AppendSubmit(calls, c);
    var a := Items(fs) + flying;
    var q := Completed(calls, c);
    assert a + (queue + q) == (a + queue) + q;
  }

  lemma FinishKeeps(s: State, f: Finished)
    requires Conserved(s.log.finished, [f.item], s.sendQueue, s.log.submitted)
    requires s.msg == OpenParts(s.log.submitted) && s.log.notices == NoticesOf(s.log.finished)
    ensures SendsConserved(Finish(s, f))
  {
    Land(s.log.finished, f, s.sendQueue, s.log.submitted);
    AppendFinished(s.log.finished, f);
  }

  lemma StartSendKeeps(s: State, o: Start)
    requires SendsConserved(s) && s.sendQueue != [] && !s.sendPump.SendWaiting?
    ensures SendsConserved(StartSend(s, o))
  {
    TakeOff(s.log.finished, s.sendQueue, s.log.submitted);
    if o.Throws? {
      FinishKeeps(s.(sendQueue := s.sendQueue[1..]), Finished(s.sendQueue[0], Some(o.code)));
    }
  }

  lemma SendLoopKeeps(s: State, o: Start)
    requires SendsConserved(s) && !s.sendPump.SendWaiting?
    ensures SendsConserved(SendLoop(s, o))
  {
    if s.sendQueue != [] {
      StartSendKeeps(s, o);
    }
  }

  lemma SubmittedKeeps(s: State, c: Submit)
    requires SendsConserved(s)
    ensures SendsConserved(Submitted(s, c))
  {
    AppendSubmit(s.log.submitted, c);
    Enqueue(s.log.finished, InFlight(s.sendPump), s.sendQueue, s.log.submitted, c);
    assert s.sendQueue + [] == s.sendQueue;
  }

  // What the sending side consists of; nothing else can change it.
  predicate SameSendSide(s: State, t: State) {
    && s.msg == t.msg && s.sendQueue == t.sendQueue && s.sendPump == t.sendPump
    && s.log.submitted == t.log.submitted && s.log.finished == t.log.finished && s.log.notices == t.log.notices
  }

  lemma FlushRecvLeavesSends(s: State, o: Start)
    ensures SameSendSide(s, FlushRecv(s, o)) && SameSendSide(s, RecvLoop(s, o))
  {
  }

  lemma OthersLeaveSends(s: State, e: Event)
    requires Enabled(s, e) && (e.PauseEvent? || e.ClosedEvent? || e.ReceivedEvent? || e.TickEvent?)
    ensures SameSendSide(s, Apply(s, e))
  {
  }

  lemma ResumeKeepsSends(s: State, o1: Start, o2: Start)
    requires SendsConserved(s)
    ensures SendsConserved(Resume(s, o1, o2))
  {
    var s1 := FlushRecv(s.(paused := false), o1);
    FlushRecvLeavesSends(s.(paused := false), o1);
    if !s1.sendPump.SendWaiting? {
      SendLoopKeeps(s1, o2);
    }
  }

  lemma SendKeeps(s: State, call: Submit, o: Start)
    requires SendsConserved(s)
    ensures SendsConserved(Send(s, call, o))
  {
    SubmittedKeeps(s, call);
    if !s.sendPump.SendWaiting? {
      SendLoopKeeps(Submitted(s, call), o);
    }
  }

  lemma SendSideKeeps(s: State, e: Event)
    requires SendsConserved(s) && Enabled(s, e)
    ensures SendsConserved(Apply(s, e))
  {
    match e
    case SendEvent(call, o) =>
      SendKeeps(s, call, o);
    case ResumeEvent(o1, o2) =>
      ResumeKeepsSends(s, o1, o2);
    case SentEvent(error) => FinishKeeps(s, Finished(s.sendPump.item, error));
    case SendResumeEvent(o) => SendLoopKeeps(s, o);
    case RecvResumeEvent(o) => FlushRecvLeavesSends(s, o);
    case _ => OthersLeaveSends(s, e);
  }

  // ----- every step keeps the invariant ------------------------------------------------------------

  lemma RecvPumpStaysAlive(s: State, e: Event)
    requires RecvPumpAlive(s) && Enabled(s, e)
    ensures RecvPumpAlive(Apply(s, e))
  {
  }

  lemma SendLoopAlive(s: State, o: Start)
    requires s.canSend || !SendRunning(s)
    ensures SendPumpAlive(SendLoop(s, o))
  {
  }

  lemma SendPumpStaysAlive(s: State, e: Event)
    requires SendPumpAlive(s) && Enabled(s, e)
    ensures SendPumpAlive(Apply(s, e))
  {
    match e
    case SendEvent(call, o) => SendAlive(s, call, o);
    case ResumeEvent(o1, o2) => ResumeAlive(s, o1, o2);
    case SendResumeEvent(o) => SendLoopAlive(s, o);
    case _ => OtherSendAlive(s, e);
  }

  lemma SendAlive(s: State, call: Submit, o: Start)
    requires SendPumpAlive(s)
    ensures SendPumpAlive(Send(s, call, o))
  {
    SendLoopAlive(Submitted(s, call), o);
  }

  lemma ResumeAlive(s: State, o1: Start, o2: Start)
    requires SendPumpAlive(s)
    ensures SendPumpAlive(Resume(s, o1, o2))
  {
    SendLoopAlive(FlushRecv(s.(paused := false), o1), o2);
  }

  lemma OtherSendAlive(s: State, e: Event)
    requires SendPumpAlive(s) && Enabled(s, e) && !e.SendEvent? && !e.ResumeEvent? && !e.SendResumeEvent?
    ensures SendPumpAlive(Apply(s, e))
  {
  }

  lemma StepKeeps(s: State, e: Event)
    requires Inv(s) && Enabled(s, e)
    ensures Inv(Apply(s, e))
  {
    RecvSideKeeps(s, e);
    RecvPumpStaysAlive(s, e);
    SendPumpStaysAlive(s, e);
    SendSideKeeps(s, e);
  }

  lemma FreshOrder(canRecv: bool, canSend: bool)
    ensures ReceivesInOrder(Fresh(canRecv, canSend))
  {
    assert Delivered([]) == [];
  }

  lemma FreshSends(canRecv: bool, canSend: bool)
    ensures SendsConserved(Fresh(canRecv, canSend))
  {
    assert Items([]) == [] && Messages([]) == [];
  }

  lemma NewKeeps(canRecv: bool, canSend: bool, o: Start)
    ensures Inv(New(canRecv, canSend, o))
  {
    var s := Fresh(canRecv, canSend);
    FreshOrder(canRecv, canSend);
    FreshSends(canRecv, canSend);
    StartReceiveKeeps(s, o);
    FlushRecvLeavesSends(s, o);
    NewPumps(canRecv, canSend, o);
  }

  lemma NewPumps(canRecv: bool, canSend: bool, o: Start)
    ensures RecvPumpAlive(New(canRecv, canSend, o)) && SendPumpAlive(New(canRecv, canSend, o))
  {
  }

  lemma {:induction false} RunKeeps(s: State, es: seq<Event>)
    requires Inv(s) && Runs(s, es)
    ensures Inv(Exec(s, es))
    decreases |es|
  {
    if es != [] {
      StepKeeps(s, es[0]);
      RunKeeps(Apply(s, es[0]), es[1..]);
    }
  }

  // ----- what holds after any run of a new socket --------------------------------------------------

  ghost predicate Reachable(s: State) {
    exists canRecv, canSend, o, es :: RunReaches(New(canRecv, canSend, o), es, s)
  }

  predicate RunReaches(s0: State, es: seq<Event>, s: State) {
    Runs(s0, es) && Exec(s0, es) == s
  }

  lemma ReachableInv(s: State)
    requires Reachable(s)
    ensures Inv(s)
  {
    var canRecv, canSend, o, es :| RunReaches(New(canRecv, canSend, o), es, s);
    NewKeeps(canRecv, canSend, o);
    RunKeeps(New(canRecv, canSend, o), es);
  }

  predicate RecvRunning(s: State) {
    s.recvPump == RecvWaiting || s.recvPump == RecvBetween
  }

  predicate SendRunning(s: State) {
    s.sendPump.SendWaiting? || s.sendPump == SendBetween
  }

  // No lost wakeup: while an open socket is not paused, its receive pump runs.
  lemma ReceivePumpRuns(s: State)
    requires Reachable(s) && !s.closed && !s.paused
    ensures RecvRunning(s) <==> s.canRecv
  {
    ReachableInv(s);
  }

  // No lost wakeup: a message in the queue of an open socket that is not paused will be sent, if and
  // only if the type of the socket can send at all.
  lemma SendPumpRuns(s: State)
    requires Reachable(s) && !s.closed && !s.paused && s.sendQueue != []
    ensures SendRunning(s) <==> s.canSend
  {
    ReachableInv(s);
  }

  // A paused or idle socket can be started again: its listeners are armed.
  lemma IdlePumpsAreArmed(s: State)
    requires Reachable(s) && !s.closed
    ensures s.canRecv && !RecvRunning(s) ==> s.recvPump == RecvArmed && s.paused
    ensures s.canSend && !SendRunning(s) ==> s.sendPump == SendArmed && (s.paused || s.sendQueue == [])
  {
    ReachableInv(s);
  }

  // Messages are emitted in the order they came in, none twice and none lost, whatever the pauses.
  lemma ReceiveOrder(s: State)
    requires Reachable(s)
    ensures Delivered(s.log.emitted) + Delivered(s.ticks) + s.recvQueue == s.log.received
    ensures |s.recvQueue| <= 1
  {
    ReachableInv(s);
  }

  // Parts of several messages, one after the other.
  function AllParts(qs: seq<Queued>): Msg {
    if qs == [] then [] else AllParts(qs[..|qs| - 1]) + qs[|qs| - 1].msg
  }

  function SubmittedParts(calls: seq<Submit>): Msg {
    if calls == [] then [] else SubmittedParts(calls[..|calls| - 1]) + calls[|calls| - 1].parts
  }

  lemma {:induction false} MessagesHoldAllParts(calls: seq<Submit>)
    ensures AllParts(Messages(calls)) + OpenParts(calls) == SubmittedParts(calls)
  {
    if calls != [] {
      var n := |calls| - 1;
      var before, last := calls[..n], calls[n];
      MessagesHoldAllParts(before);
      var a, b := AllParts(Messages(before)), OpenParts(before);
      if !last.more {
        var ms := Messages(before);
        var q := Queued(b + last.parts, last.callback);
        assert (ms + [q])[..|ms|] == ms;
        assert AllParts(ms + [q]) == a + (b + last.parts);
      }
      assert a + (b + last.parts) == (a + b) + last.parts;
    }
  }

  // The messages attempted, in flight and queued are those that send() was given, in order and with
  // the boundaries it was given; together with the open message they hold exactly its parts.
  lemma SendConservation(s: State)
    requires Reachable(s)
    ensures Items(s.log.finished) + InFlight(s.sendPump) + s.sendQueue == Messages(s.log.submitted)
    ensures AllParts(Items(s.log.finished) + InFlight(s.sendPump) + s.sendQueue) + s.msg
         == SubmittedParts(s.log.submitted)
  {
    ReachableInv(s);
    MessagesHoldAllParts(s.log.submitted);
  }

  // How often callback c was called.
  function TimesCalled(ns: seq<Notice>, c: nat): nat {
    if ns == [] then 0 else TimesCalled(ns[..|ns| - 1], c) + Bit(ns[|ns| - 1].Called? && ns[|ns| - 1].callback == c)
  }

  function TimesFinished(fs: seq<Finished>, c: nat): nat {
    if fs == [] then 0 else TimesFinished(fs[..|fs| - 1], c) + Bit(fs[|fs| - 1].item.callback == Some(c))
  }

  lemma AppendNotice(ns: seq<Notice>, f: Finished, c: nat)
    ensures TimesCalled(ns + NoticeOf(f), c) == TimesCalled(ns, c) + Bit(f.item.callback == Some(c))
  {
    var x := NoticeOf(f);
    if x == [] {
      assert ns + x == ns;
    } else {
      var all := ns + [x[0]];
      assert ns + x == all && all[..|ns|] == ns && all[|ns|] == x[0];
      assert TimesCalled(all, c) == TimesCalled(ns, c) + Bit(x[0].Called? && x[0].callback == c);
    }
  }

  lemma {:induction false} CalledOncePerMessage(fs: seq<Finished>, c: nat)
    ensures TimesCalled(NoticesOf(fs), c) == TimesFinished(fs, c)
  {
    if fs != [] {
      var n := |fs| - 1;
      CalledOncePerMessage(fs[..n], c);
      AppendNotice(NoticesOf(fs[..n]), fs[n], c);
    }
  }

  // A callback is called exactly as often as messages that carry it were finished.
  lemma CallbacksCalledOnce(s: State, c: nat)
    requires Reachable(s)
    ensures TimesCalled(s.log.notices, c) == TimesFinished(s.log.finished, c)
  {
    ReachableInv(s);
    CalledOncePerMessage(s.log.finished, c);
  }

  // How many of some messages carry callback c.
  function TimesCarried(qs: seq<Queued>, c: nat): nat {
    if qs == [] then 0 else TimesCarried(qs[..|qs| - 1], c) + Bit(qs[|qs| - 1].callback == Some(c))
  }

  lemma {:induction false} CarriedJoin(a: seq<Queued>, b: seq<Queued>, c: nat)
    ensures TimesCarried(a + b, c) == TimesCarried(a, c) + TimesCarried(b, c)
  {
    if b == [] {
      assert a + b == a;
    } else {
      var n := |b| - 1;
      CarriedJoin(a, b[..n], c);
      assert (a + b)[..|a| + n] == a + b[..n];
    }
  }

  lemma {:induction false} FinishedCarry(fs: seq<Finished>, c: nat)
    ensures TimesFinished(fs, c) == TimesCarried(Items(fs), c)
  {
    if fs != [] {
      var n := |fs| - 1;
      FinishedCarry(fs[..n], c);
      assert Items(fs)[..n] == Items(fs[..n]);
    }
  }

  // Every callback that send() was given with a finished message was called, or is still with its
  // message in flight or in the queue: called once for each, never twice, never dropped.
  lemma CallbackConservation(s: State, c: nat)
    requires Reachable(s)
    ensures TimesCalled(s.log.notices, c) + TimesCarried(InFlight(s.sendPump) + s.sendQueue, c)
         == TimesCarried(Messages(s.log.submitted), c)
  {
    SendConservation(s);
    CallbacksCalledOnce(s, c);
    FinishedCarry(s.log.finished, c);
    var a, b, d := Items(s.log.finished), InFlight(s.sendPump), s.sendQueue;
    assert a + b + d == a + (b + d);
    CarriedJoin(a, b + d, c);
  }
}
