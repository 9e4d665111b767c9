/** What the user of a compatibility socket is told and when: a paused socket stands still, every finished
    message reports its own error, and a failed receive is emitted unless it does not concern the user. */
module CompatAnswers {
  import opened Common
  import opened CompatSpec

  // ----- pause ------------------------------------------------------------------------------------------

  predicate NoResume(es: seq<Event>) {
    forall i :: 0 <= i < |es| ==> !es[i].ResumeEvent?
  }

  // How many native receives and sends settle in a run.
  function ReceivesSettled(es: seq<Event>): nat {
    if es == [] then 0 else Bit(es[0].ReceivedEvent?) + ReceivesSettled(es[1..])
  }

  function SendsSettled(es: seq<Event>): nat {
    if es == [] then 0 else Bit(es[0].SentEvent?) + SendsSettled(es[1..])
  }

  // From s to t nothing new is delivered and what comes in is held back.
  ghost predicate HoldsBack(s: State, t: State) {
    && Delivered(t.log.emitted) + Delivered(t.ticks) == Delivered(s.log.emitted) + Delivered(s.ticks)
    && s.log.received <= t.log.received
    && t.recvQueue == s.recvQueue + t.log.received[|s.log.received|..]
  }

  // From s to t nothing leaves the queue; at most what was in flight is finished.
  ghost predicate Queues(s: State, t: State) {
    && s.sendQueue <= t.sendQueue
    && s.log.finished <= t.log.finished
    && Items(t.log.finished[|s.log.finished|..]) + InFlight(t.sendPump) == InFlight(s.sendPump)
  }

  lemma EmitKeeps(s: State)
    requires s.ticks != []
    ensures var t := Apply(s, TickEvent);
      Delivered(t.log.emitted) + Delivered(t.ticks) == Delivered(s.log.emitted) + Delivered(s.ticks)
  {
    ShiftTick(s.ticks);
    AppendTick(s.log.emitted, s.ticks[0]);
    var a, b := Delivered(s.log.emitted), Delivered(s.ticks[1..]);
    var m := if s.ticks[0].Deliver? then [s.ticks[0].msg] else [];
    assert a + (m + b) == (a + m) + b;
  }

  lemma PausedStepHolds(s: State, e: Event)
    requires s.paused && Enabled(s, e) && !e.ResumeEvent?
    ensures Apply(s, e).paused && HoldsBack(s, Apply(s, e))
    ensures Bit(e.ReceivedEvent?) + Bit(Apply(s, e).recvPump == RecvWaiting) == Bit(s.recvPump == RecvWaiting)
  {
    match e
    case TickEvent => EmitKeeps(s);
    case ReceivedEvent(r) =>
      if r.Failed? {
        AppendTick(s.ticks, Complain(r.code));
      }
    case _ =>
  }

  lemma PausedStepQueues(s: State, e: Event)
    requires s.paused && Enabled(s, e) && !e.ResumeEvent?
    ensures Queues(s, Apply(s, e))
    ensures Bit(e.SentEvent?) + Bit(Apply(s, e).sendPump.SendWaiting?) == Bit(s.sendPump.SendWaiting?)
  {
    var t := Apply(s, e);
    if e.SentEvent? {
      assert t.log.finished[|s.log.finished|..] == [Finished(s.sendPump.item, e.error)];
    } else {
      assert t.log.finished == s.log.finished && t.log.finished[|s.log.finished|..] == [];
    }
  }

  // From s to t so many native receives and sends settled, and none was started.
  ghost predicate StoodStill(s: State, t: State, receives: nat, sends: nat) {
    && t.paused && HoldsBack(s, t) && Queues(s, t)
    && receives + Bit(t.recvPump == RecvWaiting) == Bit(s.recvPump == RecvWaiting)
    && sends + Bit(t.sendPump.SendWaiting?) == Bit(s.sendPump.SendWaiting?)
  }

  lemma HoldsJoin(s: State, s1: State, t: State)
    requires HoldsBack(s, s1) && HoldsBack(s1, t)
    ensures HoldsBack(s, t)
  {
    var a, b := s1.log.received[|s.log.received|..], t.log.received[|s1.log.received|..];
    assert t.log.received[|s.log.received|..] == a + b;
    assert s.recvQueue + a + b == s.recvQueue + (a + b);
  }

  lemma QueuesJoin(s: State, s1: State, t: State)
    requires Queues(s, s1) && Queues(s1, t)
    ensures Queues(s, t)
  {
    var a, b := s1.log.finished[|s.log.finished|..], t.log.finished[|s1.log.finished|..];
    assert t.log.finished[|s.log.finished|..] == a + b;
    assert Items(a + b) == Items(a) + Items(b);
    assert Items(a) + (Items(b) + InFlight(t.sendPump)) == Items(a + b) + InFlight(t.sendPump);
  }

  lemma NothingHappened(s: State)
    requires s.paused
    ensures StoodStill(s, s, 0, 0)
  {
    assert s.log.received[|s.log.received|..] == [] && s.log.finished[|s.log.finished|..] == [];
  }

  // Until it is resumed, a paused socket delivers nothing that was not scheduled before, and starts no
  // native operation: the receive in flight settles at most once and is held back, the send in flight
  // settles at most once, and no message leaves the queue.
  lemma {:induction false} PausedStandsStill(s: State, es: seq<Event>)
    requires s.paused && Runs(s, es) && NoResume(es)
    ensures StoodStill(s, Exec(s, es), ReceivesSettled(es), SendsSettled(es))
    decreases |es|
  {
    hide Apply, Enabled, HoldsBack, Queues;
    if es == [] {
      NothingHappened(s);
    } else {
      var s1 := Apply(s, es[0]);
      PausedStepHolds(s, es[0]);
      PausedStepQueues(s, es[0]);
      PausedStandsStill(s1, es[1..]);
      HoldsJoin(s, s1, Exec(s1, es[1..]));
      QueuesJoin(s, s1, Exec(s1, es[1..]));
    }
  }

  // From s to t so many native receives and sends settled, none was started, and no listener was armed.
  ghost predicate Ended(s: State, t: State, receives: nat, sends: nat) {
    && t.closed && Queues(s, t)
    && receives + Bit(t.recvPump == RecvWaiting) == Bit(s.recvPump == RecvWaiting)
    && sends + Bit(t.sendPump.SendWaiting?) == Bit(s.sendPump.SendWaiting?)
    && (t.recvPump == RecvArmed ==> s.recvPump == RecvArmed)
    && (t.sendPump == SendArmed ==> s.sendPump == SendArmed)
  }

  lemma QueuesItself(s: State)
    ensures Queues(s, s)
  {
    assert s.log.finished[|s.log.finished|..] == [];
  }

  lemma ClosedStepEnds(s: State, e: Event)
    requires s.closed && Enabled(s, e)
    ensures Ended(s, Apply(s, e), Bit(e.ReceivedEvent?), Bit(e.SentEvent?))
  {
    var t := Apply(s, e);
    if e.SentEvent? {
      assert t.log.finished[|s.log.finished|..] == [Finished(s.sendPump.item, e.error)];
    } else {
      assert t.log.finished == s.log.finished && t.log.finished[|s.log.finished|..] == [];
    }
  }

  // On a closed socket no call and no event starts a native operation, a pump that ends is not armed
  // again, and no message leaves the queue.
  lemma {:induction false} ClosedStandsStill(s: State, es: seq<Event>)
    requires s.closed && Runs(s, es)
    ensures Ended(s, Exec(s, es), ReceivesSettled(es), SendsSettled(es))
    decreases |es|
  {
    hide Apply, Enabled, Queues;
    if es == [] {
      QueuesItself(s);
    } else {
      var s1 := Apply(s, es[0]);
      ClosedStepEnds(s, es[0]);
      ClosedStandsStill(s1, es[1..]);
      QueuesJoin(s, s1, Exec(s1, es[1..]));
    }
  }

  lemma ReleasedDelivers(s: State)
    requires |s.recvQueue| <= 1
    ensures Released(s).recvQueue == [] && Released(s).log == s.log
    ensures Delivered(Released(s).ticks) == Delivered(s.ticks) + s.recvQueue
  {
    if s.recvQueue != [] {
      AppendTick(s.ticks, Deliver(s.recvQueue[0]));
    }
  }

  lemma ComplaintDeliversNothing(s: State, code: int)
    ensures Complained(s, code).recvQueue == s.recvQueue && Complained(s, code).log == s.log
    ensures Delivered(Complained(s, code).ticks) == Delivered(s.ticks)
  {
    AppendTick(s.ticks, Complain(code));
  }

  lemma StartReleases(s: State, o: Start)
    requires |s.recvQueue| <= 1
    ensures StartReceive(s, o).recvQueue == [] && StartReceive(s, o).log == s.log
    ensures Delivered(StartReceive(s, o).ticks) == Delivered(s.ticks) + s.recvQueue
  {
    ReleasedDelivers(s);
    var s1 := Released(s);
    match o
    case Pending => assert StartReceive(s, o) == s1.(recvPump := RecvWaiting);
    case Throws(code) =>
      ComplaintDeliversNothing(s1, code);
      assert StartReceive(s, o) == Complained(s1, code).(recvPump := RecvBetween);
  }

  // What was held back is scheduled when an open socket is resumed, before anything else is received.
  lemma ResumeReleases(s: State, o1: Start, o2: Start)
    requires Reachable(s) && s.paused && !s.closed && s.recvPump == RecvArmed
    ensures var t := Resume(s, o1, o2);
      && t.recvQueue == [] && t.log.received == s.log.received && t.log.emitted == s.log.emitted
      && Delivered(t.ticks) == Delivered(s.ticks) + s.recvQueue
  {
    ReachableInv(s);
    var s1 := s.(paused := false);
    StartReleases(s1, o1);
    SendLoopLeavesReceives(StartReceive(s1, o1), o2);
  }

  // ----- what is told about a finished message -------------------------------------------------------------

  // A message with a callback tells it its own error, if any; without one, an error is an event.
  predicate Tells(f: Finished, n: Notice) {
    match n
    case Called(c, error) => f.item.callback == Some(c) && f.error == error
    case ErrorEvent(code) => f.item.callback == None && f.error == Some(code)
  }

  function TimesTelling(fs: seq<Finished>, n: Notice): nat {
    if fs == [] then 0 else TimesTelling(fs[..|fs| - 1], n) + Bit(Tells(fs[|fs| - 1], n))
  }

  lemma {:induction false} NoticesTell(fs: seq<Finished>, n: Notice)
    ensures multiset(NoticesOf(fs))[n] == TimesTelling(fs, n)
  {
    if fs != [] {
      NoticesTell(fs[..|fs| - 1], n);
    }
  }

  // The user was told exactly what the finished messages have to tell, each error to its own callback.
  lemma EachNoticeTellsItsError(s: State, n: Notice)
    requires Reachable(s)
    ensures multiset(s.log.notices)[n] == TimesTelling(s.log.finished, n)
  {
    ReachableInv(s);
    NoticesTell(s.log.finished, n);
  }

  // The answer of a native send that is started in a step.
  function SendStarts(e: Event): Option<Start> {
    match e
    case SendEvent(_, o) => Some(o)
    case ResumeEvent(_, o) => Some(o)
    case SendResumeEvent(o) => Some(o)
    case _ => None
  }

  // At most one message is finished, and only because its native send threw.
  ghost predicate FinishesThrown(before: seq<Finished>, after: seq<Finished>, o: Start) {
    after == before || (o.Throws? && exists q :: after == before + [Finished(q, Some(o.code))])
  }

  lemma SendLoopFinishes(s: State, o: Start)
    ensures FinishesThrown(s.log.finished, SendLoop(s, o).log.finished, o)
  {
  }

  // A step finishes at most one message: the one in flight with the error its send settled with, or one
  // whose native send threw, with what it threw.
  lemma AttemptHasItsError(s: State, e: Event)
    requires Enabled(s, e)
    ensures var before, after := s.log.finished, Apply(s, e).log.finished;
      && (e.SentEvent? ==> after == before + [Finished(s.sendPump.item, e.error)])
      && (!e.SentEvent? && after != before ==>
            SendStarts(e).Some? && FinishesThrown(before, after, SendStarts(e).value))
  {
    match e
    case SendEvent(call, o) => SendLoopFinishes(Submitted(s, call), o);
    case ResumeEvent(o1, o2) =>
      FlushRecvLeavesSends(s.(paused := false), o1);
      SendLoopFinishes(FlushRecv(s.(paused := false), o1), o2);
    case SendResumeEvent(o) => SendLoopFinishes(s, o);
    case _ => OtherSameFinished(s, e);
  }

  lemma LoopsWaitForWhatStarted(s: State, o: Start)
    ensures SendLoop(s, o).sendPump.SendWaiting? ==> o == Pending
    ensures RecvLoop(s, o).recvPump == RecvWaiting ==> o == Pending
  {
  }

  // A pump waits for a native operation only when one was started.
  lemma SendWaitsForWhatStarted(s: State, e: Event)
    requires Enabled(s, e) && Apply(s, e).sendPump.SendWaiting? && !s.sendPump.SendWaiting?
    ensures SendStarts(e) == Some(Pending)
  {
    match e
    case SendEvent(call, o) => LoopsWaitForWhatStarted(Submitted(s, call), o);
    case ResumeEvent(o1, o2) =>
      FlushRecvLeavesSends(s.(paused := false), o1);
      LoopsWaitForWhatStarted(FlushRecv(s.(paused := false), o1), o2);
    case RecvResumeEvent(o) => FlushRecvLeavesSends(s, o);
    case SendResumeEvent(o) => LoopsWaitForWhatStarted(s, o);
    case _ =>
  }

  lemma ReceiveWaitsForWhatStarted(s: State, e: Event)
    requires Enabled(s, e) && Apply(s, e).recvPump == RecvWaiting && s.recvPump != RecvWaiting
    ensures e == RecvResumeEvent(Pending) || (e.ResumeEvent? && e.o1 == Pending)
  {
    match e
    case SendEvent(call, o) => SendLoopLeavesReceives(Submitted(s, call), o);
    case ResumeEvent(o1, o2) =>
      LoopsWaitForWhatStarted(s.(paused := false), o1);
      SendLoopLeavesReceives(FlushRecv(s.(paused := false), o1), o2);
    case RecvResumeEvent(o) => LoopsWaitForWhatStarted(s, o);
    case SendResumeEvent(o) => SendLoopLeavesReceives(s, o);
    case _ =>
  }

  lemma OtherSameFinished(s: State, e: Event)
    requires Enabled(s, e) && SendStarts(e) == None
    ensures Apply(s, e).log.finished ==
              if e.SentEvent? then s.log.finished + [Finished(s.sendPump.item, e.error)] else s.log.finished
  {
    if e.RecvResumeEvent? {
      FlushRecvLeavesSends(s, e.o);
    }
  }

  predicate Grows(a: Log, b: Log) {
    && a.emitted <= b.emitted && a.received <= b.received && a.submitted <= b.submitted
    && a.finished <= b.finished && a.notices <= b.notices
  }

  lemma GrowJoins(a: Log, b: Log, c: Log)
    requires Grows(a, b) && Grows(b, c)
    ensures Grows(a, c)
  {
  }

  lemma FinishGrows(s: State, f: Finished)
    ensures Grows(s.log, Finish(s, f).log)
  {
  }

  lemma SendLoopGrows(s: State, o: Start)
    ensures Grows(s.log, SendLoop(s, o).log)
  {
    hide Grows, Finish;
    if !s.closed && !s.paused && s.sendQueue != [] && s.canSend && o.Throws? {
      FinishGrows(s.(sendQueue := s.sendQueue[1..]), Finished(s.sendQueue[0], Some(o.code)));
    } else {
      GrowsItself(s.log);
      assert SendLoop(s, o).log == s.log;
    }
  }

  lemma GrowsItself(a: Log)
    ensures Grows(a, a)
  {
  }

  lemma RecvLoopSameLog(s: State, o: Start)
    ensures RecvLoop(s, o).log == s.log && FlushRecv(s, o).log == s.log
  {
  }

  // What has happened stays at the front: events, messages, attempts and notices are told in their order.
  lemma HistoryGrows(s: State, e: Event)
    requires Enabled(s, e)
    ensures Grows(s.log, Apply(s, e).log)
  {
    match e
    case SendEvent(call, o) => SubmitGrows(s, call, o);
    case ResumeEvent(o1, o2) => ResumeGrows(s, o1, o2);
    case RecvResumeEvent(o) => RecvLoopSameLog(s, o);
    case SentEvent(error) => FinishGrows(s, Finished(s.sendPump.item, error));
    case SendResumeEvent(o) => SendLoopGrows(s, o);
    case _ =>
  }

  lemma SubmitGrows(s: State, call: Submit, o: Start)
    ensures Grows(s.log, Send(s, call, o).log)
  {
    SendLoopGrows(Submitted(s, call), o);
    GrowJoins(s.log, Submitted(s, call).log, SendLoop(Submitted(s, call), o).log);
  }

  lemma ResumeGrows(s: State, o1: Start, o2: Start)
    ensures Grows(s.log, Resume(s, o1, o2).log)
  {
    var s1 := FlushRecv(s.(paused := false), o1);
    RecvLoopSameLog(s.(paused := false), o1);
    SendLoopGrows(s1, o2);
  }

  // ----- the messages of some calls --------------------------------------------------------------------------

  function FinalCalls(calls: seq<Submit>): nat {
    if calls == [] then 0 else FinalCalls(calls[..|calls| - 1]) + Bit(!calls[|calls| - 1].more)
  }

  // The calls make one message for each final call, which ends it and gives it its callback; with
  // MessagesHoldAllParts for every n, the message is the parts since the final call before.
  lemma {:induction false} FinalCallsEndMessages(calls: seq<Submit>, n: nat)
    requires n <= |calls|
    ensures |Messages(calls)| == FinalCalls(calls) && Messages(calls[..n]) <= Messages(calls)
    ensures n > 0 && !calls[n - 1].more ==> OpenParts(calls[..n]) == []
    ensures n > 0 && !calls[n - 1].more ==>
              var ms := Messages(calls[..n]); ms != [] && ms[|ms| - 1].callback == calls[n - 1].callback
  {
    if n == |calls| {
      assert calls[..n] == calls;
    }
    if calls != [] {
      var before := calls[..|calls| - 1];
      FinalCallsEndMessages(before, if n < |calls| then n else 0);
      assert n < |calls| ==> before[..n] == calls[..n];
    }
  }

  // ----- failed receives -----------------------------------------------------------------------------------

  function Errors(ts: seq<Tick>): seq<int> {
    if ts == [] then []
    else
      var before := Errors(ts[..|ts| - 1]);
      match ts[|ts| - 1]
      case Deliver(_) => before
      case Complain(code) => before + [code]
  }

  lemma AppendError(ts: seq<Tick>, t: Tick)
    ensures Errors(ts + [t]) == Errors(ts) + (if t.Complain? then [t.code] else [])
  {
    assert (ts + [t])[..|ts|] == ts;
  }

  lemma {:induction false} ShiftError(ts: seq<Tick>)
    requires ts != []
    ensures Errors(ts) == (if ts[0].Complain? then [ts[0].code] else []) + Errors(ts[1..])
  {
    var n := |ts| - 1;
    if n > 0 {
      ShiftError(ts[..n]);
      assert ts[..n][1..] == ts[1..][..n - 1];
      assert ts[1..][n - 1] == ts[n];
    } else {
      assert ts[..0] == [] && ts[1..] == [];
    }
  }

  // The native receive that fails in a step: one that settles, or one that throws when the pump has its turn.
  function Failure(s: State, e: Event): Option<int> {
    match e
    case ReceivedEvent(Failed(code)) => Some(code)
    case RecvResumeEvent(Throws(code)) => if s.paused then None else Some(code)
    case ResumeEvent(Throws(code), _) => if s.recvPump == RecvArmed then Some(code) else None
    case _ => None
  }

  // What the failure adds to the errors, if the user is to hear of it.
  function Heard(s: State, failure: Option<int>): seq<int> {
    if failure.Some? && !s.closed && failure.value != 16 then [failure.value] else []
  }

  lemma ReleasedComplainsNothing(s: State)
    ensures Errors(Released(s).ticks) == Errors(s.ticks) && Released(s).log == s.log && Released(s).closed == s.closed
  {
    if s.recvQueue != [] {
      AppendError(s.ticks, Deliver(s.recvQueue[0]));
    }
  }

  lemma ComplainedErrors(s: State, code: int)
    ensures Complained(s, code).log == s.log
    ensures Errors(Complained(s, code).ticks) == Errors(s.ticks) + Heard(s, Some(code))
  {
    AppendError(s.ticks, Complain(code));
  }

  lemma StartErrors(s: State, o: Start)
    ensures StartReceive(s, o).log == s.log
    ensures Errors(StartReceive(s, o).ticks) == Errors(s.ticks) + Heard(s, if o.Throws? then Some(o.code) else None)
  {
    ReleasedComplainsNothing(s);
    var s1 := Released(s);
    match o
    case Pending => assert StartReceive(s, o) == s1.(recvPump := RecvWaiting);
    case Throws(code) =>
      ComplainedErrors(s1, code);
      assert StartReceive(s, o) == Complained(s1, code).(recvPump := RecvBetween);
  }

  lemma EmitKeepsErrors(s: State)
    requires s.ticks != []
    ensures var t := Apply(s, TickEvent);
      Errors(t.log.emitted) + Errors(t.ticks) == Errors(s.log.emitted) + Errors(s.ticks)
  {
    ShiftError(s.ticks);
    AppendError(s.log.emitted, s.ticks[0]);
    var a, b := Errors(s.log.emitted), Errors(s.ticks[1..]);
    var m := if s.ticks[0].Complain? then [s.ticks[0].code] else [];
    assert a + (m + b) == (a + m) + b;
  }

  lemma ResumeErrors(s: State, o1: Start, o2: Start)
    ensures var t := Resume(s, o1, o2);
      && t.log.emitted == s.log.emitted
      && Errors(t.ticks) == Errors(s.ticks) + Heard(s, Failure(s, ResumeEvent(o1, o2)))
  {
    var s1 := s.(paused := false);
    StartErrors(s1, o1);
    SendLoopLeavesReceives(FlushRecv(s1, o1), o2);
  }

  lemma ReceivedErrors(s: State, r: RecvResult)
    ensures var t := Receive(s, r);
      && t.log.emitted == s.log.emitted
      && Errors(t.ticks) == Errors(s.ticks) + Heard(s, Failure(s, ReceivedEvent(r)))
  {
    AppendError(s.ticks, if r.Got? then Deliver(r.msg) else Complain(r.code));
  }

  // A failed receive becomes an error event if and only if the socket is open and the error is not EBUSY.
  lemma FailuresAreEmittedIff(s: State, e: Event)
    requires Enabled(s, e)
    ensures var t := Apply(s, e);
      Errors(t.log.emitted) + Errors(t.ticks) ==
        Errors(s.log.emitted) + Errors(s.ticks) + Heard(s, Failure(s, e))
  {
    var a, b := Errors(s.log.emitted), Errors(s.ticks);
    match e
    case TickEvent => EmitKeepsErrors(s);
    case ReceivedEvent(r) => ReceivedErrors(s, r);
    case RecvResumeEvent(o) => StartErrors(s, o);
    case ResumeEvent(o1, o2) => ResumeErrors(s, o1, o2);
    case SendEvent(call, o) => SendLoopLeavesReceives(Submitted(s, call), o);
    case SendResumeEvent(o) => SendLoopLeavesReceives(s, o);
    case _ =>
    assert a + (b + Heard(s, Failure(s, e))) == a + b + Heard(s, Failure(s, e));
  }
}
