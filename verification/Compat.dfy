/** The version 5 compatibility socket as the source has it: queues and flags that methods update,
    `once` listeners that are added and removed, and coroutines suspended at an `await`. Nothing
    here limits how many listeners or coroutines there are; that each pump is in one place only is
    proved. Every method does one step of the machine in CompatSpec.dfy. */
module Compat {
  import opened Common
  import opened CompatSpec

  // A pump that runs its loop again ends up in a new place, whatever place it came from.
  lemma PlaceDoesNotMatter(s: State, p: RecvPump, o: Start)
    ensures RecvLoop(s.(recvPump := p), o) == RecvLoop(s, o)
  {
  }

  lemma SendPlaceDoesNotMatter(s: State, p: SendPump, o: Start)
    ensures SendLoop(s.(sendPump := p), o) == SendLoop(s, o)
  {
  }

  class Socket {
    const canRecv: bool
    const canSend: bool
    var closed: bool                   // the native socket is closed
    var msg: Msg
    var recvQueue: seq<Msg>
    var sendQueue: seq<Queued>
    var paused: bool
    // Listeners for _flushRecv and _flushSend.
    var recvListeners: nat
    var sendListeners: nat
    // Pumps waiting for a native receive(), and pumps waiting for _recv() to return.
    var nativeReceives: nat
    var returningReceives: nat
    // The messages of pumps waiting for a native send(), and pumps waiting for _send() to return.
    var nativeSends: seq<Queued>
    var returningSends: nat
    // Callbacks given to process.nextTick().
    var ticks: seq<Tick>
    ghost var log: Log

    ghost function RecvPlace(): RecvPump
      reads this
    {
      if recvListeners > 0 then RecvArmed
      else if nativeReceives > 0 then RecvWaiting
      else if returningReceives > 0 then RecvBetween
      else RecvGone
    }

    ghost function SendPlace(): SendPump
      reads this
    {
      if sendListeners > 0 then SendArmed
      else if nativeSends != [] then SendWaiting(nativeSends[0])
      else if returningSends > 0 then SendBetween
      else SendGone
    }

    ghost function View(): State
      reads this
    {
      State(canRecv, canSend, closed, paused, msg, recvQueue, sendQueue, RecvPlace(), SendPlace(), ticks, log)
    }

    // Each direction has at most one listener or running pump, so never two native operations.
    ghost predicate Valid()
      reads this
    {
      && recvListeners + nativeReceives + returningReceives <= 1
      && sendListeners + |nativeSends| + returningSends <= 1
    }

    constructor (canRecv: bool, canSend: bool, o: Start)
      ensures Valid() && View() == New(canRecv, canSend, o)
    {
      this.canRecv, this.canSend := canRecv, canSend;
      closed, msg, recvQueue, sendQueue, paused := false, [], [], [], false;
      recvListeners, nativeReceives, returningReceives := if canRecv then 1 else 0, 0, 0;
      sendListeners, nativeSends, returningSends := 1, [], 0;
      ticks, log := [], Log([], [], [], [], []);
      new;
      EmitFlushRecv(o);
    }

    // ----- receiving -----------------------------------------------------------------------------

    method Complain(code: int)
      modifies `ticks
      ensures View() == Complained(old(View()), code)
    {
      if !closed && code != EBUSY {
        ticks := ticks + [Tick.Complain(code)];
      }
    }

    // _recv() up to its await.
    method RecvStart(o: Start)
      requires recvListeners + nativeReceives + returningReceives == 0
      modifies `recvQueue, `ticks, `nativeReceives, `returningReceives
      ensures recvListeners + nativeReceives + returningReceives == 1
      ensures View() == StartReceive(old(View()), o)
    {
      if |recvQueue| > 0 {
        var held := recvQueue[0];
        recvQueue := recvQueue[1..];
        ticks := ticks + [Deliver(held)];
      }
      match o {
        case Pending => nativeReceives := nativeReceives + 1;
        case Throws(code) =>
          Complain(code);
          returningReceives := returningReceives + 1;
      }
    }

    // The receive pump from its loop condition to its next await or its end.
    method RecvPumpTurn(o: Start)
      requires recvListeners + nativeReceives + returningReceives == 0
      modifies `recvListeners, `recvQueue, `ticks, `nativeReceives, `returningReceives
      ensures recvListeners + nativeReceives + returningReceives <= 1
      ensures View() == RecvLoop(old(View()), o)
      ensures closed || paused ==>
                && ticks == old(ticks) && recvQueue == old(recvQueue)
                && nativeReceives == 0 && recvListeners == Bit(!closed)
    {
      if !closed && !paused {
        RecvStart(o);
      } else if !closed {
        recvListeners := recvListeners + 1;
      }
    }

    // emit("_flushRecv"): every listener is removed and then called.
    method EmitFlushRecv(o: Start)
      requires Valid()
      modifies `recvListeners, `recvQueue, `ticks, `nativeReceives, `returningReceives
      ensures Valid() && View() == FlushRecv(old(View()), o)
    {
      ghost var target := FlushRecv(View(), o);
      if recvListeners > 0 {
        PlaceDoesNotMatter(View(), RecvGone, o);
      }
      var calls := recvListeners;
      recvListeners := 0;
      while calls > 0
        invariant 0 <= calls <= 1
        invariant calls == 0 ==> Valid() && View() == target
        invariant calls > 0 ==> recvListeners + nativeReceives + returningReceives == 0 && RecvLoop(View(), o) == target
        decreases calls
      {
        RecvPumpTurn(o);
        calls := calls - 1;
      }
    }

    method OnReceived(r: RecvResult)
      requires Valid() && nativeReceives > 0
      modifies this
      ensures Valid() && Enabled(old(View()), ReceivedEvent(r)) && View() == Apply(old(View()), ReceivedEvent(r))
    {
      match r {
        case Got(m) =>
          log := log.(received := log.received + [m]);
          if paused {
            recvQueue := recvQueue + [m];
          } else {
            ticks := ticks + [Deliver(m)];
          }
        case Failed(code) => Complain(code);
      }
      nativeReceives, returningReceives := nativeReceives - 1, returningReceives + 1;
    }

    method OnRecvReturned(o: Start)
      requires Valid() && returningReceives > 0
      modifies this
      ensures Valid() && Enabled(old(View()), RecvResumeEvent(o)) && View() == Apply(old(View()), RecvResumeEvent(o))
    {
      returningReceives := returningReceives - 1;
      PlaceDoesNotMatter(old(View()), RecvGone, o);
      RecvPumpTurn(o);
    }

    method OnTick()
      requires Valid() && ticks != []
      modifies this
      ensures Valid() && View() == Apply(old(View()), TickEvent)
    {
      log := log.(emitted := log.emitted + [ticks[0]]);
      ticks := ticks[1..];
    }

    // ----- sending ---------------------------------------------------------------------------------

    // What _send() does once its await is over.
    method Notify(item: Queued, error: Option<int>)
      modifies `log
      ensures log == old(log).(finished := old(log).finished + [Finished(item, error)],
                               notices := old(log).notices + NoticeOf(Finished(item, error)))
      ensures item.callback.Some? ==> log.notices == old(log).notices + [Called(item.callback.value, error)]
      ensures item.callback.None? && error.Some? ==> log.notices == old(log).notices + [ErrorEvent(error.value)]
    {
      log := log.(finished := log.finished + [Finished(item, error)]);
      if item.callback.Some? {
        log := log.(notices := log.notices + [Called(item.callback.value, error)]);
      } else if error.Some? {
        log := log.(notices := log.notices + [ErrorEvent(error.value)]);
      }
    }

    // _send() up to its await, on a socket that can send.
    method SendStart(o: Start)
      requires sendListeners == 0 && nativeSends == [] && returningSends == 0 && sendQueue != []
      modifies `sendQueue, `nativeSends, `returningSends, `log
      ensures sendListeners + |nativeSends| + returningSends == 1
      ensures View() == StartSend(old(View()), o)
    {
      var item := sendQueue[0];
      sendQueue := sendQueue[1..];
      match o {
        case Pending => nativeSends := nativeSends + [item];
        case Throws(code) =>
          Notify(item, Some(code));
          returningSends := returningSends + 1;
      }
    }

    // The send pump from its loop condition to its next await or its end. When _send() throws, the
    // pump ends without arming its listener again.
    method SendPumpTurn(o: Start)
      requires sendListeners == 0 && nativeSends == [] && returningSends == 0
      modifies `sendListeners, `sendQueue, `nativeSends, `returningSends, `log
      ensures sendListeners + |nativeSends| + returningSends <= 1
      ensures View() == SendLoop(old(View()), o)
      ensures closed || paused ==>
                && sendQueue == old(sendQueue) && log == old(log)
                && nativeSends == [] && sendListeners == Bit(!closed)
    {
      if !closed && !paused && |sendQueue| > 0 {
        if canSend {
          SendStart(o);
        }
      } else if !closed {
        sendListeners := sendListeners + 1;
      }
    }

    // emit("_flushSend"): every listener is removed and then called.
    method EmitFlushSend(o: Start)
      requires Valid()
      modifies `sendListeners, `sendQueue, `nativeSends, `returningSends, `log
      ensures Valid() && View() == FlushSend(old(View()), o)
    {
      ghost var target := FlushSend(View(), o);
      if sendListeners > 0 {
        SendPlaceDoesNotMatter(View(), SendGone, o);
      }
      var calls := sendListeners;
      sendListeners := 0;
      while calls > 0
        invariant 0 <= calls <= 1
        invariant calls == 0 ==> Valid() && View() == target
        invariant calls > 0 ==> sendListeners + |nativeSends| + returningSends == 0 && SendLoop(View(), o) == target
        decreases calls
      {
        SendPumpTurn(o);
        calls := calls - 1;
      }
    }

    method Send(message: Msg, more: bool, callback: Option<nat>, o: Start)
      requires Valid()
      modifies this
      ensures Valid() && View() == CompatSpec.Send(old(View()), Submit(message, more, callback), o)
    {
      log := log.(submitted := log.submitted + [Submit(message, more, callback)]);
      msg := msg + message;
      if !more {
        sendQueue := sendQueue + [Queued(msg, callback)];
        msg := [];
        if !paused {
          EmitFlushSend(o);
        }
      }
    }

    method OnSent(error: Option<int>)
      requires Valid() && nativeSends != []
      modifies this
      ensures Valid() && Enabled(old(View()), SentEvent(error)) && View() == Apply(old(View()), SentEvent(error))
    {
      var item := nativeSends[0];
      nativeSends := nativeSends[1..];
      Notify(item, error);
      returningSends := returningSends + 1;
    }

    method OnSendReturned(o: Start)
      requires Valid() && returningSends > 0
      modifies this
      ensures Valid() && Enabled(old(View()), SendResumeEvent(o)) && View() == Apply(old(View()), SendResumeEvent(o))
    {
      returningSends := returningSends - 1;
      SendPumpTurn(o);
    }

    // ----- pause, resume and close -------------------------------------------------------------------

    method Pause()
      requires Valid()
      modifies this
      ensures Valid() && View() == Apply(old(View()), PauseEvent)
    {
      paused := true;
    }

    method Resume(o1: Start, o2: Start)
      requires Valid()
      modifies this
      ensures Valid() && View() == CompatSpec.Resume(old(View()), o1, o2)
    {
      paused := false;
      EmitFlushRecv(o1);
      EmitFlushSend(o2);
    }

    // close(), or the end of the bind that held it up.
    method OnClosed()
      requires Valid()
      modifies this
      ensures Valid() && View() == Apply(old(View()), ClosedEvent)
    {
      closed := true;
    }

    // One turn: whatever the abstract machine allows can happen to this object.
    method Dispatch(e: Event)
      requires Valid() && Enabled(View(), e)
      modifies this
      ensures Valid() && View() == Apply(old(View()), e)
    {
      match e {
        case SendEvent(call, o) => Send(call.parts, call.more, call.callback, o);
        case PauseEvent => Pause();
        case ResumeEvent(o1, o2) => Resume(o1, o2);
        case ClosedEvent => OnClosed();
        case ReceivedEvent(r) => OnReceived(r);
        case RecvResumeEvent(o) => OnRecvReturned(o);
        case SentEvent(error) => OnSent(error);
        case SendResumeEvent(o) => OnSendReturned(o);
        case TickEvent => OnTick();
      }
    }
  }

  // A new socket follows every run of the abstract machine.
  method Follow(canRecv: bool, canSend: bool, o: Start, es: seq<Event>) returns (s: Socket)
    requires Runs(New(canRecv, canSend, o), es)
    ensures fresh(s) && s.Valid() && s.View() == Exec(New(canRecv, canSend, o), es)
  {
    s := new Socket(canRecv, canSend, o);
    var i := 0;
    assert es[0..] == es;
    while i < |es|
      invariant 0 <= i <= |es| && fresh(s) && s.Valid()
      invariant Runs(s.View(), es[i..]) && Exec(s.View(), es[i..]) == Exec(New(canRecv, canSend, o), es)
    {
      assert es[i..][1..] == es[i + 1..];
      s.Dispatch(es[i]);
      i := i + 1;
    }
  }
}
