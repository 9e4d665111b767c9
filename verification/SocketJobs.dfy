/** The libzmq socket while a bind or unbind runs on a worker thread. The state is then called one that
    disallows access to the socket, and calls from JavaScript are refused; but an operation that was
    pending at the call is completed on the main thread as ever. */
module SocketJobs {
  import opened Common
  import opened SocketSpec

  // A step of the main thread on a blocked socket that calls libzmq with it: asking for its events, or
  // receiving or sending. Sending no parts calls nothing.
  predicate Uses(w: World, e: Event) {
    w.phase == Blocked && Enabled(w, e) &&
    match e
    case FdReadEvent(_) => w.reader.ByPoller?
    case FdWriteEvent(_) => w.writer.ByPoller?
    case ReadTimerEvent(_) => true
    case WriteTimerEvent(_) => w.writer.parts != []
    case DelayedReadEvent(_) => true
    case DelayedWriteEvent(_) => w.writer.parts != []
    case DelayedReadTailEvent(_) => w.writer.ByPoller?
    case DelayedWriteTailEvent(_) => w.reader.ByPoller?
    case _ => false
  }

  // Before the job completes, the main thread may use the libzmq socket.
  ghost predicate UsedBeforeCompletion(w: World) {
    exists es, e :: UsedAfter(w, es, e)
  }

  predicate UsedAfter(w: World, es: seq<Event>, e: Event) {
    Runs(w, es) && NoJobDone(es) && Uses(Exec(w, es), e)
  }

  // An operation that will use the socket: a receive, or a send that waits with the poller or has parts.
  predicate UseIsPending(w: World) {
    w.reader != Nobody || w.writer.ByPoller? || (w.writer.ByDelayed? && w.writer.parts != [])
  }

  lemma {:induction false} NoUse(w: World, es: seq<Event>)
    requires w.phase == Blocked && !UseIsPending(w) && Runs(w, es) && NoJobDone(es)
    ensures Exec(w, es).phase == Blocked && !UseIsPending(Exec(w, es))
    decreases |es|
  {
    if es != [] {
      assert !es[0].JobDoneEvent?;
      NoUse(Apply(w, es[0]), es[1..]);
    }
  }

  // The step that does it.
  function User(w: World): Event
    requires UseIsPending(w)
  {
    var z := Zmq(false, false, 0, 0, NoMessage(0));
    if w.reader.ByPoller? then FdReadEvent(z)
    else if w.reader.ByDelayed? then DelayedReadEvent(z)
    else if w.writer.ByPoller? then FdWriteEvent(z)
    else DelayedWriteEvent(z)
  }

  // From a queued bind or unbind, some run before its completion uses the libzmq socket on the main thread
  // if and only if an operation that does so was pending at the call.
  lemma UsedDuringJobIff(w: World, call: Call)
    requires Reachable(w) && w.phase == Open && (call.BindCall? || call.UnbindCall?)
    ensures UsedBeforeCompletion(StartJob(w, call, true)) <==> UseIsPending(w)
  {
    var w1 := StartJob(w, call, true);
    assert UseIsPending(w1) <==> UseIsPending(w);
    if UseIsPending(w) {
      assert Exec(w1, []) == w1;
      if w1.writer.ByPoller? && w1.reader == Nobody {
        assert UsedAfter(w1, [], FdWriteEvent(User(w1).z));
      } else {
        assert UsedAfter(w1, [], User(w1));
      }
    } else {
      forall es, e ensures !UsedAfter(w1, es, e) {
        if Runs(w1, es) && NoJobDone(es) {
          NoUse(w1, es);
        }
      }
    }
  }

  // A receive that waits is completed while the job of a bind runs.
  lemma ReceivesDuringBind(address: string, first: Frame)
    ensures var none, some := Zmq(false, false, 0, 0, NoMessage(0)), Zmq(true, false, 0, 0, Message(first, []));
            var w := Exec(INITIAL, [ReceiveEvent(none), JobEvent(BindCall(address), true)]);
      && Runs(INITIAL, [ReceiveEvent(none), JobEvent(BindCall(address), true)])
      && w.job == Some(1) && Uses(w, FdReadEvent(some))
      && Apply(w, FdReadEvent(some)).job == Some(1)
      && Apply(w, FdReadEvent(some)).log.settled == [Settlement(0, Received([first]), [])]
  {
    var none := Zmq(false, false, 0, 0, NoMessage(0));
    RunOfTwo(INITIAL, ReceiveEvent(none), JobEvent(BindCall(address), true));
    assert [first] + [] == [first];
  }
}
