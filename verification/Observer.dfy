/** The observer: the second user of the poller. It only reads, one monitoring event per promise, and
    closes itself from inside its own receive callback when libzmq says that monitoring stopped. */
module Observer {
  import opened Common

  const ENOTSOCK: int := 88
  const EBADF: int := 9
  const EBUSY: int := 16
  const MONITOR_STOPPED: nat := 0x0400

  datatype Outcome = Resolved(id: nat, address: Frame) | Rejected(errno: int)

  // What libzmq has for zmq_msg_recv: both parts of an event, or an error for one of them.
  datatype Notice = Notice(id: nat, address: Frame) | Missing(errno: int)

  datatype Zmq = Zmq(pollIn: bool, notice: Notice)

  datatype Settlement = Settlement(promise: nat, outcome: Outcome)

  datatype CallResult = Promised(promise: nat) | Threw(errno: int)

  // What an observer promises: at most one receive is pending, and a closed one has none.
  datatype World = World(
    open: bool,
    reader: Option<nat>,
    issued: nat,
    settled: seq<Settlement>,
    zmqCloses: nat)

  const INITIAL := World(true, None, 0, [], 0)

  function Settle(w: World, p: nat, outcome: Outcome): World {
    w.(settled := w.settled + [Settlement(p, outcome)])
  }

  // Closing the socket makes a pending receive fail, because it runs without a socket.
  function Closed(w: World): World {
    if !w.open then w
    else
      var w1 := w.(open := false, zmqCloses := w.zmqCloses + 1, reader := None);
      if w.reader.Some? then Settle(w1, w.reader.value, Rejected(ENOTSOCK)) else w1
  }

  // Reading one event for a promise. The event that says monitoring stopped is delivered last.
  function Collected(w: World, p: nat, z: Zmq): World {
    if !w.open then Settle(w, p, Rejected(ENOTSOCK))
    else match z.notice
      case Missing(errno) => Settle(w, p, Rejected(errno))
      case Notice(id, address) =>
        Settle(if id == MONITOR_STOPPED then Closed(w) else w, p, Resolved(id, address))
  }

  // The pending promise is taken from the poller and gets what is there.
  function Taken(w: World, z: Zmq): World
    requires w.reader.Some?
  {
    Collected(w.(reader := None), w.reader.value, z)
  }

  function Received(w: World, z: Zmq): World {
    if !w.open || w.reader.Some? then w
    else if z.pollIn then Collected(w.(issued := w.issued + 1), w.issued, z)
    else w.(issued := w.issued + 1, reader := Some(w.issued))
  }

  datatype Event = ReceiveEvent(z: Zmq) | CloseEvent | FdEvent(z: Zmq)

  predicate Enabled(w: World, e: Event) {
    e.FdEvent? ==> w.reader.Some?
  }

  function Apply(w: World, e: Event): World
    requires Enabled(w, e)
  {
    match e
    case ReceiveEvent(z) => Received(w, z)
    case CloseEvent => Closed(w)
    case FdEvent(z) => if z.pollIn then Taken(w, z) else w
  }

  predicate Runs(w: World, es: seq<Event>)
    decreases |es|
  {
    es == [] || (Enabled(w, es[0]) && Runs(Apply(w, es[0]), es[1..]))
  }

  function Exec(w: World, es: seq<Event>): World
    requires Runs(w, es)
    decreases |es|
  {
    if es == [] then w else Exec(Apply(w, es[0]), es[1..])
  }

  // ----- the invariant --------------------------------------------------------------------------------

  function TimesSettled(settled: seq<Settlement>, p: nat): nat {
    if settled == [] then 0
    else TimesSettled(settled[..|settled| - 1], p) + Bit(settled[|settled| - 1].promise == p)
  }

  // Every promise is settled once or pending; `hole` is the one a step is about to settle.
  ghost predicate InvBut(w: World, hole: Option<nat>) {
    && (forall p: nat ::
          TimesSettled(w.settled, p) + Bit(w.reader == Some(p)) + Bit(hole == Some(p)) == Bit(p < w.issued))
    && w.zmqCloses == Bit(!w.open)
    && (!w.open ==> w.reader.None?)
  }

  ghost predicate Inv(w: World) {
    InvBut(w, None)
  }

  lemma SettledOne(w: World, p: nat, outcome: Outcome, q: nat)
    ensures TimesSettled(Settle(w, p, outcome).settled, q) == TimesSettled(w.settled, q) + Bit(p == q)
  {
    assert Settle(w, p, outcome).settled[..|w.settled|] == w.settled;
  }

  lemma SettleKeeps(w: World, p: nat, outcome: Outcome)
    requires InvBut(w, Some(p))
    ensures Inv(Settle(w, p, outcome))
  {
    var w' := Settle(w, p, outcome);
    forall q: nat
      ensures TimesSettled(w'.settled, q) + Bit(w'.reader == Some(q)) + Bit(None == Some(q)) == Bit(q < w'.issued)
    {
      SettledOne(w, p, outcome, q);
      assert TimesSettled(w.settled, q) + Bit(w.reader == Some(q)) + Bit(Some(p) == Some(q)) == Bit(q < w.issued);
    }
  }

  lemma ClosedKeeps(w: World, hole: Option<nat>)
    requires InvBut(w, hole)
    ensures InvBut(Closed(w), hole)
  {
    var w' := Closed(w);
    forall q: nat
      ensures TimesSettled(w'.settled, q) + Bit(w'.reader == Some(q)) + Bit(hole == Some(q)) == Bit(q < w'.issued)
    {
      if w.open && w.reader.Some? {
        var w1 := w.(open := false, zmqCloses := w.zmqCloses + 1, reader := None);
        SettledOne(w1, w.reader.value, Rejected(ENOTSOCK), q);
      }
      assert TimesSettled(w.settled, q) + Bit(w.reader == Some(q)) + Bit(hole == Some(q)) == Bit(q < w.issued);
    }
  }

  lemma CollectedKeeps(w: World, p: nat, z: Zmq)
    requires InvBut(w, Some(p))
    ensures Inv(Collected(w, p, z))
  {
    if !w.open {
      SettleKeeps(w, p, Rejected(ENOTSOCK));
    } else {
      match z.notice
      case Missing(errno) => SettleKeeps(w, p, Rejected(errno));
      case Notice(id, address) =>
        ClosedKeeps(w, Some(p));
        SettleKeeps(if id == MONITOR_STOPPED then Closed(w) else w, p, Resolved(id, address));
    }
  }

  // The newest promise, or the one taken from the poller, is the hole.
  lemma TakenKeeps(w: World, w': World, p: nat)
    requires Inv(w)
    requires (w' == w.(reader := None) && w.reader == Some(p)) || (w' == w.(issued := w.issued + 1) && p == w.issued)
    ensures InvBut(w', Some(p))
  {
    forall q: nat
      ensures TimesSettled(w'.settled, q) + Bit(w'.reader == Some(q)) + Bit(Some(p) == Some(q)) == Bit(q < w'.issued)
    {
      assert TimesSettled(w.settled, q) + Bit(w.reader == Some(q)) + Bit(None == Some(q)) == Bit(q < w.issued);
    }
  }

  lemma ReceivedKeeps(w: World, z: Zmq)
    requires Inv(w)
    ensures Inv(Received(w, z))
  {
    if w.open && w.reader.None? {
      var w1 := w.(issued := w.issued + 1);
      TakenKeeps(w, w1, w.issued);
      if z.pollIn {
        CollectedKeeps(w1, w.issued, z);
      } else {
        PendingKeeps(w1, w.issued);
      }
    }
  }

  lemma PendingKeeps(w: World, p: nat)
    requires InvBut(w, Some(p)) && w.open && w.reader.None?
    ensures Inv(w.(reader := Some(p)))
  {
    var w' := w.(reader := Some(p));
    forall q: nat
      ensures TimesSettled(w'.settled, q) + Bit(w'.reader == Some(q)) + Bit(None == Some(q)) == Bit(q < w'.issued)
    {
      assert TimesSettled(w.settled, q) + Bit(w.reader == Some(q)) + Bit(Some(p) == Some(q)) == Bit(q < w.issued);
    }
  }

  lemma StepKeeps(w: World, e: Event)
    requires Inv(w) && Enabled(w, e)
    ensures Inv(Apply(w, e))
  {
    match e
    case ReceiveEvent(z) => ReceivedKeeps(w, z);
    case CloseEvent => ClosedKeeps(w, None);
    case FdEvent(z) =>
      if z.pollIn {
        TakenKeeps(w, w.(reader := None), w.reader.value);
        CollectedKeeps(w.(reader := None), w.reader.value, z);
      }
  }

  lemma {:induction false} RunKeeps(w: World, es: seq<Event>)
    requires Inv(w) && Runs(w, es)
    ensures Inv(Exec(w, es))
    decreases |es|
  {
    if es != [] {
      StepKeeps(w, es[0]);
      RunKeeps(Apply(w, es[0]), es[1..]);
    }
  }

  // ----- main results ----------------------------------------------------------------------------------

  // After any run every promise is pending or settled once; once the observer is closed, by hand or by
  // itself, none is pending, and its libzmq socket was closed once.
  lemma PromiseConservation(es: seq<Event>, p: nat)
    requires Runs(INITIAL, es)
    ensures var w := Exec(INITIAL, es);
      && (p < w.issued <==> TimesSettled(w.settled, p) == 1 || w.reader == Some(p))
      && TimesSettled(w.settled, p) <= 1 && (w.reader == Some(p) ==> TimesSettled(w.settled, p) == 0)
      && (!w.open && p < w.issued ==> TimesSettled(w.settled, p) == 1)
      && w.zmqCloses == Bit(!w.open)
  {
    RunKeeps(INITIAL, es);
    var w := Exec(INITIAL, es);
    assert TimesSettled(w.settled, p) + Bit(w.reader == Some(p)) + Bit(None == Some(p)) == Bit(p < w.issued);
  }

  lemma {:induction false} ClosedIsTerminal(w: World, es: seq<Event>)
    requires Inv(w) && !w.open && Runs(w, es)
    ensures Exec(w, es) == w
    decreases |es|
  {
    if es != [] {
      StepKeeps(w, es[0]);
      ClosedIsTerminal(Apply(w, es[0]), es[1..]);
    }
  }

  // After any run, the receive that is pending when the observer is closed is rejected with ENOTSOCK;
  // the comment in the source says that it is resolved with undefined.
  lemma PendingReceiveIsRejected(es: seq<Event>)
    requires Runs(INITIAL, es) && Exec(INITIAL, es).reader.Some?
    ensures var w := Exec(INITIAL, es);
      && Apply(w, CloseEvent).settled == w.settled + [Settlement(w.reader.value, Rejected(ENOTSOCK))]
      && !Apply(w, CloseEvent).open && Apply(w, CloseEvent).reader.None?
  {
    RunKeeps(INITIAL, es);
  }

  // A step that reads from libzmq: a receive() that finds something ready, or the file descriptor when
  // a receive is pending.
  predicate Reads(w: World, e: Event) {
    match e
    case ReceiveEvent(z) => w.open && w.reader.None? && z.pollIn
    case FdEvent(z) => w.reader.Some? && z.pollIn
    case CloseEvent => false
  }

  // After any run, a step that is not close() closes an open observer exactly when it delivers the event
  // that monitoring stopped. Every event that is read reaches its own receiver, a failure to read rejects
  // it with libzmq's error, and nothing else is settled; a receive that finds nothing waits.
  lemma StopsItself(es: seq<Event>, e: Event)
    requires Runs(INITIAL, es) && Exec(INITIAL, es).open && Enabled(Exec(INITIAL, es), e) && !e.CloseEvent?
    ensures var w, w' := Exec(INITIAL, es), Apply(Exec(INITIAL, es), e);
      && (!w'.open <==> Reads(w, e) && e.z.notice.Notice? && e.z.notice.id == 0x0400)
      && (Reads(w, e) && e.z.notice.Notice? ==>
            var p := if e.FdEvent? then w.reader.value else w.issued;
            w'.settled == w.settled + [Settlement(p, Resolved(e.z.notice.id, e.z.notice.address))])
      && (Reads(w, e) && e.z.notice.Missing? ==>
            var p := if e.FdEvent? then w.reader.value else w.issued;
            w'.settled == w.settled + [Settlement(p, Rejected(e.z.notice.errno))])
      && (!Reads(w, e) ==> w'.settled == w.settled)
      && (Reads(w, e) ==> w'.reader == None)
      && (!Reads(w, e) ==> w'.reader == if w.reader == None then Some(w.issued) else w.reader)
  {
    RunKeeps(INITIAL, es);
  }

  // ----- the observer as the program has it --------------------------------------------------------------

  class Observer {
    // The poller; the observer never polls for writing.
    var readable: bool
    var handlesOpen: bool
    var pollActive: bool
    var readDeferred: Option<nat>
    // The observer.
    var hasSocket: bool
    var nextPromise: nat
    ghost var settled: seq<Settlement>
    ghost var zmqCloses: nat

    ghost function View(): World
      reads this
    {
      World(hasSocket, readDeferred, nextPromise, settled, zmqCloses)
    }

    ghost predicate Valid()
      reads this
    {
      && readable == readDeferred.Some? && pollActive == readable
      && handlesOpen == hasSocket && (readable ==> hasSocket)
    }

    constructor ()
      ensures Valid() && View() == INITIAL
    {
      readable, handlesOpen, pollActive, readDeferred := false, true, false, None;
      hasSocket, nextPromise, settled, zmqCloses := true, 0, [], 0;
    }

    // Reads one event and settles the promise; closes when monitoring stopped. This may be running
    // because the observer is being closed, and then has no socket.
    method Read(res: nat, z: Zmq)
      requires !readable && readDeferred.None? && !pollActive && (hasSocket ==> handlesOpen)
      modifies this
      ensures View() == Collected(old(View()), res, z)
      ensures !readable && readDeferred.None? && !pollActive
      ensures handlesOpen == (old(handlesOpen) && (old(hasSocket) ==> hasSocket))
      decreases hasSocket, 1
    {
      if !hasSocket {
        settled := settled + [Settlement(res, Rejected(ENOTSOCK))];
        return;
      }
      match z.notice {
        case Missing(errno) =>
          settled := settled + [Settlement(res, Rejected(errno))];
        case Notice(id, address) =>
          if id == MONITOR_STOPPED {
            CloseObserver(z);
          }
          settled := settled + [Settlement(res, Resolved(id, address))];
      }
    }

    // The source's assert(read_deferred).
    method ReadableCallback(z: Zmq)
      requires readDeferred.Some? && !readable && !pollActive && (hasSocket ==> handlesOpen)
      modifies this
      ensures View() == Taken(old(View()), z)
      ensures !readable && readDeferred.None? && !pollActive
      ensures handlesOpen == (old(handlesOpen) && (old(hasSocket) ==> hasSocket))
      decreases hasSocket, 2
    {
      var res := readDeferred.value;
      readDeferred := None;
      Read(res, z);
    }

    // Nothing may be triggered once the handles are released.
    method Trigger(triggered: bool, z: Zmq)
      requires handlesOpen && readable == triggered && readDeferred.Some? == triggered
      modifies this
      ensures View() == if triggered then Taken(old(View()), z) else old(View())
      ensures !readable && readDeferred.None? && !pollActive
      ensures handlesOpen == (old(hasSocket) ==> hasSocket)
      decreases hasSocket, 3
    {
      readable := readable && !triggered;
      if !readable {
        pollActive := false;
      }
      if triggered {
        ReadableCallback(z);
      }
    }

    method PollerClose(z: Zmq)
      requires handlesOpen && !hasSocket && readable == readDeferred.Some?
      modifies this
      ensures View() == if old(readable) then Taken(old(View()), z) else old(View())
      ensures !readable && readDeferred.None? && !pollActive && !handlesOpen
      decreases hasSocket, 4
    {
      Trigger(readable, z);
      handlesOpen := false;
    }

    // Observer::Close(): the socket is gone before the poller triggers what is pending.
    method CloseObserver(z: Zmq)
      requires readable == readDeferred.Some? && (hasSocket ==> handlesOpen)
      requires !hasSocket ==> !readable && !pollActive
      modifies this
      ensures View() == Closed(old(View()))
      ensures !readable && readDeferred.None? && !pollActive
      ensures handlesOpen == (old(handlesOpen) && !old(hasSocket)) && !hasSocket
      decreases hasSocket, 0
    {
      if hasSocket {
        zmqCloses := zmqCloses + 1;
        hasSocket := false;
        PollerClose(z);
      }
    }

    method Close(z: Zmq)
      requires Valid()
      modifies this
      ensures Valid() && View() == Apply(old(View()), CloseEvent)
    {
      CloseObserver(z);
    }

    method PollReadable()
      requires !readable && handlesOpen && !pollActive
      modifies `readable, `pollActive
      ensures readable && pollActive
    {
      if !readable {
        pollActive := true;
      }
      readable := true;
    }

    method Receive(z: Zmq) returns (r: CallResult)
      requires Valid()
      modifies this
      ensures Valid() && View() == Apply(old(View()), ReceiveEvent(z))
      ensures r == if !old(hasSocket) then Threw(EBADF)
                   else if old(readDeferred.Some?) then Threw(EBUSY)
                   else Promised(old(nextPromise))
    {
      if !hasSocket {
        return Threw(EBADF);
      }
      if readDeferred.Some? {
        return Threw(EBUSY);
      }
      r := Promised(nextPromise);
      nextPromise := nextPromise + 1;
      if z.pollIn {
        Read(r.promise, z);
      } else {
        PollReadable();
        readDeferred := Some(r.promise);
      }
    }

    // Poller::Callback: the second half finds no event to write, whatever the first half did.
    method OnFd(z: Zmq)
      requires Valid() && pollActive
      modifies this
      ensures Enabled(old(View()), FdEvent(z))
      ensures Valid() && View() == Apply(old(View()), FdEvent(z))
    {
      if readable {
        if z.pollIn {
          Trigger(true, z);
        }
      }
    }
  }

  // A new observer follows every run of the abstract one.
  method Follow(es: seq<Event>, z: Zmq) returns (o: Observer)
    requires Runs(INITIAL, es)
    ensures fresh(o) && o.Valid() && o.View() == Exec(INITIAL, es)
  {
    o := new Observer();
    var i := 0;
    assert es[0..] == es;
    while i < |es|
      invariant 0 <= i <= |es| && fresh(o) && o.Valid()
      invariant Runs(o.View(), es[i..]) && Exec(o.View(), es[i..]) == Exec(INITIAL, es)
    {
      assert es[i..][1..] == es[i + 1..];
      match es[i] {
        case ReceiveEvent(answers) => var _ := o.Receive(answers);
        case CloseEvent => o.Close(z);
        case FdEvent(answers) => o.OnFd(answers);
      }
      i := i + 1;
    }
  }
}
