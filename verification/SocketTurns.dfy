/** Synchronous completion and the event loop. The source delays an operation when too many completed
    synchronously, so that JavaScript cannot keep the event loop waiting. The counter is also reset by
    the callbacks that run inside send() and receive(), and operations without a timeout are not
    counted; this module says exactly when JavaScript can go on for ever, and what bound holds
    otherwise. */
module SocketTurns {
  import opened Common
  import opened SocketSpec

  // Steps of JavaScript; all others are steps of the event loop.
  predicate FromJavaScript(e: Event) {
    e.SendEvent? || e.ReceiveEvent? || e.CloseEvent? || e.JobEvent? || e.TimeoutsEvent?
  }

  predicate IsOperation(e: Event) {
    e.SendEvent? || e.ReceiveEvent?
  }

  // The operation is settled before the call returns.
  predicate AtOnce(w: World, e: Event) {
    match e
    case SendEvent(_, z) => SendAllowed(w) && (w.sendTimeout == 0 || (z.pollOut && Immediate(w, w.sendTimeout)))
    case ReceiveEvent(z) => ReceiveAllowed(w) && (w.receiveTimeout == 0 || (z.pollIn && Immediate(w, w.receiveTimeout)))
    case _ => false
  }

  // ----- the bound for well-behaved callers ---------------------------------------------------------

  // What a caller can see before the call: the operation has a timeout, and no operation of the other
  // direction waits with the poller.
  predicate Guarded(w: World, e: Event) {
    match e
    case SendEvent(_, _) => SendAllowed(w) ==> w.sendTimeout != 0 && !w.reader.ByPoller?
    case ReceiveEvent(_) => ReceiveAllowed(w) ==> w.receiveTimeout != 0 && !w.writer.ByPoller?
    case _ => true
  }

  predicate AllGuarded(w: World, es: seq<Event>)
    requires Runs(w, es)
    decreases |es|
  {
    es == [] || (Guarded(w, es[0]) && AllGuarded(Apply(w, es[0]), es[1..]))
  }

  // How many operations completed synchronously since the event loop last did something; n of them
  // before the run.
  function InTurn(w: World, n: nat, es: seq<Event>): nat
    requires Runs(w, es)
    decreases |es|
  {
    if es == [] then n
    else
      var n' := if FromJavaScript(es[0]) then n + Bit(AtOnce(w, es[0])) else 0;
      InTurn(Apply(w, es[0]), n', es[1..])
  }

  predicate TurnOk(w: World, n: nat) {
    n <= MAX_SYNC_OPERATIONS && (w.phase == Closed || n <= w.syncOperations)
  }

  lemma OperationKeepsTurn(w: World, n: nat, e: Event)
    requires TurnOk(w, n) && IsOperation(e) && Guarded(w, e)
    ensures TurnOk(Apply(w, e), n + Bit(AtOnce(w, e)))
  {
  }

  lemma OtherCallKeepsTurn(w: World, n: nat, e: Event)
    requires TurnOk(w, n) && FromJavaScript(e) && !IsOperation(e) && Enabled(w, e)
    ensures TurnOk(Apply(w, e), n)
  {
  }

  lemma {:induction false} TurnIsBounded(w: World, n: nat, es: seq<Event>)
    requires Runs(w, es) && AllGuarded(w, es) && TurnOk(w, n)
    ensures InTurn(w, n, es) <= MAX_SYNC_OPERATIONS
    decreases |es|
  {
    if es != [] {
      var e := es[0];
      if IsOperation(e) {
        OperationKeepsTurn(w, n, e);
      } else if FromJavaScript(e) {
        OtherCallKeepsTurn(w, n, e);
      }
      TurnIsBounded(Apply(w, e), if FromJavaScript(e) then n + Bit(AtOnce(w, e)) else 0, es[1..]);
    }
  }

  // In every run of a new socket in which each operation has a timeout and none waits with the poller
  // in the other direction, at most 512 operations complete synchronously before the event loop gets
  // a turn.
  lemma AtMost512PerTurn(es: seq<Event>)
    requires Runs(INITIAL, es) && AllGuarded(INITIAL, es)
    ensures InTurn(INITIAL, 0, es) <= 512
  {
    TurnIsBounded(INITIAL, 0, es);
  }

  // ----- when JavaScript can starve the event loop --------------------------------------------------

  // Only calls of send() and receive().
  predicate Operations(es: seq<Event>) {
    forall i :: 0 <= i < |es| ==> IsOperation(es[i])
  }

  // From w, calls of send() and receive() alone can settle n promises before the event loop gets a turn.
  ghost predicate CanSettle(w: World, n: nat) {
    exists es :: Settles(w, es, n)
  }

  predicate Settles(w: World, es: seq<Event>, n: nat) {
    Operations(es) && Runs(w, es) && |Exec(w, es).log.settled| >= |w.log.settled| + n
  }

  // An operation without a timeout can be called; or one with a timeout can, the counter has not run
  // out, and no operation waits for a delayed callback.
  predicate Starvable(w: World) {
    && w.phase == Open
    && ((w.sendTimeout == 0 && w.writer == Nobody)
        || (w.receiveTimeout == 0 && w.reader == Nobody)
        || (w.syncOperations < MAX_SYNC_OPERATIONS && !w.reader.ByDelayed? && !w.writer.ByDelayed?
            && (w.reader == Nobody || w.writer == Nobody)))
  }

  function Left(w: World): nat {
    if w.syncOperations < MAX_SYNC_OPERATIONS then MAX_SYNC_OPERATIONS - w.syncOperations else 0
  }

  // Otherwise no operation wakes up the other direction, so every settled one uses up the counter.
  lemma NotStarvableStep(w: World, e: Event)
    requires !Starvable(w) && IsOperation(e)
    ensures !Starvable(Apply(w, e))
    ensures |Apply(w, e).log.settled| + Left(Apply(w, e)) <= |w.log.settled| + Left(w)
  {
  }

  lemma {:induction false} NotStarvableBound(w: World, es: seq<Event>)
    requires !Starvable(w) && Operations(es) && Runs(w, es)
    ensures |Exec(w, es).log.settled| <= |w.log.settled| + Left(w)
    decreases |es|
  {
    if es != [] {
      NotStarvableStep(w, es[0]);
      NotStarvableBound(Apply(w, es[0]), es[1..]);
    }
  }

  const NOTHING := Zmq(false, false, 0, 0, NoMessage(0))
  const READY := Zmq(true, true, 0, 0, NoMessage(0))

  // One or two calls that settle something and can be repeated.
  function Cycle(w: World): seq<Event> {
    if w.sendTimeout == 0 && w.writer == Nobody then [SendEvent([], NOTHING)]
    else if w.receiveTimeout == 0 && w.reader == Nobody then [ReceiveEvent(NOTHING)]
    else if w.reader == Nobody && w.writer == Nobody then [ReceiveEvent(NOTHING), SendEvent([], READY)]
    else if w.writer == Nobody then [SendEvent([], READY)]
    else [ReceiveEvent(READY)]
  }

  lemma RunOfOne(w: World, e: Event)
    requires Enabled(w, e)
    ensures Runs(w, [e]) && Exec(w, [e]) == Apply(w, e)
  {
    assert [e][1..] == [];
    assert Runs(Apply(w, e), []) && Exec(Apply(w, e), []) == Apply(w, e);
  }

  // Both directions are free and have a timeout: a receive waits, and a send makes it ready.
  lemma PairSettles(w: World)
    requires w.phase == Open && w.reader == Nobody && w.writer == Nobody
    requires w.sendTimeout != 0 && w.receiveTimeout != 0 && w.syncOperations < MAX_SYNC_OPERATIONS
    ensures var w1 := Receive(w, NOTHING);
            var w2 := Send(w1, [], READY);
      w2.phase == Open && w2.reader == Nobody && w2.writer == Nobody && w2.syncOperations == 0
      && |w2.log.settled| == |w.log.settled| + 2
  {
  }

  lemma OneSettles(w: World)
    requires Starvable(w)
    requires !(w.reader == Nobody && w.writer == Nobody && w.sendTimeout != 0 && w.receiveTimeout != 0)
    ensures var e := Cycle(w)[0];
      |Cycle(w)| == 1 && Enabled(w, e) && Starvable(Apply(w, e)) && |Apply(w, e).log.settled| > |w.log.settled|
  {
  }

  lemma CycleSettles(w: World)
    requires Starvable(w)
    ensures Operations(Cycle(w)) && Runs(w, Cycle(w))
    ensures var w' := Exec(w, Cycle(w)); Starvable(w') && |w'.log.settled| > |w.log.settled|
  {
    if w.reader == Nobody && w.writer == Nobody && w.sendTimeout != 0 && w.receiveTimeout != 0 {
      PairSettles(w);
      RunOfTwo(w, ReceiveEvent(NOTHING), SendEvent([], READY));
    } else {
      OneSettles(w);
      RunOfOne(w, Cycle(w)[0]);
    }
  }

  lemma {:induction false} RunsJoin(w: World, a: seq<Event>, b: seq<Event>)
    requires Runs(w, a) && Runs(Exec(w, a), b)
    ensures Runs(w, a + b) && Exec(w, a + b) == Exec(Exec(w, a), b)
    decreases |a|
  {
    if a == [] {
      assert a + b == b;
    } else {
      RunsJoin(Apply(w, a[0]), a[1..], b);
      assert (a + b)[1..] == a[1..] + b;
    }
  }

  lemma {:induction false} StarvableSettles(w: World, n: nat)
    requires Starvable(w)
    ensures CanSettle(w, n)
    decreases n
  {
    if n == 0 {
      assert Settles(w, [], 0);
    } else {
      CycleSettles(w);
      var w' := Exec(w, Cycle(w));
      StarvableSettles(w', n - 1);
      var es :| Settles(w', es, n - 1);
      RunsJoin(w, Cycle(w), es);
      assert Settles(w, Cycle(w) + es, n);
    }
  }

  // JavaScript can settle any number of promises without the event loop if and only if the state is
  // starvable; and when it is not, what is left of the counter is the bound.
  lemma StarvesIff(w: World)
    ensures (forall n: nat :: CanSettle(w, n)) <==> Starvable(w)
    ensures !Starvable(w) ==> !CanSettle(w, Left(w) + 1)
  {
    if Starvable(w) {
      forall n: nat ensures CanSettle(w, n) {
        StarvableSettles(w, n);
      }
    } else {
      forall es | Operations(es) && Runs(w, es) ensures !Settles(w, es, Left(w) + 1) {
        NotStarvableBound(w, es);
      }
      var n: nat := Left(w) + 1;
      assert !CanSettle(w, n);
    }
  }

  // So a new socket, with its default timeouts, can be used to starve the event loop.
  lemma NewSocketStarves(n: nat)
    ensures CanSettle(INITIAL, n)
  {
    StarvesIff(INITIAL);
  }
}
