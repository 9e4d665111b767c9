/** Code of the user inside send(). Between its tests and their use, send() converts the message to text,
    which calls toString() of objects and getters of arrays: any code may run there, also calls of the same
    socket, and it may throw. This module says exactly when the rest of send() still does what it
    should, and when a promise is lost. */
module SocketReentry {
  import opened Common
  import opened SocketSpec
  import opened SocketTurns
  import NativeSocket

  // ----- the rest of send() ---------------------------------------------------------------------------

  // The operation does not complete at once and its slot is taken: the pending promise and its message
  // are overwritten.
  predicate Overwrites(w: World, z: Zmq) {
    && w.writer != Nobody
    && !(w.sendTimeout == 0 || (w.phase != Closed && z.pollOut && w.syncOperations < MAX_SYNC_OPERATIONS))
  }

  // A closed socket has no poll handle and no timers any more.
  predicate PollsReleased(w: World) {
    w.phase == Closed && w.sendTimeout != 0
  }

  lemma CleanIff(w: World, z: Zmq)
    ensures RestClean(w, z) <==> !Overwrites(w, z) && !PollsReleased(w)
  {
  }

  // The promise that an overwriting send loses.
  lemma OverwrittenIsLost(w: World, parts: seq<Frame>, z: Zmq)
    requires Inv(w) && Overwrites(w, z)
    ensures w.writer.promise < |w.log.issued| && Places(SendRest(w, parts, z), w.writer.promise) == 0
  {
    ConservedAt(w, w.writer.promise);
  }

  // In whatever state the conversion left the socket, the rest of send() keeps the invariant if and only
  // if that state is clean.
  lemma RestKeepsIff(w: World, parts: seq<Frame>, z: Zmq)
    requires Inv(w)
    ensures Inv(SendRest(w, parts, z)) <==> RestClean(w, z)
  {
    if RestClean(w, z) {
      SendRestKeeps(w, parts, z);
    } else if Overwrites(w, z) {
      OverwrittenIsLost(w, parts, z);
      assert Places(SendRest(w, parts, z), w.writer.promise) + Bit(None == Some(w.writer.promise)) == 0;
    } else {
      assert SendRest(w, parts, z).writer.ByPoller? && SendRest(w, parts, z).phase == Closed;
    }
  }

  // When the conversion left the socket open: no promise is lost if and only if the slot is free or the
  // operation completes at once.
  lemma OpenRestConservesIff(w: World, parts: seq<Frame>, z: Zmq)
    requires Inv(w) && w.phase == Open
    ensures PromisesInOnePlace(SendRest(w, parts, z), None) <==>
              w.writer == Nobody || ((w.sendTimeout == 0 || z.pollOut) && Immediate(w, w.sendTimeout))
  {
    RestKeepsIff(w, parts, z);
    if !RestClean(w, z) {
      OverwrittenIsLost(w, parts, z);
      assert Places(SendRest(w, parts, z), w.writer.promise) + Bit(None == Some(w.writer.promise)) == 0;
    }
  }

  function NoSocket(parts: seq<Frame>): Outcome {
    if parts == [] then Resolved else Rejected(ENOTSOCK)
  }

  // When it closed the socket: a send without a timeout is rejected, unless it has no parts; any other
  // starts the poller with handles that are released.
  lemma ClosedRest(w: World, parts: seq<Frame>, z: Zmq)
    requires Inv(w) && w.phase == Closed
    ensures var w', p := SendRest(w, parts, z), |w.log.issued|;
      && (w.sendTimeout == 0 ==>
            && Inv(w') && w'.writer == w.writer && w'.log.wire == w.log.wire
            && w'.log.settled == w.log.settled + [Settlement(p, NoSocket(parts), [])])
      && (w.sendTimeout != 0 <==> w'.writer == ByPoller(p, parts, w.sendTimeout > 0))
  {
    RestKeepsIff(w, parts, z);
    assert w.log.wire + Marked(parts, 0) == w.log.wire;
  }

  // When it blocked the socket with a bind or unbind: the send goes on as on an open socket, and uses the
  // libzmq socket while the job runs.
  lemma BlockedRest(w: World, parts: seq<Frame>, z: Zmq)
    requires Inv(w) && w.phase == Blocked && w.writer == Nobody
    ensures Inv(SendRest(w, parts, z)) && SendRest(w, parts, z).job == w.job
    ensures SendRest(w, parts, z) == SendRest(w.(phase := Open), parts, z).(phase := Blocked)
  {
    RestKeepsIff(w, parts, z);
  }

  // ----- programs with conversions that run code ------------------------------------------------------

  // A run in which a send() may have a conversion that makes calls of the same socket, and so on to any
  // depth. A conversion may also throw, and then send() does.
  datatype Script =
    | End
    | Step(e: Event, rest: Script)
    | Convert(inner: Script, throws: bool, parts: seq<Frame>, z: Zmq, rest: Script)

  // An event that is not enabled does not happen.
  function Play(w: World, s: Script): World
    decreases s
  {
    match s
    case End => w
    case Step(e, rest) => Play(if Enabled(w, e) then Apply(w, e) else w, rest)
    case Convert(inner, throws, parts, z, rest) =>
      Play(if SendAllowed(w) then Rest(Play(w, inner), throws, parts, z) else w, rest)
  }

  // What follows the conversion.
  function Rest(w: World, throws: bool, parts: seq<Frame>, z: Zmq): World {
    if throws then w else SendRest(w, parts, z)
  }

  // The event loop does nothing while a conversion runs.
  predicate CallsOnly(s: Script) {
    match s
    case End => true
    case Step(e, rest) => FromJavaScript(e) && CallsOnly(rest)
    case Convert(inner, _, _, _, rest) => CallsOnly(inner) && CallsOnly(rest)
  }

  predicate WellFormed(s: Script) {
    match s
    case End => true
    case Step(_, rest) => WellFormed(rest)
    case Convert(inner, _, _, _, rest) => CallsOnly(inner) && WellFormed(rest)
  }

  // Every conversion that is reached leaves a clean state.
  predicate AllClean(w: World, s: Script)
    decreases s
  {
    match s
    case End => true
    case Step(e, rest) => AllClean(if Enabled(w, e) then Apply(w, e) else w, rest)
    case Convert(inner, throws, parts, z, rest) =>
      && (SendAllowed(w) ==> AllClean(w, inner) && (throws || RestClean(Play(w, inner), z)))
      && AllClean(if SendAllowed(w) then Rest(Play(w, inner), throws, parts, z) else w, rest)
  }

  // No send overwrites a pending one.
  predicate NoneOverwrites(w: World, s: Script)
    decreases s
  {
    match s
    case End => true
    case Step(e, rest) => NoneOverwrites(if Enabled(w, e) then Apply(w, e) else w, rest)
    case Convert(inner, throws, parts, z, rest) =>
      && (SendAllowed(w) ==> NoneOverwrites(w, inner) && (throws || !Overwrites(Play(w, inner), z)))
      && NoneOverwrites(if SendAllowed(w) then Rest(Play(w, inner), throws, parts, z) else w, rest)
  }

  lemma {:induction false} CleanKeeps(w: World, s: Script)
    requires Inv(w) && AllClean(w, s)
    ensures Inv(Play(w, s))
    decreases s
  {
    match s
    case End =>
    case Step(e, rest) =>
      if Enabled(w, e) {
        StepKeeps(w, e);
        CleanKeeps(Apply(w, e), rest);
      } else {
        CleanKeeps(w, rest);
      }
    case Convert(inner, throws, parts, z, rest) =>
      if SendAllowed(w) {
        CleanKeeps(w, inner);
        if !throws {
          SendRestKeeps(Play(w, inner), parts, z);
        }
        CleanKeeps(Rest(Play(w, inner), throws, parts, z), rest);
      } else {
        CleanKeeps(w, rest);
      }
  }

  // ----- counting the places of promises, also in states that are not in order ------------------------

  // Every promise has as many places after a step as before; a new one has one.
  ghost predicate Accounted(w: World, w': World) {
    forall p: nat :: Places(w', p) == Places(w, p) + Bit(|w.log.issued| <= p < |w'.log.issued|)
  }

  predicate JobBlocks(w: World) {
    w.job.Some? ==> w.phase == Blocked
  }

  lemma TakenAccounts(w: World, w': World, x: Settlement)
    requires w'.log == w.log.Settle(x) && w'.job == w.job
    requires (Owns(w.reader, x.promise) && w'.reader == Nobody && w'.writer == w.writer)
          || (Owns(w.writer, x.promise) && w'.writer == Nobody && w'.reader == w.reader)
    ensures Accounted(w, w')
  {
    forall p: nat ensures Places(w', p) == Places(w, p) {
      AppendSettled(w.log.settled, x, p);
    }
  }

  lemma FinishReadAccounts(w: World, alive: bool, z: Zmq)
    requires w.reader != Nobody
    ensures Accounted(w, FinishRead(w, alive, z))
  {
    TakenAccounts(w, FinishRead(w, alive, z), Settlement(w.reader.promise, ReceiveOutcome(alive, z), []));
  }

  lemma FinishWriteAccounts(w: World, alive: bool, z: Zmq)
    requires w.writer != Nobody
    ensures Accounted(w, FinishWrite(w, alive, z))
  {
    TakenAccounts(w, FinishWrite(w, alive, z), Sending(w.writer.promise, w.writer.parts, alive, z));
  }

  lemma Chained(w: World, w1: World, w2: World)
    requires Accounted(w, w1) && Accounted(w1, w2) && |w.log.issued| <= |w1.log.issued| <= |w2.log.issued|
    ensures Accounted(w, w2)
  {
    forall p: nat ensures Places(w2, p) == Places(w, p) + Bit(|w.log.issued| <= p < |w2.log.issued|) {
      assert Places(w1, p) == Places(w, p) + Bit(|w.log.issued| <= p < |w1.log.issued|);
      assert Places(w2, p) == Places(w1, p) + Bit(|w1.log.issued| <= p < |w2.log.issued|);
    }
  }

  lemma SameAccounts(w: World, w': World)
    requires w'.log.settled == w.log.settled && w'.log.issued == w.log.issued
    requires w'.reader == w.reader && w'.writer == w.writer && w'.job == w.job
    ensures Accounted(w, w')
  {
  }

  lemma KickReaderAccounts(w: World, z: Zmq)
    ensures Accounted(w, KickReader(w, z))
  {
    if w.reader.ByPoller? && z.pollIn {
      FinishReadAccounts(w, true, z);
    } else {
      SameAccounts(w, w);
    }
  }

  lemma KickWriterAccounts(w: World, z: Zmq)
    ensures Accounted(w, KickWriter(w, z))
  {
    if w.writer.ByPoller? && z.pollOut {
      FinishWriteAccounts(w, true, z);
    } else {
      SameAccounts(w, w);
    }
  }

  // An operation that is settled in its own call.
  lemma AtOnceAccounts(w: World, w': World, call: Call, x: Settlement)
    requires x.promise == |w.log.issued| && w'.log == w.log.Issue(call).Settle(x)
    requires w'.reader == w.reader && w'.writer == w.writer && w'.job == w.job
    ensures Accounted(w, w')
  {
    forall p: nat ensures Places(w', p) == Places(w, p) + Bit(p == |w.log.issued|) {
      AppendSettled(w.log.settled, x, p);
    }
  }

  // The rest of send() accounts for every promise but the one it overwrites.
  lemma RestAccounts(w: World, parts: seq<Frame>, z: Zmq)
    requires !Overwrites(w, z)
    ensures Accounted(w, SendRest(w, parts, z))
  {
    var p := |w.log.issued|;
    var alive := w.phase != Closed;
    var w' := SendRest(w, parts, z);
    if (w.sendTimeout == 0 || (alive && z.pollOut)) && Immediate(w, w.sendTimeout) {
      var w1 := Counted(w.(log := w.log.Issue(SendCall(parts))), w.sendTimeout);
      var w3 := Transmit(w1, p, parts, alive, z);
      AtOnceAccounts(w, w3, SendCall(parts), Sending(p, parts, alive, z));
      KickReaderAccounts(w3, z);
      if alive {
        Chained(w, w3, w');
      }
    } else {
      assert w.writer == Nobody && Owns(w'.writer, p);
    }
  }

  lemma OverwritingDrops(w: World, parts: seq<Frame>, z: Zmq, p: nat)
    requires Overwrites(w, z)
    ensures Places(SendRest(w, parts, z), p) + Bit(Owns(w.writer, p)) == Places(w, p) + Bit(p == |w.log.issued|)
  {
  }

  lemma ReceiveAccounts(w: World, z: Zmq)
    ensures Accounted(w, Receive(w, z))
  {
    var p := |w.log.issued|;
    var w' := Receive(w, z);
    if ReceiveAllowed(w) {
      if (w.receiveTimeout == 0 || z.pollIn) && Immediate(w, w.receiveTimeout) {
        var w1 := Counted(w.(log := w.log.Issue(ReceiveCall)), w.receiveTimeout);
        var w3 := Collect(w1, p, true, z);
        AtOnceAccounts(w, w3, ReceiveCall, Settlement(p, ReceiveOutcome(true, z), []));
        KickWriterAccounts(w3, z);
        Chained(w, w3, w');
      } else {
        assert Owns(w'.reader, p);
      }
    } else {
      SameAccounts(w, w);
    }
  }

  lemma CloseNowAccounts(w: World, z: Zmq)
    ensures Accounted(w, CloseNow(w, z))
  {
    if w.phase != Closed {
      var w1 := if w.reader.ByPoller? then FinishRead(w, true, z) else w;
      var w2 := Released(w, z);
      if w.reader.ByPoller? { FinishReadAccounts(w, true, z); } else { SameAccounts(w, w1); }
      if w1.writer.ByPoller? { FinishWriteAccounts(w1, true, z); } else { SameAccounts(w1, w2); }
      Chained(w, w1, w2);
      SameAccounts(w2, CloseNow(w, z));
      Chained(w, w2, CloseNow(w, z));
    } else {
      SameAccounts(w, w);
    }
  }

  lemma JobAccounts(w: World, errno: int, z: Zmq)
    requires w.job.Some?
    ensures Accounted(w, FinishJob(w, errno, z))
  {
    var w1 := w.(phase := Open, job := None);
    var w2 := if w.requestClose then CloseNow(w1, z) else w1;
    if w.requestClose { CloseNowAccounts(w1, z); } else { SameAccounts(w1, w2); }
    var x := Settlement(w.job.value, JobOutcome(errno), []);
    var w' := FinishJob(w, errno, z);
    assert w'.log == w2.log.Settle(x) && w'.reader == w2.reader && w'.writer == w2.writer && w'.job == None;
    forall p: nat ensures Places(w', p) == Places(w, p) {
      AppendSettled(w2.log.settled, x, p);
      assert Places(w2, p) == Places(w1, p);
    }
  }

  lemma StartJobAccounts(w: World, call: Call, queued: bool)
    requires JobBlocks(w)
    ensures Accounted(w, StartJob(w, call, queued))
  {
  }

  lemma StepAccounts(w: World, e: Event)
    requires JobBlocks(w) && Enabled(w, e)
    ensures Accounted(w, Apply(w, e))
  {
    match e
    case SendEvent(parts, z) => if SendAllowed(w) { RestAccounts(w, parts, z); } else { SameAccounts(w, w); }
    case ReceiveEvent(z) => ReceiveAccounts(w, z);
    case CloseEvent(z) =>
      SameAccounts(w, w.(requestClose := w.phase == Blocked));
      CloseNowAccounts(w.(requestClose := false), z);
    case JobEvent(call, queued) => StartJobAccounts(w, call, queued);
    case JobDoneEvent(errno, z) => JobAccounts(w, errno, z);
    case TimeoutsEvent(send, receive) => SameAccounts(w, w.(sendTimeout := send, receiveTimeout := receive));
    case FdReadEvent(z) => KickReaderAccounts(w, z);
    case FdWriteEvent(z) => KickWriterAccounts(w, z);
    case ReadTimerEvent(z) => FinishReadAccounts(w, true, z);
    case WriteTimerEvent(z) => FinishWriteAccounts(w, true, z);
    case DelayedReadEvent(z) => FinishReadAccounts(w, w.phase != Closed, z);
    case DelayedReadTailEvent(z) => KickWriterAccounts(w, z); SameAccounts(w, w);
    case DelayedWriteEvent(z) => FinishWriteAccounts(w, w.phase != Closed, z);
    case DelayedWriteTailEvent(z) => KickReaderAccounts(w, z); SameAccounts(w, w);
  }

  lemma StepBlocks(w: World, e: Event)
    requires JobBlocks(w) && Enabled(w, e)
    ensures JobBlocks(Apply(w, e)) && |w.log.issued| <= |Apply(w, e).log.issued|
  {
  }

  lemma RestBlocks(w: World, parts: seq<Frame>, z: Zmq)
    requires JobBlocks(w)
    ensures JobBlocks(SendRest(w, parts, z)) && |SendRest(w, parts, z).log.issued| == |w.log.issued| + 1
  {
  }

  // No promise is in two places, and none that was not made is in any.
  ghost predicate Sound(w: World) {
    JobBlocks(w) && forall p: nat :: Places(w, p) <= Bit(p < |w.log.issued|)
  }

  predicate IsLost(w: World, p: nat) {
    p < |w.log.issued| && Places(w, p) == 0
  }

  ghost predicate NoneLost(w: World) {
    forall p: nat :: !IsLost(w, p)
  }

  lemma {:induction false} PlayIsSound(w: World, s: Script)
    requires Sound(w)
    ensures Sound(Play(w, s)) && forall p: nat :: IsLost(w, p) ==> IsLost(Play(w, s), p)
    decreases s
  {
    match s
    case End =>
    case Step(e, rest) =>
      var w1 := if Enabled(w, e) then Apply(w, e) else w;
      StepIsSound(w, e);
      PlayIsSound(w1, rest);
    case Convert(inner, throws, parts, z, rest) =>
      if SendAllowed(w) {
        PlayIsSound(w, inner);
        RestIsSound(Play(w, inner), throws, parts, z);
        PlayIsSound(Rest(Play(w, inner), throws, parts, z), rest);
      } else {
        PlayIsSound(w, rest);
      }
  }

  // A step that is not a conversion loses nothing and finds nothing again.
  lemma StepIsSound(w: World, e: Event)
    requires Sound(w)
    ensures var w1 := if Enabled(w, e) then Apply(w, e) else w;
      Sound(w1) && (forall p: nat :: IsLost(w, p) ==> IsLost(w1, p)) && (NoneLost(w) ==> NoneLost(w1))
  {
    if Enabled(w, e) {
      StepAccounts(w, e);
      StepBlocks(w, e);
      AccountedIsSound(w, Apply(w, e));
    }
  }

  lemma AccountedIsSound(w: World, w': World)
    requires Sound(w) && Accounted(w, w') && JobBlocks(w') && |w.log.issued| <= |w'.log.issued|
    ensures Sound(w') && (forall p: nat :: IsLost(w, p) ==> IsLost(w', p)) && (NoneLost(w) ==> NoneLost(w'))
  {
    forall p: nat
      ensures Places(w', p) <= Bit(p < |w'.log.issued|)
      ensures IsLost(w', p) <==> IsLost(w, p)
    {
      assert Places(w', p) == Places(w, p) + Bit(|w.log.issued| <= p < |w'.log.issued|);
      assert Places(w, p) <= Bit(p < |w.log.issued|);
    }
  }

  // The rest of send() loses a promise if and only if it overwrites one.
  lemma RestIsSound(w: World, throws: bool, parts: seq<Frame>, z: Zmq)
    requires Sound(w)
    ensures var w1 := Rest(w, throws, parts, z);
      && Sound(w1) && (forall p: nat :: IsLost(w, p) ==> IsLost(w1, p))
      && (NoneLost(w1) <==> NoneLost(w) && (throws || !Overwrites(w, z)))
  {
    if !throws {
      var w1 := SendRest(w, parts, z);
      RestBlocks(w, parts, z);
      if Overwrites(w, z) {
        forall p: nat
          ensures Places(w1, p) <= Bit(p < |w1.log.issued|)
          ensures IsLost(w, p) ==> IsLost(w1, p)
        {
          OverwritingDrops(w, parts, z, p);
          assert Places(w, p) <= Bit(p < |w.log.issued|);
        }
        var q := w.writer.promise;
        OverwritingDrops(w, parts, z, q);
        assert Places(w, q) <= Bit(q < |w.log.issued|);
        assert IsLost(w1, q);
      } else {
        RestAccounts(w, parts, z);
        AccountedIsSound(w, w1);
      }
    }
  }

  // Any run, with conversions nested to any depth: at its end no promise is lost if and only if none was
  // lost before and no send overwrote a pending one. What is lost once is lost for good.
  lemma {:induction false} LosesIff(w: World, s: Script)
    requires Sound(w)
    ensures NoneLost(Play(w, s)) <==> NoneLost(w) && NoneOverwrites(w, s)
    decreases s
  {
    match s
    case End =>
    case Step(e, rest) =>
      var w1 := if Enabled(w, e) then Apply(w, e) else w;
      StepIsSound(w, e);
      LosesIff(w1, rest);
    case Convert(inner, throws, parts, z, rest) =>
      if SendAllowed(w) {
        var w1 := Play(w, inner);
        var w2 := Rest(w1, throws, parts, z);
        PlayIsSound(w, inner);
        LosesIff(w, inner);
        RestIsSound(w1, throws, parts, z);
        LosesIff(w2, rest);
      } else {
        LosesIff(w, rest);
      }
  }

  lemma ReachableIsSound(w: World)
    requires Reachable(w)
    ensures Sound(w) && NoneLost(w)
  {
    ReachableInv(w);
    forall p: nat ensures Places(w, p) == Bit(p < |w.log.issued|) {
      assert Places(w, p) + Bit(None == Some(p)) == Bit(p < |w.log.issued|);
    }
  }

  // ----- main results -----------------------------------------------------------------------------------

  // The promises of a new socket, for every program: none is lost if and only if no send overwrites one.
  lemma PromisesConservedIff(s: Script)
    requires WellFormed(s)
    ensures NoneLost(Play(INITIAL, s)) <==> NoneOverwrites(INITIAL, s)
    ensures forall p: nat :: Places(Play(INITIAL, s), p) <= Bit(p < |Play(INITIAL, s).log.issued|)
  {
    InitialIsReachable();
    ReachableIsSound(INITIAL);
    LosesIff(INITIAL, s);
    PlayIsSound(INITIAL, s);
  }

  lemma InitialIsReachable()
    ensures Reachable(INITIAL)
  {
    assert Runs(INITIAL, []) && Exec(INITIAL, []) == INITIAL;
  }

  // And for programs whose conversions leave a clean state the whole invariant holds at the end.
  lemma CleanProgramsKeep(s: Script)
    requires WellFormed(s) && AllClean(INITIAL, s)
    ensures Inv(Play(INITIAL, s)) && NoneOverwrites(INITIAL, s)
  {
    InitialIsReachable();
    ReachableInv(INITIAL);
    CleanKeeps(INITIAL, s);
    CleanOverwritesNothing(INITIAL, s);
  }

  lemma {:induction false} CleanOverwritesNothing(w: World, s: Script)
    requires AllClean(w, s)
    ensures NoneOverwrites(w, s)
    decreases s
  {
    match s
    case End =>
    case Step(e, rest) => CleanOverwritesNothing(if Enabled(w, e) then Apply(w, e) else w, rest);
    case Convert(inner, throws, parts, z, rest) =>
      if SendAllowed(w) {
        CleanOverwritesNothing(w, inner);
        CleanIff(Play(w, inner), z);
        CleanOverwritesNothing(Rest(Play(w, inner), throws, parts, z), rest);
      } else {
        CleanOverwritesNothing(w, rest);
      }
  }

  // A conversion that calls neither send() nor close() on the socket.
  predicate Harmless(s: Script) {
    match s
    case End => true
    case Step(e, rest) => (e.ReceiveEvent? || e.JobEvent? || e.TimeoutsEvent?) && Harmless(rest)
    case Convert(_, _, _, _, _) => false
  }

  predicate HarmlessConversions(s: Script) {
    match s
    case End => true
    case Step(_, rest) => HarmlessConversions(rest)
    case Convert(inner, _, _, _, rest) => Harmless(inner) && HarmlessConversions(rest)
  }

  lemma {:induction false} HarmlessLeavesClean(w: World, s: Script)
    requires Harmless(s) && w.phase != Closed && w.writer == Nobody
    ensures Play(w, s).phase != Closed && Play(w, s).writer == Nobody && AllClean(w, s)
    decreases s
  {
    match s
    case End =>
    case Step(e, rest) => HarmlessLeavesClean(if Enabled(w, e) then Apply(w, e) else w, rest);
  }

  // For callers whose conversions are harmless, and so for all whose conversions run no code on the
  // socket, every program keeps the invariant.
  lemma {:induction false} HarmlessIsClean(w: World, s: Script)
    requires HarmlessConversions(s)
    ensures AllClean(w, s)
    decreases s
  {
    match s
    case End =>
    case Step(e, rest) => HarmlessIsClean(if Enabled(w, e) then Apply(w, e) else w, rest);
    case Convert(inner, throws, parts, z, rest) =>
      if SendAllowed(w) {
        HarmlessLeavesClean(w, inner);
        HarmlessIsClean(Rest(Play(w, inner), throws, parts, z), rest);
      } else {
        HarmlessIsClean(w, rest);
      }
  }

  // A conversion that runs no code on the socket makes the plain send().
  lemma NoCodeIsPlain(w: World, parts: seq<Frame>, z: Zmq, rest: Script)
    ensures Play(w, Convert(End, false, parts, z, rest)) == Play(w, Step(SendEvent(parts, z), rest))
  {
    assert Play(w, End) == w;
  }

  // On a new socket that libzmq cannot send on, a message whose conversion sends another one: the promise
  // of the inner send is neither settled nor pending.
  lemma InnerSendIsLost(a: seq<Frame>, b: seq<Frame>)
    ensures var s := Convert(Step(SendEvent(a, NOTHING), End), false, b, NOTHING, End);
      && WellFormed(s) && !NoneOverwrites(INITIAL, s)
      && |Play(INITIAL, s).log.issued| == 2 && !Pending(Play(INITIAL, s), 0)
      && TimesSettled(Play(INITIAL, s).log.settled, 0) == 0
      && Play(INITIAL, s).writer == ByPoller(1, b, false)
  {
    var w := Apply(INITIAL, SendEvent(a, NOTHING));
    assert Play(w, End) == w;
    assert Play(INITIAL, Step(SendEvent(a, NOTHING), End)) == w;
  }

  // The native socket plays every clean program, with all the assertions of the source.
  method PlayOn(socket: NativeSocket.Socket, program: Script)
    requires socket.Valid() && AllClean(socket.View(), program)
    modifies socket
    ensures socket.Valid() && socket.View() == Play(old(socket.View()), program)
    decreases program
  {
    match program {
      case End =>
      case Step(e, rest) =>
        var armed := socket.IsArmed(e);
        if armed {
          socket.Dispatch(e);
        }
        PlayOn(socket, rest);
      case Convert(inner, throws, parts, z, rest) =>
        var refused := socket.TestSend();
        if refused.None? {
          PlayOn(socket, inner);
          if !throws {
            var _ := socket.SendRest(parts, z);
          }
        }
        PlayOn(socket, rest);
    }
  }
}
