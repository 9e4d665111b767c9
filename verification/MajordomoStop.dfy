/** What stopping a worker comes to. stop() sends DISCONNECT, waits, and then closes the socket; in between
    the worker's loop goes on and may send a reply. The broker handles that reply after the DISCONNECT and
    lists the worker again. This module says when a stopped worker is really left alone. */
module MajordomoStop {
  import opened Common
  import opened MajordomoSpec
  import opened MajordomoProofs

  // The broker has handled the DISCONNECT of worker w.
  predicate Handled(s: System, w: Id) {
    w in s.workers && s.workers[w].phase != Running && Disconnect !in At(s.up, w)
  }

  predicate Idle(s: System, w: Id) {
    w in s.workers && w in Svc(s, s.workers[w].service).idle
  }

  predicate IsReplyOf(e: Event, w: Id) {
    e.WorkerReplies? && e.worker == w
  }

  // Worker w was stopped and has not replied since: nothing follows DISCONNECT in its channel, and once
  // that is handled the worker is not listed.
  predicate NoLate(s: System, w: Id) {
    && w in s.workers && s.workers[w].phase != Running
    && (var us := At(s.up, w); us == [] || us == [Disconnect] || (|us| == 2 && us[1] == Disconnect))
    && (Handled(s, w) ==> !Idle(s, w))
  }

  // Worker w replied after DISCONNECT, and the broker has not handled that.
  predicate LatePending(s: System, w: Id) {
    && w in s.workers && s.workers[w].phase != Running
    && (var us := At(s.up, w); (|us| == 1 && us[0].Replied?) || (|us| == 2 && us[0] == Disconnect && us[1].Replied?))
  }

  // ----- what a step does to one worker -----------------------------------------------------------------

  // Worker w keeps its channel to the broker and its service, it is not listed, and only if it is idle it
  // may get a request.
  predicate Aside(s: System, s': System, w: Id) {
    && w in s.workers && w in s'.workers && s'.workers[w].service == s.workers[w].service
    && (s.workers[w].phase != Running ==> s'.workers[w].phase != Running)
    && (s.workers[w].phase == Closed ==> s'.workers[w].phase == Closed)
    && At(s'.up, w) == At(s.up, w)
    && (Idle(s', w) ==> Idle(s, w))
    && (!Idle(s, w) ==> Shrinks(At(s.down, w), At(s'.down, w)))
  }

  predicate Shrinks(before: seq<Request>, after: seq<Request>) {
    after == before || (before != [] && after == before[1..])
  }

  lemma DispatchAside(s: System, s1: System, n: Name, w: Id)
    requires w in s.workers && s1.workers == s.workers && s1.down == s.down && At(s1.up, w) == At(s.up, w)
    requires w in Svc(s1, s.workers[w].service).idle ==> Idle(s, w)
    requires n != s.workers[w].service ==> w !in Svc(s1, n).idle
    ensures Aside(s, Dispatch(s1, n), w)
  {
    DispatchIdle(s1, n, s.workers[w].service, w);
    if w !in Svc(s1, n).idle {
      DispatchSkips(s1, n, w);
    }
  }

  lemma DispatchIdle(s: System, n: Name, m: Name, w: Id)
    ensures w in Svc(Dispatch(s, n), m).idle ==> w in Svc(s, m).idle
    ensures Dispatch(s, n).up == s.up && Dispatch(s, n).workers == s.workers
  {
  }

  lemma ReadyAside(s: System, x: Id, n: Name, w: Id)
    requires WorkerOk(s, w) && w in s.workers && x != w && At(s.up, x) != [] && s.up[x][0] == Ready(n)
    ensures Aside(s, Dispatch(ReadyTaken(s, x), n), w)
  {
    ListedHas(Svc(s, n), x);
    DispatchAside(s, ReadyTaken(s, x), n, w);
  }

  lemma ReplyAside(s: System, x: Id, n: Name, w: Id)
    requires WorkerOk(s, w) && w in s.workers && x != w && At(s.up, x) != [] && s.up[x][0].Replied?
    ensures Aside(s, ReplyTaken(s, x, n), w)
  {
    ListedHas(Svc(s, n), x);
  }

  lemma DisconnectAside(s: System, x: Id, n: Name, w: Id)
    requires WorkerOk(s, w) && w in s.workers && x != w && At(s.up, x) != []
    ensures Aside(s, Dispatch(DisconnectTaken(s, x, n), n), w)
  {
    DispatchAside(s, DisconnectTaken(s, x, n), n, w);
  }

  lemma MessageAside(s: System, x: Id, w: Id)
    requires Inv(s) && w in s.workers && x != w && Enabled(s, BrokerGetsMessage(x))
    ensures Aside(s, Apply(s, BrokerGetsMessage(x)), w)
  {
    assert WorkerOk(s, w);
    if !s.up[x][0].Ready? {
      OwnerKnown(s, x);
    }
    match s.up[x][0]
    case Ready(n) => ReadyAside(s, x, n, w);
    case Replied(_) => ReplyAside(s, x, s.owner[x], w);
    case Disconnect => DisconnectAside(s, x, s.owner[x], w);
  }

  lemma CallAside(s: System, c: Id, w: Id)
    requires Inv(s) && w in s.workers && Enabled(s, BrokerGetsCall(c))
    ensures Aside(s, Apply(s, BrokerGetsCall(c)), w)
  {
    assert WorkerOk(s, w);
    DispatchAside(s, CallQueued(s, c), s.calls[c][0].service, w);
  }

  lemma LoopAside(s: System, n: Name, w: Id)
    requires Inv(s) && w in s.workers && Enabled(s, LoopResumes(n))
    ensures Aside(s, Apply(s, LoopResumes(n)), w)
  {
    assert WorkerOk(s, w);
    DispatchAside(s, LoopGone(s, n), n, w);
  }

  lemma ResumeAside(s: System, n: Name, w: Id)
    requires Inv(s) && w in s.workers && Enabled(s, ReplyResumes(n))
    ensures Aside(s, Apply(s, ReplyResumes(n)), w)
  {
    assert WorkerOk(s, w);
    DispatchAside(s, ReplyGone(s, n), n, w);
  }

  lemma ElsewhereAside(s: System, e: Event, w: Id)
    requires Inv(s) && Enabled(s, e) && w in s.workers && s.workers[w].phase != Running && !IsReplyOf(e, w)
    requires !e.BrokerGetsCall? && !e.BrokerGetsMessage? && !e.LoopResumes? && !e.ReplyResumes?
    ensures Aside(s, Apply(s, e), w)
  {
  }

  // A stopped worker stands aside from every step but its own replies and what the broker hears from it.
  lemma StepAside(s: System, e: Event, w: Id)
    requires Inv(s) && Enabled(s, e) && w in s.workers && s.workers[w].phase != Running
    requires !IsReplyOf(e, w) && e != BrokerGetsMessage(w)
    ensures Aside(s, Apply(s, e), w)
  {
    match e
    case BrokerGetsCall(c) => CallAside(s, c, w);
    case BrokerGetsMessage(x) => MessageAside(s, x, w);
    case LoopResumes(n) => LoopAside(s, n, w);
    case ReplyResumes(n) => ResumeAside(s, n, w);
    case _ => ElsewhereAside(s, e, w);
  }

  // The broker handles the DISCONNECT of w, or its last message before.
  lemma OwnDisconnect(s: System, w: Id)
    requires Inv(s) && At(s.up, w) != [] && s.up[w][0].Disconnect? && !s.crashed
    ensures var s' := BrokerGetsUp(s, w);
      && w in s'.workers && s'.workers == s.workers && At(s'.up, w) == s.up[w][1..] && !Idle(s', w)
  {
    OwnerKnown(s, w);
    var n := s.owner[w];
    DispatchIdle(DisconnectTaken(s, w, n), n, n, w);
  }

  lemma OwnMessage(s: System, w: Id)
    requires Inv(s) && At(s.up, w) != []
    ensures var s' := BrokerGetsUp(s, w);
      s'.workers == s.workers && At(s'.up, w) == s.up[w][1..]
    ensures s.up[w][0].Replied? ==> Idle(BrokerGetsUp(s, w), w)
  {
    if !s.up[w][0].Ready? {
      OwnerKnown(s, w);
    }
    match s.up[w][0]
    case Ready(n) => DispatchIdle(ReadyTaken(s, w), n, n, w);
    case Replied(_) => OwnReply(s, w);
    case Disconnect => OwnDisconnect(s, w);
  }

  lemma OwnReply(s: System, w: Id)
    requires Inv(s) && At(s.up, w) != [] && s.up[w][0].Replied?
    ensures var s' := BrokerGetsUp(s, w);
      s'.workers == s.workers && At(s'.up, w) == s.up[w][1..] && Idle(s', w)
  {
    OwnerKnown(s, w);
    ListedHas(Svc(s, s.owner[w]), w);
  }

  // ----- a worker that does not reply after DISCONNECT --------------------------------------------------

  lemma NoLateStep(s: System, e: Event, w: Id)
    requires Inv(s) && Enabled(s, e) && NoLate(s, w) && !IsReplyOf(e, w)
    ensures NoLate(Apply(s, e), w)
    ensures Handled(s, w) ==> Handled(Apply(s, e), w) && Shrinks(At(s.down, w), At(Apply(s, e).down, w))
  {
    if e == BrokerGetsMessage(w) {
      assert WorkerOk(s, w);
      assert s.up[w] == [s.up[w][0]] + s.up[w][1..];
      OwnMessage(s, w);
      if s.up[w][0].Disconnect? {
        OwnDisconnect(s, w);
      }
    } else {
      StepAside(s, e, w);
    }
  }

  predicate NoReply(es: seq<Event>, w: Id) {
    forall i :: 0 <= i < |es| ==> !IsReplyOf(es[i], w)
  }

  lemma ClosedStays(s: System, e: Event, w: Id)
    requires Inv(s) && Enabled(s, e) && w in s.workers && s.workers[w].phase == Closed
    ensures !IsReplyOf(e, w) && w in Apply(s, e).workers && Apply(s, e).workers[w].phase == Closed
  {
    if e == BrokerGetsMessage(w) {
      OwnMessage(s, w);
    } else {
      StepAside(s, e, w);
    }
  }

  // Once the DISCONNECT of a worker that sent nothing after it is handled, no run lists the worker or hands
  // it anything, unless it replies: what is on the way to it only gets less.
  lemma {:induction false} NothingAfterDisconnect(s: System, es: seq<Event>, w: Id)
    requires Inv(s) && Runs(s, es) && NoLate(s, w) && Handled(s, w)
    requires NoReply(es, w) || s.workers[w].phase == Closed
    ensures var s' := Exec(s, es);
      && Handled(s', w) && !Idle(s', w)
      && exists k :: 0 <= k <= |At(s.down, w)| && At(s'.down, w) == At(s.down, w)[k..]
    decreases |es|
  {
    if es == [] {
      assert At(s.down, w)[0..] == At(s.down, w);
    } else {
      var e, s1 := es[0], Apply(s, es[0]);
      if s.workers[w].phase == Closed {
        ClosedStays(s, e, w);
      }
      NoLateStep(s, e, w);
      StepKeeps(s, e);
      NothingAfterDisconnect(s1, es[1..], w);
      var k :| 0 <= k <= |At(s1.down, w)| && At(Exec(s1, es[1..]).down, w) == At(s1.down, w)[k..];
      if At(s1.down, w) == At(s.down, w) {
        assert At(Exec(s, es).down, w) == At(s.down, w)[k..];
      } else {
        assert At(s.down, w)[1..][k..] == At(s.down, w)[k + 1..];
      }
    }
  }

  // ----- when the broker lists a stopped worker again ------------------------------------------------------

  // At some moment of the run w is listed although its DISCONNECT was handled.
  predicate ListedAgain(s: System, es: seq<Event>, w: Id)
    requires Runs(s, es)
    decreases |es|
  {
    (Handled(s, w) && Idle(s, w)) || (es != [] && ListedAgain(Apply(s, es[0]), es[1..], w))
  }

  lemma {:induction false} NoLateIsNotListed(s: System, es: seq<Event>, w: Id)
    requires Inv(s) && Runs(s, es) && NoLate(s, w) && (NoReply(es, w) || s.workers[w].phase == Closed)
    ensures !ListedAgain(s, es, w) && NoLate(Exec(s, es), w) && Inv(Exec(s, es))
    decreases |es|
  {
    if es != [] {
      if s.workers[w].phase == Closed {
        ClosedStays(s, es[0], w);
      }
      NoLateStep(s, es[0], w);
      StepKeeps(s, es[0]);
      NoLateIsNotListed(Apply(s, es[0]), es[1..], w);
    }
  }

  lemma LateStep(s: System, e: Event, w: Id)
    requires Inv(s) && Enabled(s, e) && LatePending(s, w)
    ensures LatePending(Apply(s, e), w) || (Handled(Apply(s, e), w) && Idle(Apply(s, e), w))
  {
    assert WorkerOk(s, w);
    if e == BrokerGetsMessage(w) {
      OwnMessage(s, w);
    } else {
      StepAside(s, e, w);
    }
  }

  lemma {:induction false} LateIsListedOrPending(s: System, es: seq<Event>, w: Id)
    requires Inv(s) && Runs(s, es) && LatePending(s, w)
    ensures ListedAgain(s, es, w) || LatePending(Exec(s, es), w)
    decreases |es|
  {
    if es != [] {
      LateStep(s, es[0], w);
      StepKeeps(s, es[0]);
      if LatePending(Apply(s, es[0]), w) {
        LateIsListedOrPending(Apply(s, es[0]), es[1..], w);
      } else {
        assert ListedAgain(Apply(s, es[0]), es[1..], w);
      }
    }
  }

  lemma ReplyIsLate(s: System, w: Id, body: Body)
    requires Inv(s) && CanReply(s, w) && s.workers[w].phase == Stopping
    ensures LatePending(Answered(s, w, body), w)
  {
    assert WorkerOk(s, w);
  }

  lemma FirstStep(s: System, e: Event, rest: seq<Event>, w: Id)
    requires Enabled(s, e) && Runs(Apply(s, e), rest)
    ensures Runs(s, [e] + rest) && Exec(s, [e] + rest) == Exec(Apply(s, e), rest)
    ensures ListedAgain(s, [e] + rest, w) <==> (Handled(s, w) && Idle(s, w)) || ListedAgain(Apply(s, e), rest, w)
  {
    hide Apply, Enabled;
    assert ([e] + rest)[1..] == rest;
  }

  lemma {:induction false} RunsJoin(s: System, a: seq<Event>, b: seq<Event>)
    requires Runs(s, a) && Runs(Exec(s, a), b)
    ensures Runs(s, a + b) && Exec(s, a + b) == Exec(Exec(s, a), b)
    decreases |a|
  {
    hide Apply, Enabled;
    if a == [] {
      assert a + b == b;
    } else {
      var e, rest := a[0], a[1..];
      RunsJoin(Apply(s, e), rest, b);
      FirstStep(s, e, rest + b, []);
      assert a + b == [e] + (rest + b);
    }
  }

  lemma {:induction false} ListedJoins(s: System, a: seq<Event>, b: seq<Event>, w: Id)
    requires Runs(s, a) && Runs(Exec(s, a), b)
    ensures Runs(s, a + b)
    ensures ListedAgain(s, a, w) || ListedAgain(Exec(s, a), b, w) ==> ListedAgain(s, a + b, w)
    decreases |a|
  {
    hide Apply, Enabled;
    RunsJoin(s, a, b);
    if a == [] {
      assert a + b == b;
      assert ListedAgain(s, a, w) ==> Handled(s, w) && Idle(s, w);
    } else {
      var e, rest := a[0], a[1..];
      ListedJoins(Apply(s, e), rest, b, w);
      FirstStep(s, e, rest, w);
      FirstStep(s, e, rest + b, w);
      assert a == [e] + rest && a + b == [e] + (rest + b);
    }
  }

  // What the broker still has to hear.
  function Hear(s: System, w: Id): seq<Event> {
    if |At(s.up, w)| == 2 then [BrokerGetsMessage(w), BrokerGetsMessage(w)] else [BrokerGetsMessage(w)]
  }

  lemma HearingLists(s: System, w: Id)
    requires Inv(s) && LatePending(s, w)
    ensures Runs(s, Hear(s, w)) && ListedAgain(s, Hear(s, w), w)
  {
    var e := BrokerGetsMessage(w);
    var s1 := Apply(s, e);
    OwnMessage(s, w);
    StepKeeps(s, e);
    if |At(s.up, w)| == 2 {
      assert At(s1.up, w) == [s.up[w][1]];
      OwnMessage(s1, w);
      StepKeeps(s1, e);
      var s2 := Apply(s1, e);
      assert Handled(s2, w) && Idle(s2, w);
      assert [e, e][1..] == [e] && [e][1..] == [];
      assert Runs(s2, []) && ListedAgain(s2, [], w);
      assert Runs(s1, [e]) && ListedAgain(s1, [e], w);
    } else {
      assert Handled(s1, w) && Idle(s1, w);
      assert [e][1..] == [];
      assert Runs(s1, []) && ListedAgain(s1, [], w);
    }
  }

  // Some continuation of the run es lists w again.
  ghost predicate CanBeListed(s: System, es: seq<Event>, w: Id) {
    exists more :: AgainAfterClosing(s, es + more, w)
  }

  predicate AgainAfterClosing(s: System, es: seq<Event>, w: Id) {
    Runs(s, es) && ListedAgain(s, es, w)
  }

  lemma OneStepEarlier(s: System, es: seq<Event>, w: Id)
    requires es != [] && Enabled(s, es[0]) && CanBeListed(Apply(s, es[0]), es[1..], w)
    ensures CanBeListed(s, es, w)
  {
    var more :| AgainAfterClosing(Apply(s, es[0]), es[1..] + more, w);
    assert (es + more)[1..] == es[1..] + more;
    assert AgainAfterClosing(s, es + more, w);
  }

  lemma LateCanBeListed(s: System, es: seq<Event>, w: Id)
    requires Inv(s) && Runs(s, es) && LatePending(s, w)
    ensures CanBeListed(s, es, w)
  {
    LateIsListedOrPending(s, es, w);
    var s2 := Exec(s, es);
    RunKeeps(s, es);
    if LatePending(s2, w) {
      HearingLists(s2, w);
      ListedJoins(s, es, Hear(s2, w), w);
      assert AgainAfterClosing(s, es + Hear(s2, w), w);
    } else {
      assert es + [] == es;
      assert AgainAfterClosing(s, es + [], w);
    }
  }

  // In the run es a stopping worker replies: then it is listed again, in es or soon after.
  lemma {:induction false} ReplyingIsListed(s: System, es: seq<Event>, w: Id)
    requires Inv(s) && Runs(s, es) && w in s.workers && s.workers[w].phase == Stopping && !NoReply(es, w)
    ensures CanBeListed(s, es, w)
    decreases |es|
  {
    var e, s1 := es[0], Apply(s, es[0]);
    StepKeeps(s, e);
    if IsReplyOf(e, w) {
      ReplyIsLate(s, w, e.body);
      LateCanBeListed(s1, es[1..], w);
    } else {
      assert !NoReply(es[1..], w) by {
        var i :| 0 <= i < |es| && IsReplyOf(es[i], w);
        assert es[1..][i - 1] == es[i];
      }
      StillStopping(s, e, es[1..], w);
      ReplyingIsListed(s1, es[1..], w);
    }
    OneStepEarlier(s, es, w);
  }

  // A closed worker replies no more, so one that does was not closed.
  lemma StillStopping(s: System, e: Event, rest: seq<Event>, w: Id)
    requires Inv(s) && Enabled(s, e) && w in s.workers && s.workers[w].phase == Stopping && !IsReplyOf(e, w)
    requires Runs(Apply(s, e), rest) && !NoReply(rest, w)
    ensures w in Apply(s, e).workers && Apply(s, e).workers[w].phase == Stopping
  {
    var s1 := Apply(s, e);
    StepKeeps(s, e);
    if e == BrokerGetsMessage(w) {
      OwnMessage(s, w);
    } else {
      StepAside(s, e, w);
      if s1.workers[w].phase == Closed {
        ClosedRepliesNot(s1, rest, w);
      }
    }
  }

  lemma {:induction false} ClosedRepliesNot(s: System, es: seq<Event>, w: Id)
    requires Inv(s) && Runs(s, es) && w in s.workers && s.workers[w].phase == Closed
    ensures NoReply(es, w)
    decreases |es|
  {
    if es != [] {
      ClosedStays(s, es[0], w);
      StepKeeps(s, es[0]);
      ClosedRepliesNot(Apply(s, es[0]), es[1..], w);
      forall i | 0 <= i < |es| ensures !IsReplyOf(es[i], w) {
        if i > 0 {
          assert es[1..][i - 1] == es[i];
        }
      }
    }
  }

  lemma StoppedIsNoLate(s: System, w: Id)
    requires Inv(s) && CanStop(s, w)
    ensures NoLate(Stopped(s, w), w) && Stopped(s, w).workers[w].phase == Stopping
  {
    assert WorkerOk(s, w);
    var us := At(s.up, w);
    assert (us + [Disconnect])[|us|] == Disconnect;
  }

  // A running worker is stopped; es is what happens until its socket is closed. Some continuation makes the
  // broker list the worker after it handled the DISCONNECT, if and only if the worker replies in es.
  lemma StopIsFinalIff(s: System, es: seq<Event>, w: Id)
    requires Reachable(s) && CanStop(s, w) && !s.crashed
    requires Runs(Stopped(s, w), es) && CanClose(Exec(Stopped(s, w), es), w) && !Exec(Stopped(s, w), es).crashed
    ensures CanBeListed(Stopped(s, w), es + [WorkerCloses(w)], w) <==> !NoReply(es, w)
  {
    ReachableInv(s);
    StepKeeps(s, WorkerStops(w));
    var s1 := Stopped(s, w);
    StoppedIsNoLate(s, w);
    var all := es + [WorkerCloses(w)];
    JoinClose(s1, es, w);
    if NoReply(es, w) {
      forall more ensures !AgainAfterClosing(s1, all + more, w) {
        if Runs(s1, all + more) {
          NeverReplies(s1, all, more, w);
          NoLateIsNotListed(s1, all + more, w);
        }
      }
    } else {
      assert !NoReply(all, w) by {
        var i :| 0 <= i < |es| && IsReplyOf(es[i], w);
        assert all[i] == es[i];
      }
      ReplyingIsListed(s1, all, w);
    }
  }

  lemma JoinClose(s: System, es: seq<Event>, w: Id)
    requires Runs(s, es) && CanClose(Exec(s, es), w) && !Exec(s, es).crashed
    ensures Runs(s, es + [WorkerCloses(w)])
    ensures Exec(s, es + [WorkerCloses(w)]) == Dropped(Exec(s, es), w, Closed)
  {
    var e, s1 := WorkerCloses(w), Exec(s, es);
    assert [e][1..] == [];
    assert Runs(Apply(s1, e), []) && Exec(Apply(s1, e), []) == Apply(s1, e);
    assert Runs(s1, [e]) && Exec(s1, [e]) == Apply(s1, e);
    RunsJoin(s, es, [e]);
  }

  // No reply before the socket is closed, and none after.
  lemma NeverReplies(s: System, all: seq<Event>, more: seq<Event>, w: Id)
    requires Inv(s) && Runs(s, all) && Runs(s, all + more) && NoReply(all, w)
    requires w in Exec(s, all).workers && Exec(s, all).workers[w].phase == Closed
    ensures NoReply(all + more, w)
  {
    RunsSplit(s, all, more);
    RunKeeps(s, all);
    ClosedRepliesNot(Exec(s, all), more, w);
  }

  lemma {:induction false} RunsSplit(s: System, a: seq<Event>, b: seq<Event>)
    requires Runs(s, a) && Runs(s, a + b)
    ensures Runs(Exec(s, a), b)
    decreases |a|
  {
    if a == [] {
      assert a + b == b;
    } else {
      assert (a + b)[1..] == a[1..] + b;
      RunsSplit(Apply(s, a[0]), a[1..], b);
    }
  }

  // ----- what it costs --------------------------------------------------------------------------------------

  // What is on the way to a closed worker never leaves its channel.
  lemma {:induction false} StuckForGood(s: System, es: seq<Event>, w: Id)
    requires Inv(s) && Runs(s, es) && w in s.workers && s.workers[w].phase == Closed
    ensures At(s.down, w) <= At(Exec(s, es).down, w)
    decreases |es|
  {
    if es != [] {
      ClosedKeepsDown(s, es[0], w);
      ClosedStays(s, es[0], w);
      StepKeeps(s, es[0]);
      StuckForGood(Apply(s, es[0]), es[1..], w);
    }
  }

  lemma ClosedKeepsDown(s: System, e: Event, w: Id)
    requires Inv(s) && Enabled(s, e) && w in s.workers && s.workers[w].phase == Closed
    ensures At(s.down, w) <= At(Apply(s, e).down, w)
  {
    match e
    case BrokerGetsCall(c) => DispatchAddsDown(CallQueued(s, c), s.calls[c][0].service, w);
    case BrokerGetsMessage(x) => MessageAddsDown(s, x, w);
    case LoopResumes(n) => DispatchAddsDown(LoopGone(s, n), n, w);
    case ReplyResumes(n) => DispatchAddsDown(ReplyGone(s, n), n, w);
    case _ => ElsewhereKeepsDown(s, e, w);
  }

  lemma ElsewhereKeepsDown(s: System, e: Event, w: Id)
    requires Inv(s) && Enabled(s, e) && w in s.workers && s.workers[w].phase == Closed
    requires !e.BrokerGetsCall? && !e.BrokerGetsMessage? && !e.LoopResumes? && !e.ReplyResumes?
    ensures At(Apply(s, e).down, w) == At(s.down, w)
  {
  }

  lemma DispatchAddsDown(s: System, n: Name, w: Id)
    ensures At(s.down, w) <= At(Dispatch(s, n).down, w)
  {
  }

  lemma ReadyAddsDown(s: System, x: Id, n: Name, w: Id)
    requires At(s.up, x) != [] && s.up[x][0] == Ready(n)
    ensures At(s.down, w) <= At(BrokerGetsUp(s, x).down, w)
  {
    DispatchAddsDown(ReadyTaken(s, x), n, w);
  }

  lemma ReplyAddsDown(s: System, x: Id, w: Id)
    requires At(s.up, x) != [] && s.up[x][0].Replied? && x in s.owner
    ensures At(s.down, w) <= At(BrokerGetsUp(s, x).down, w)
  {
  }

  lemma DisconnectAddsDown(s: System, x: Id, w: Id)
    requires At(s.up, x) != [] && s.up[x][0].Disconnect? && x in s.owner
    ensures At(s.down, w) <= At(BrokerGetsUp(s, x).down, w)
  {
    DispatchAddsDown(DisconnectTaken(s, x, s.owner[x]), s.owner[x], w);
  }

  lemma MessageAddsDown(s: System, x: Id, w: Id)
    requires Inv(s) && Enabled(s, BrokerGetsMessage(x))
    ensures At(s.down, w) <= At(Apply(s, BrokerGetsMessage(x)).down, w)
  {
    if s.up[x][0].Ready? {
      ReadyAddsDown(s, x, s.up[x][0].service, w);
    } else {
      OwnerKnown(s, x);
      if s.up[x][0].Replied? {
        ReplyAddsDown(s, x, w);
      } else {
        DisconnectAddsDown(s, x, w);
      }
    }
  }

  // ----- a run in which it happens -----------------------------------------------------------------------------

  // One worker of one service, and one client; what matters of the system.
  datatype Scene = Scene(up: seq<Up>, down: seq<Request>, idle: seq<Id>, queue: seq<Request>, worker: Worker)

  predicate Shows(s: System, w: Id, n: Name, c: Id, x: Scene) {
    && !s.crashed && w in s.workers && s.workers[w] == x.worker && x.worker.service == n
    && At(s.up, w) == x.up && At(s.down, w) == x.down && At(s.calls, c) == []
    && Svc(s, n).idle == x.idle && Svc(s, n).queue == x.queue
    && ((x.up == [] || !x.up[0].Ready?) ==> w in s.owner && s.owner[w] == n)
  }

  lemma WorkerJoins(w: Id, n: Name, c: Id)
    ensures var es := [WorkerStarts(w, n), BrokerGetsMessage(w)];
      Runs(START, es) && Shows(Exec(START, es), w, n, c, Scene([], [], [w], [], Worker(n, None, Running)))
  {
    var s1 := Apply(START, WorkerStarts(w, n));
    assert At(s1.up, w) == [Ready(n)];
    TwoSteps(START, WorkerStarts(w, n), BrokerGetsMessage(w));
  }

  lemma TwoSteps(s: System, a: Event, b: Event)
    requires Enabled(s, a) && Enabled(Apply(s, a), b)
    ensures Runs(s, [a, b]) && Exec(s, [a, b]) == Apply(Apply(s, a), b)
  {
    var s1, s2 := Apply(s, a), Apply(Apply(s, a), b);
    assert [a, b][1..] == [b] && [b][1..] == [];
    assert Runs(s2, []) && Exec(s2, []) == s2;
    assert Runs(s1, [b]) && Exec(s1, [b]) == s2;
  }

  // A call of an idle worker's service is handed to it.
  lemma CallIsHanded(s: System, w: Id, n: Name, c: Id, body: Body, k: Worker)
    requires Shows(s, w, n, c, Scene([], [], [w], [], k))
    ensures var es := [ClientCalls(c, n, body), BrokerGetsCall(c)];
      Runs(s, es) && Shows(Exec(s, es), w, n, c, Scene([], [Request(|s.issued|, c, n, body)], [], [], k))
  {
    var s1 := Apply(s, ClientCalls(c, n, body));
    var q := Request(|s.issued|, c, n, body);
    assert At(s1.calls, c) == [q];
    TwoSteps(s, ClientCalls(c, n, body), BrokerGetsCall(c));
  }

  // The worker takes the request and is stopped.
  lemma TakesAndStops(s: System, w: Id, n: Name, c: Id, q: Request)
    requires Shows(s, w, n, c, Scene([], [q], [], [], Worker(n, None, Running)))
    ensures var es := [WorkerTakes(w), WorkerStops(w)];
      Runs(s, es) && Shows(Exec(s, es), w, n, c, Scene([Disconnect], [], [], [], Worker(n, Some(q), Stopping)))
  {
    TwoSteps(s, WorkerTakes(w), WorkerStops(w));
  }

  // It replies, and then closes its socket.
  lemma RepliesAndCloses(s: System, w: Id, n: Name, c: Id, q: Request, body: Body)
    requires Shows(s, w, n, c, Scene([Disconnect], [], [], [], Worker(n, Some(q), Stopping)))
    ensures var es := [WorkerReplies(w, body), WorkerCloses(w)];
      && Runs(s, es)
      && Shows(Exec(s, es), w, n, c,
               Scene([Disconnect, Replied(Reply(q.rid, q.client, body))], [], [], [], Worker(n, None, Closed)))
  {
    TwoSteps(s, WorkerReplies(w, body), WorkerCloses(w));
  }

  // The broker hears DISCONNECT and then the reply.
  lemma BrokerHears(s: System, w: Id, n: Name, c: Id, rep: Reply)
    requires Shows(s, w, n, c, Scene([Disconnect, Replied(rep)], [], [], [], Worker(n, None, Closed)))
    ensures var es := [BrokerGetsMessage(w), BrokerGetsMessage(w)];
      Runs(s, es) && Shows(Exec(s, es), w, n, c, Scene([], [], [w], [], Worker(n, None, Closed)))
  {
    var s1 := Apply(s, BrokerGetsMessage(w));
    assert Shows(s1, w, n, c, Scene([Replied(rep)], [], [], [], Worker(n, None, Closed)));
    TwoSteps(s, BrokerGetsMessage(w), BrokerGetsMessage(w));
  }

  function BadRun(w: Id, n: Name, c: Id, body: Body): seq<Event> {
    [WorkerStarts(w, n), BrokerGetsMessage(w)] + [ClientCalls(c, n, body), BrokerGetsCall(c)]
    + [WorkerTakes(w), WorkerStops(w)] + [WorkerReplies(w, body), WorkerCloses(w)]
    + [BrokerGetsMessage(w), BrokerGetsMessage(w)]
  }

  // For any worker, service and client: a run from the start at whose end the DISCONNECT of the worker was
  // handled and its socket is closed, and it is listed; and a further call that is handed to it.
  lemma ClosedWorkerGetsRequest(w: Id, n: Name, c: Id, body: Body)
    ensures Runs(START, BadRun(w, n, c, body))
    ensures var s, es := Exec(START, BadRun(w, n, c, body)), [ClientCalls(c, n, body), BrokerGetsCall(c)];
      && Handled(s, w) && Idle(s, w) && s.workers[w].phase == Closed && At(s.down, w) == []
      && Runs(s, es) && Handled(Exec(s, es), w) && Exec(s, es).workers[w].phase == Closed
      && At(Exec(s, es).down, w) == [Request(|s.issued|, c, n, body)]
  {
    var a, b := [WorkerStarts(w, n), BrokerGetsMessage(w)], [ClientCalls(c, n, body), BrokerGetsCall(c)];
    var d, e := [WorkerTakes(w), WorkerStops(w)], [WorkerReplies(w, body), WorkerCloses(w)];
    var f := [BrokerGetsMessage(w), BrokerGetsMessage(w)];
    WorkerJoins(w, n, c);
    var s1 := Exec(START, a);
    CallIsHanded(s1, w, n, c, body, Worker(n, None, Running));
    RunsJoin(START, a, b);
    var q := Request(|s1.issued|, c, n, body);
    var s2 := Exec(s1, b);
    TakesAndStops(s2, w, n, c, q);
    RunsJoin(START, a + b, d);
    var s3 := Exec(s2, d);
    RepliesAndCloses(s3, w, n, c, q, body);
    RunsJoin(START, a + b + d, e);
    var s4 := Exec(s3, e);
    BrokerHears(s4, w, n, c, Reply(q.rid, q.client, body));
    RunsJoin(START, a + b + d + e, f);
    CallIsHanded(Exec(s4, f), w, n, c, body, Worker(n, None, Closed));
  }
}
