/** The broker object in a whole run: what it receives are the envelopes of the clients and workers
    of the system, its maps, queues and suspended loops stay those of the abstract broker, and the
    frames it sends are what the system's channels to workers and clients carry. */
module MajordomoRun {
  import Mdp
  import Spec = MajordomoSpec
  import Proofs = MajordomoProofs
  import opened Majordomo

  // The broker object has the services and the worker map of the system.
  ghost predicate Matches(b: Broker, s: Spec.System)
    reads b, b.services.Values
    requires b.Valid()
  {
    b.workers == s.owner && forall n :: b.ServiceView(n) == Spec.Svc(s, n)
  }

  // The first message on the way from a client or a worker, as it arrives at the broker.
  function CallFrames(q: Spec.Request): (frames: Mdp.Frames)
    ensures Mdp.BrokerDecode(frames) == Mdp.ClientRequest(q.client, q.service, q.body)
  {
    Mdp.BrokerUnderstands(q.client, q.service, q.client, q.body);
    Mdp.RouterReceives(q.client, Mdp.RequestSocket(Mdp.ClientSends(q.service, q.body)))
  }

  function UpFrames(w: Id, u: Spec.Up, n: Name): (frames: Mdp.Frames)
    ensures Mdp.BrokerDecode(frames) ==
      match u
      case Ready(service) => Mdp.WorkerReady(w, service)
      case Replied(rep) => Mdp.WorkerReply(w, rep.client, rep.body)
      case Disconnect => Mdp.WorkerDisconnect(w)
  {
    Mdp.BrokerUnderstands(w, if u.Ready? then u.service else n, if u.Replied? then u.reply.client else w,
                          if u.Replied? then u.reply.body else []);
    Mdp.RouterReceives(w, WireUp(u, n))
  }

  // ----- what the broker sends -----------------------------------------------------------------------

  datatype Sending = Sending(service: Name, output: Spec.Output)

  const SILENCE := Sending([], Spec.Nothing)

  function Turned(s: Spec.System, n: Name): Sending {
    Sending(n, Spec.Turn(Spec.Svc(s, n)).1)
  }

  // What the broker sends in one step of the system.
  function Output(s: Spec.System, e: Spec.Event): Sending
    requires Spec.Enabled(s, e)
  {
    match e
    case BrokerGetsCall(c) => Turned(Spec.CallQueued(s, c), s.calls[c][0].service)
    case BrokerGetsMessage(w) =>
      (match s.up[w][0]
       case Ready(n) => Turned(Spec.ReadyTaken(s, w), n)
       case Replied(rep) => if w in s.owner then Sending(s.owner[w], Spec.ToClient(rep)) else SILENCE
       case Disconnect => if w in s.owner then Turned(Spec.DisconnectTaken(s, w, s.owner[w]), s.owner[w]) else SILENCE)
    case LoopResumes(n) => Turned(Spec.LoopGone(s, n), n)
    case ReplyResumes(n) => Turned(Spec.ReplyGone(s, n), n)
    case _ => SILENCE
  }

  function Outputs(s: Spec.System, es: seq<Spec.Event>): seq<Sending>
    requires Spec.Runs(s, es)
    decreases |es|
  {
    if es == [] then [] else [Output(s, es[0])] + Outputs(Spec.Apply(s, es[0]), es[1..])
  }

  function WireOf(x: Sending): seq<Mdp.Frames> {
    Wire(x.output, x.service)
  }

  function Wires(xs: seq<Sending>): seq<Mdp.Frames> {
    if xs == [] then [] else WireOf(xs[0]) + Wires(xs[1..])
  }

  // The requests and replies among it, by address.
  function RequestFor(x: Sending, w: Id): seq<Spec.Request> {
    if x.output.ToWorker? && x.output.worker == w then [x.output.request] else []
  }

  function RequestsFor(xs: seq<Sending>, w: Id): seq<Spec.Request> {
    if xs == [] then [] else RequestFor(xs[0], w) + RequestsFor(xs[1..], w)
  }

  function ReplyFor(x: Sending, c: Id): seq<Spec.Reply> {
    if x.output.ToClient? && x.output.reply.client == c then [x.output.reply] else []
  }

  function RepliesFor(xs: seq<Sending>, c: Id): seq<Spec.Reply> {
    if xs == [] then [] else ReplyFor(xs[0], c) + RepliesFor(xs[1..], c)
  }

  // What worker w takes, and what client c fetches.
  function TakenAt(s: Spec.System, e: Spec.Event, w: Id): seq<Spec.Request>
    requires Spec.Enabled(s, e)
  {
    if e == Spec.WorkerTakes(w) then [s.down[w][0]] else []
  }

  function TakenBy(s: Spec.System, es: seq<Spec.Event>, w: Id): seq<Spec.Request>
    requires Spec.Runs(s, es)
    decreases |es|
  {
    if es == [] then [] else TakenAt(s, es[0], w) + TakenBy(Spec.Apply(s, es[0]), es[1..], w)
  }

  function FetchedAt(s: Spec.System, e: Spec.Event, c: Id): seq<Spec.Reply>
    requires Spec.Enabled(s, e)
  {
    if e == Spec.ClientFetches(c) then [s.answers[c][0]] else []
  }

  function FetchedBy(s: Spec.System, es: seq<Spec.Event>, c: Id): seq<Spec.Reply>
    requires Spec.Runs(s, es)
    decreases |es|
  {
    if es == [] then [] else FetchedAt(s, es[0], c) + FetchedBy(Spec.Apply(s, es[0]), es[1..], c)
  }

  // The channels before a dispatch and after it.
  lemma DispatchCarries(s: Spec.System, n: Name, w: Id)
    ensures Spec.At(Spec.Dispatch(s, n).down, w) == Spec.At(s.down, w) + RequestFor(Turned(s, n), w)
    ensures Spec.At(Spec.Dispatch(s, n).answers, w) == Spec.At(s.answers, w)
    ensures ReplyFor(Turned(s, n), w) == []
  {
  }

  predicate Carries(s: Spec.System, s': Spec.System, o: Sending, w: Id) {
    && Spec.At(s'.down, w) == Spec.At(s.down, w) + RequestFor(o, w)
    && Spec.At(s'.answers, w) == Spec.At(s.answers, w) + ReplyFor(o, w)
  }

  lemma TurnCarries(s: Spec.System, s1: Spec.System, n: Name, w: Id)
    requires s1.down == s.down && s1.answers == s.answers
    ensures Carries(s, Spec.Dispatch(s1, n), Turned(s1, n), w)
  {
    DispatchCarries(s1, n, w);
  }

  lemma ReplyCarries(s: Spec.System, x: Id, n: Name, w: Id)
    requires Spec.At(s.up, x) != [] && s.up[x][0].Replied?
    ensures Carries(s, Spec.ReplyTaken(s, x, n), Sending(n, Spec.ToClient(s.up[x][0].reply)), w)
  {
  }

  lemma ReadyMessageCarries(s: Spec.System, x: Id, n: Name, w: Id)
    requires Spec.Enabled(s, Spec.BrokerGetsMessage(x)) && s.up[x][0] == Spec.Ready(n)
    ensures Carries(s, Spec.BrokerGetsUp(s, x), Output(s, Spec.BrokerGetsMessage(x)), w)
  {
    assert Spec.BrokerGetsUp(s, x) == Spec.Dispatch(Spec.ReadyTaken(s, x), n);
    TurnCarries(s, Spec.ReadyTaken(s, x), n, w);
  }

  lemma ReplyMessageCarries(s: Spec.System, x: Id, w: Id)
    requires Spec.Enabled(s, Spec.BrokerGetsMessage(x)) && s.up[x][0].Replied? && x in s.owner
    ensures Carries(s, Spec.BrokerGetsUp(s, x), Output(s, Spec.BrokerGetsMessage(x)), w)
  {
    ReplyCarries(s, x, s.owner[x], w);
  }

  lemma DisconnectMessageCarries(s: Spec.System, x: Id, w: Id)
    requires Spec.Enabled(s, Spec.BrokerGetsMessage(x)) && s.up[x][0].Disconnect? && x in s.owner
    ensures Carries(s, Spec.BrokerGetsUp(s, x), Output(s, Spec.BrokerGetsMessage(x)), w)
  {
    TurnCarries(s, Spec.DisconnectTaken(s, x, s.owner[x]), s.owner[x], w);
  }

  lemma StrangeMessageCarries(s: Spec.System, x: Id, w: Id)
    requires Spec.Enabled(s, Spec.BrokerGetsMessage(x)) && !s.up[x][0].Ready? && x !in s.owner
    ensures Carries(s, Spec.BrokerGetsUp(s, x), Output(s, Spec.BrokerGetsMessage(x)), w)
  {
    assert Spec.BrokerGetsUp(s, x) == s.(crashed := true);
  }

  // The broker hears from a worker.
  lemma MessageCarries(s: Spec.System, x: Id, w: Id)
    requires Spec.Enabled(s, Spec.BrokerGetsMessage(x))
    ensures Carries(s, Spec.Apply(s, Spec.BrokerGetsMessage(x)), Output(s, Spec.BrokerGetsMessage(x)), w)
  {
    if s.up[x][0].Ready? {
      ReadyMessageCarries(s, x, s.up[x][0].service, w);
    } else if x !in s.owner {
      StrangeMessageCarries(s, x, w);
    } else if s.up[x][0].Replied? {
      ReplyMessageCarries(s, x, w);
    } else {
      DisconnectMessageCarries(s, x, w);
    }
  }

  lemma ElsewhereCarries(s: Spec.System, e: Spec.Event, w: Id)
    requires Spec.Enabled(s, e) && Elsewhere(e)
    ensures Spec.At(s.down, w) == TakenAt(s, e, w) + Spec.At(Spec.Apply(s, e).down, w)
    ensures Spec.At(s.answers, w) == FetchedAt(s, e, w) + Spec.At(Spec.Apply(s, e).answers, w)
    ensures Output(s, e) == SILENCE
  {
  }

  // One step: what was in a channel and what the broker sends is what is taken and what stays.
  lemma StepCarries(s: Spec.System, e: Spec.Event, w: Id)
    requires Spec.Enabled(s, e)
    ensures Spec.At(s.down, w) + RequestFor(Output(s, e), w) == TakenAt(s, e, w) + Spec.At(Spec.Apply(s, e).down, w)
    ensures Spec.At(s.answers, w) + ReplyFor(Output(s, e), w)
         == FetchedAt(s, e, w) + Spec.At(Spec.Apply(s, e).answers, w)
  {
    match e
    case BrokerGetsCall(c) => DispatchCarries(Spec.CallQueued(s, c), s.calls[c][0].service, w);
    case BrokerGetsMessage(x) => MessageCarries(s, x, w);
    case LoopResumes(n) => DispatchCarries(Spec.LoopGone(s, n), n, w);
    case ReplyResumes(n) => DispatchCarries(Spec.ReplyGone(s, n), n, w);
    case _ => ElsewhereCarries(s, e, w);
  }

  // Joining the step's equation and that of the rest of the run.
  lemma Chain<T>(before: seq<T>, sent: seq<T>, taken: seq<T>, middle: seq<T>,
                 more: seq<T>, later: seq<T>, after: seq<T>)
    requires before + sent == taken + middle && middle + more == later + after
    ensures before + (sent + more) == (taken + later) + after
  {
    assert before + (sent + more) == (before + sent) + more;
    assert (taken + middle) + more == taken + (middle + more);
    assert taken + (later + after) == (taken + later) + after;
  }

  // In every run the requests the broker sends to a worker are those it takes and those left in its
  // channel, in that order; and the same for replies and clients.
  lemma {:induction false} ChannelsCarryOutputs(s: Spec.System, es: seq<Spec.Event>, w: Id)
    requires Spec.Runs(s, es)
    ensures Spec.At(s.down, w) + RequestsFor(Outputs(s, es), w) == TakenBy(s, es, w) + Spec.At(Spec.Exec(s, es).down, w)
    ensures Spec.At(s.answers, w) + RepliesFor(Outputs(s, es), w)
         == FetchedBy(s, es, w) + Spec.At(Spec.Exec(s, es).answers, w)
    decreases |es|
  {
    if es != [] {
      var s', rest := Spec.Apply(s, es[0]), es[1..];
      var end := Spec.Exec(s', rest);
      StepCarries(s, es[0], w);
      ChannelsCarryOutputs(s', rest, w);
      assert Outputs(s, es)[1..] == Outputs(s', rest);
      Chain(Spec.At(s.down, w), RequestFor(Output(s, es[0]), w), TakenAt(s, es[0], w), Spec.At(s'.down, w),
            RequestsFor(Outputs(s', rest), w), TakenBy(s', rest, w), Spec.At(end.down, w));
      Chain(Spec.At(s.answers, w), ReplyFor(Output(s, es[0]), w), FetchedAt(s, es[0], w), Spec.At(s'.answers, w),
            RepliesFor(Outputs(s', rest), w), FetchedBy(s', rest, w), Spec.At(end.answers, w));
    }
  }

  // ----- what arrives ----------------------------------------------------------------------------------

  // The frames among `sent` that the router delivers to a worker, as the worker decodes them.
  function JobIn(f: Mdp.Frames, w: Id): seq<Mdp.Job> {
    if |f| > 2 && f[0] == w && f[2] == Mdp.WORKER then [Mdp.WorkerDecode(Mdp.RouterSends(f))] else []
  }

  function WorkerInbox(sent: seq<Mdp.Frames>, w: Id): seq<Mdp.Job> {
    if sent == [] then [] else JobIn(sent[0], w) + WorkerInbox(sent[1..], w)
  }

  // And to a client.
  function AnswerIn(f: Mdp.Frames, c: Id): seq<Mdp.Frames> {
    if |f| > 2 && f[0] == c && f[2] == Mdp.CLIENT
    then [Mdp.ClientDecode(Mdp.RequestSocketReceives(Mdp.RouterSends(f)))] else []
  }

  function ClientInbox(sent: seq<Mdp.Frames>, c: Id): seq<Mdp.Frames> {
    if sent == [] then [] else AnswerIn(sent[0], c) + ClientInbox(sent[1..], c)
  }

  function Jobs(qs: seq<Spec.Request>): seq<Mdp.Job> {
    if qs == [] then [] else [Mdp.Job(qs[0].client, qs[0].body)] + Jobs(qs[1..])
  }

  function Bodies(reps: seq<Spec.Reply>): seq<Mdp.Frames> {
    if reps == [] then [] else [reps[0].body] + Bodies(reps[1..])
  }

  lemma RequestWireIsJob(worker: Id, q: Spec.Request, w: Id)
    ensures var f := Mdp.BrokerSendsRequest(worker, q.client, q.body);
      JobIn(f, w) == (if worker == w then [Mdp.Job(q.client, q.body)] else []) && AnswerIn(f, w) == []
  {
    Mdp.CodesDiffer();
    Mdp.WorkerUnderstands(worker, q.client, q.body);
  }

  lemma ReplyWireIsAnswer(rep: Spec.Reply, service: Name, c: Id)
    ensures var f := Mdp.BrokerSendsReply(rep.client, service, rep.body);
      AnswerIn(f, c) == (if rep.client == c then [rep.body] else []) && JobIn(f, c) == []
  {
    Mdp.CodesDiffer();
    Mdp.ClientUnderstands(rep.client, service, rep.body);
  }

  lemma WireIsInbox(x: Sending, w: Id)
    ensures WorkerInbox(WireOf(x), w) == Jobs(RequestFor(x, w))
    ensures ClientInbox(WireOf(x), w) == Bodies(ReplyFor(x, w))
  {
    match x.output
    case Nothing =>
    case ToWorker(worker, q) => RequestWireIsJob(worker, q, w);
    case ToClient(rep) => ReplyWireIsAnswer(rep, x.service, w);
  }

  lemma InboxJoins(a: Mdp.Frames, b: seq<Mdp.Frames>, w: Id)
    ensures WorkerInbox([a] + b, w) == WorkerInbox([a], w) + WorkerInbox(b, w)
    ensures ClientInbox([a] + b, w) == ClientInbox([a], w) + ClientInbox(b, w)
  {
    assert ([a] + b)[1..] == b && [a][1..] == [];
  }

  lemma WireJoins(x: Sending, b: seq<Mdp.Frames>, w: Id)
    ensures WorkerInbox(WireOf(x) + b, w) == WorkerInbox(WireOf(x), w) + WorkerInbox(b, w)
    ensures ClientInbox(WireOf(x) + b, w) == ClientInbox(WireOf(x), w) + ClientInbox(b, w)
  {
    if WireOf(x) == [] {
      assert WireOf(x) + b == b;
    } else {
      InboxJoins(WireOf(x)[0], b, w);
      assert WireOf(x) == [WireOf(x)[0]];
    }
  }

  lemma {:induction false} JobsJoin(a: seq<Spec.Request>, b: seq<Spec.Request>)
    ensures Jobs(a + b) == Jobs(a) + Jobs(b)
    decreases |a|
  {
    if a == [] {
      assert a + b == b;
    } else {
      JobsJoin(a[1..], b);
      assert (a + b)[1..] == a[1..] + b;
    }
  }

  lemma {:induction false} BodiesJoin(a: seq<Spec.Reply>, b: seq<Spec.Reply>)
    ensures Bodies(a + b) == Bodies(a) + Bodies(b)
    decreases |a|
  {
    if a == [] {
      assert a + b == b;
    } else {
      BodiesJoin(a[1..], b);
      assert (a + b)[1..] == a[1..] + b;
    }
  }

  // The frames a worker or client gets, decoded as it does, are the requests or replies sent to it.
  lemma {:induction false} InboxesHold(xs: seq<Sending>, w: Id)
    ensures WorkerInbox(Wires(xs), w) == Jobs(RequestsFor(xs, w))
    ensures ClientInbox(Wires(xs), w) == Bodies(RepliesFor(xs, w))
  {
    if xs != [] {
      InboxesHold(xs[1..], w);
      WireIsInbox(xs[0], w);
      WireJoins(xs[0], Wires(xs[1..]), w);
      JobsJoin(RequestFor(xs[0], w), RequestsFor(xs[1..], w));
      BodiesJoin(ReplyFor(xs[0], w), RepliesFor(xs[1..], w));
    }
  }

  // ----- one step of the broker object -------------------------------------------------------------------

  // What the steps of the system do to its services.
  lemma AfterDispatch(s: Spec.System, n: Name, m: Name)
    ensures Spec.Svc(Spec.Dispatch(s, n), m) == if m == n then Spec.Turn(Spec.Svc(s, n)).0 else Spec.Svc(s, m)
    ensures Spec.Dispatch(s, n).owner == s.owner
  {
  }

  lemma AfterCall(s: Spec.System, c: Id, m: Name)
    requires Spec.At(s.calls, c) != []
    ensures var q, s' := s.calls[c][0], Spec.Dispatch(Spec.CallQueued(s, c), s.calls[c][0].service);
      && s'.owner == s.owner && Spec.Svc(Spec.CallQueued(s, c), q.service) == Spec.Queued(Spec.Svc(s, q.service), q)
      && Spec.Svc(s', m) == if m == q.service then Spec.Turn(Spec.Queued(Spec.Svc(s, m), q)).0 else Spec.Svc(s, m)
  {
    AfterDispatch(Spec.CallQueued(s, c), s.calls[c][0].service, m);
  }

  lemma AfterReady(s: Spec.System, w: Id, n: Name, m: Name)
    requires Spec.At(s.up, w) != [] && s.up[w][0] == Spec.Ready(n)
    ensures var s' := Spec.Dispatch(Spec.ReadyTaken(s, w), n);
      && s'.owner == s.owner[w := n]
      && Spec.Svc(s', m) == if m == n then Spec.Turn(Spec.Listed(Spec.Svc(s, m), w)).0 else Spec.Svc(s, m)
  {
    AfterDispatch(Spec.ReadyTaken(s, w), n, m);
  }

  lemma AfterReply(s: Spec.System, w: Id, n: Name, m: Name)
    requires Spec.At(s.up, w) != [] && s.up[w][0].Replied?
    ensures var s', v := Spec.ReplyTaken(s, w, n), Spec.Listed(Spec.Svc(s, m), w);
      s'.owner == s.owner && Spec.Svc(s', m) == if m == n then v.(replying := v.replying + 1) else Spec.Svc(s, m)
  {
  }

  lemma AfterDisconnect(s: Spec.System, w: Id, n: Name, m: Name)
    requires Spec.At(s.up, w) != []
    ensures var s', v := Spec.Dispatch(Spec.DisconnectTaken(s, w, n), n), Spec.Svc(s, m);
      && s'.owner == s.owner
      && Spec.Svc(s', m) == if m == n then Spec.Turn(v.(idle := Spec.Without(v.idle, w))).0 else v
  {
    AfterDispatch(Spec.DisconnectTaken(s, w, n), n, m);
  }

  lemma AfterLoop(s: Spec.System, n: Name, m: Name)
    requires Spec.Svc(s, n).loops > 0
    ensures var s', v := Spec.Dispatch(Spec.LoopGone(s, n), n), Spec.Svc(s, m);
      s'.owner == s.owner && Spec.Svc(s', m) == if m == n then Spec.Turn(v.(loops := v.loops - 1)).0 else v
  {
    AfterDispatch(Spec.LoopGone(s, n), n, m);
  }

  lemma AfterReplied(s: Spec.System, n: Name, m: Name)
    requires Spec.Svc(s, n).replying > 0
    ensures var s', v := Spec.Dispatch(Spec.ReplyGone(s, n), n), Spec.Svc(s, m);
      s'.owner == s.owner && Spec.Svc(s', m) == if m == n then Spec.Turn(v.(replying := v.replying - 1)).0 else v
  {
    AfterDispatch(Spec.ReplyGone(s, n), n, m);
  }

  // The first request on the way from a client arrives.
  method OnCall(b: Broker, s: Spec.System, c: Id)
    requires b.Valid() && Matches(b, s) && Spec.At(s.calls, c) != []
    modifies b, b.services.Values, b.socket
    ensures b.Valid() && b.Grown()
    ensures b.socket.sent == old(b.socket.sent) + WireOf(Turned(Spec.CallQueued(s, c), s.calls[c][0].service))
    ensures Matches(b, Spec.Dispatch(Spec.CallQueued(s, c), s.calls[c][0].service))
  {
    var q := s.calls[c][0];
    var threw := b.OnMessage(CallFrames(q), q.rid);
    forall m ensures b.ServiceView(m) == Spec.Svc(Spec.Dispatch(Spec.CallQueued(s, c), q.service), m) {
      AfterCall(s, c, m);
    }
    AfterCall(s, c, q.service);
  }

  method OnReady(b: Broker, s: Spec.System, w: Id, n: Name)
    requires b.Valid() && Matches(b, s) && Spec.At(s.up, w) != [] && s.up[w][0] == Spec.Ready(n)
    modifies b, b.services.Values, b.socket
    ensures b.Valid() && b.Grown()
    ensures b.socket.sent == old(b.socket.sent) + WireOf(Turned(Spec.ReadyTaken(s, w), n))
    ensures Matches(b, Spec.Dispatch(Spec.ReadyTaken(s, w), n))
  {
    var threw := b.OnMessage(UpFrames(w, Spec.Ready(n), n), 0);
    forall m ensures b.ServiceView(m) == Spec.Svc(Spec.Dispatch(Spec.ReadyTaken(s, w), n), m) {
      AfterReady(s, w, n, m);
    }
    AfterReady(s, w, n, n);
  }

  method OnReply(b: Broker, s: Spec.System, w: Id, n: Name)
    requires b.Valid() && Matches(b, s) && Spec.At(s.up, w) != [] && s.up[w][0].Replied?
    requires w in s.owner && s.owner[w] == n
    modifies b, b.services.Values, b.socket
    ensures b.Valid() && b.Grown()
    ensures b.socket.sent == old(b.socket.sent) + WireOf(Sending(n, Spec.ToClient(s.up[w][0].reply)))
    ensures Matches(b, Spec.ReplyTaken(s, w, n))
  {
    var threw := b.OnMessage(UpFrames(w, s.up[w][0], n), 0);
    forall m ensures b.ServiceView(m) == Spec.Svc(Spec.ReplyTaken(s, w, n), m) {
      AfterReply(s, w, n, m);
    }
    AfterReply(s, w, n, n);
  }

  method OnDisconnect(b: Broker, s: Spec.System, w: Id, n: Name)
    requires b.Valid() && Matches(b, s) && Spec.At(s.up, w) != [] && s.up[w][0].Disconnect?
    requires w in s.owner && s.owner[w] == n
    modifies b, b.services.Values, b.socket
    ensures b.Valid() && b.Grown()
    ensures b.socket.sent == old(b.socket.sent) + WireOf(Turned(Spec.DisconnectTaken(s, w, n), n))
    ensures Matches(b, Spec.Dispatch(Spec.DisconnectTaken(s, w, n), n))
  {
    var threw := b.OnMessage(UpFrames(w, Spec.Disconnect, n), 0);
    forall m ensures b.ServiceView(m) == Spec.Svc(Spec.Dispatch(Spec.DisconnectTaken(s, w, n), n), m) {
      AfterDisconnect(s, w, n, m);
    }
    AfterDisconnect(s, w, n, n);
  }

  // A send that a loop waited for is done.
  method OnLoop(b: Broker, s: Spec.System, n: Name)
    requires b.Valid() && Matches(b, s) && Spec.Svc(s, n).loops > 0
    modifies b.services.Values, b.socket
    ensures b.Valid() && b.services == old(b.services)
    ensures b.socket.sent == old(b.socket.sent) + WireOf(Turned(Spec.LoopGone(s, n), n))
    ensures Matches(b, Spec.Dispatch(Spec.LoopGone(s, n), n))
  {
    assert b.ServiceView(n) == Spec.Svc(s, n);
    b.services[n].OnRequestSent();
    forall m ensures b.ServiceView(m) == Spec.Svc(Spec.Dispatch(Spec.LoopGone(s, n), n), m) {
      AfterLoop(s, n, m);
      assert old(b.ServiceView(m)) == Spec.Svc(s, m);
    }
    AfterLoop(s, n, n);
  }

  method OnReplied(b: Broker, s: Spec.System, n: Name)
    requires b.Valid() && Matches(b, s) && Spec.Svc(s, n).replying > 0
    modifies b.services.Values, b.socket
    ensures b.Valid() && b.services == old(b.services)
    ensures b.socket.sent == old(b.socket.sent) + WireOf(Turned(Spec.ReplyGone(s, n), n))
    ensures Matches(b, Spec.Dispatch(Spec.ReplyGone(s, n), n))
  {
    assert b.ServiceView(n) == Spec.Svc(s, n);
    b.services[n].OnReplySent();
    forall m ensures b.ServiceView(m) == Spec.Svc(Spec.Dispatch(Spec.ReplyGone(s, n), n), m) {
      AfterReplied(s, n, m);
      assert old(b.ServiceView(m)) == Spec.Svc(s, m);
    }
    AfterReplied(s, n, n);
  }

  // The next message from a worker arrives. The broker knows the worker, so it never throws.
  method OnUp(b: Broker, s: Spec.System, w: Id)
    requires b.Valid() && Matches(b, s) && Proofs.Inv(s) && Spec.Enabled(s, Spec.BrokerGetsMessage(w))
    modifies b, b.services.Values, b.socket
    ensures b.Valid() && b.Grown()
    ensures b.socket.sent == old(b.socket.sent) + WireOf(Output(s, Spec.BrokerGetsMessage(w)))
    ensures Matches(b, Spec.BrokerGetsUp(s, w))
  {
    if !s.up[w][0].Ready? {
      Proofs.OwnerKnown(s, w);
    }
    match s.up[w][0] {
      case Ready(n) => OnReady(b, s, w, n);
      case Replied(_) => OnReply(b, s, w, s.owner[w]);
      case Disconnect => OnDisconnect(b, s, w, s.owner[w]);
    }
  }

  // What clients and workers do by themselves does not reach the broker.
  predicate Elsewhere(e: Spec.Event) {
    e.ClientCalls? || e.WorkerStarts? || e.WorkerTakes? || e.WorkerReplies? || e.WorkerStops? || e.WorkerDrops?
    || e.WorkerCloses? || e.ClientFetches?
  }

  lemma ElsewhereKeeps(s: Spec.System, e: Spec.Event)
    requires Spec.Enabled(s, e) && Elsewhere(e)
    ensures Spec.Apply(s, e).owner == s.owner && forall n :: Spec.Svc(Spec.Apply(s, e), n) == Spec.Svc(s, n)
    ensures WireOf(Output(s, e)) == []
  {
    assert Spec.Apply(s, e).services == s.services;
  }

  method Step(b: Broker, s: Spec.System, e: Spec.Event)
    requires b.Valid() && Matches(b, s) && Proofs.Inv(s) && Spec.Enabled(s, e)
    modifies b, b.services.Values, b.socket
    ensures b.Valid() && b.Grown()
    ensures b.socket.sent == old(b.socket.sent) + WireOf(Output(s, e))
    ensures Matches(b, Spec.Apply(s, e))
  {
    match e {
      case BrokerGetsCall(c) => OnCall(b, s, c);
      case BrokerGetsMessage(w) => OnUp(b, s, w);
      case LoopResumes(n) => OnLoop(b, s, n);
      case ReplyResumes(n) => OnReplied(b, s, n);
      case _ =>
        ElsewhereKeeps(s, e);
    }
  }

  // A new broker follows every run of the system, so what MajordomoProofs.dfy proves of the services
  // of reachable systems holds of its maps and queues. The frames it has sent, as workers and clients
  // decode them, are the requests each worker took and those in its channel, and the replies each
  // client fetched and those in its channel.
  method Follow(es: seq<Spec.Event>) returns (b: Broker)
    requires Spec.Runs(Spec.START, es)
    ensures fresh(b) && b.Valid() && Matches(b, Spec.Exec(Spec.START, es))
    ensures b.socket.sent == Wires(Outputs(Spec.START, es))
    ensures forall w :: WorkerInbox(b.socket.sent, w)
                     == Jobs(TakenBy(Spec.START, es, w) + Spec.At(Spec.Exec(Spec.START, es).down, w))
    ensures forall c :: ClientInbox(b.socket.sent, c)
                     == Bodies(FetchedBy(Spec.START, es, c) + Spec.At(Spec.Exec(Spec.START, es).answers, c))
  {
    b := new Broker();
    var s := Spec.START;
    Proofs.StartInv();
    var i := 0;
    assert es[0..] == es;
    while i < |es|
      invariant 0 <= i <= |es|
      invariant fresh(b) && fresh(b.socket) && b.Valid() && forall n :: n in b.services ==> fresh(b.services[n])
      invariant Matches(b, s) && Proofs.Inv(s)
      invariant Spec.Runs(s, es[i..]) && Spec.Exec(s, es[i..]) == Spec.Exec(Spec.START, es)
      invariant b.socket.sent + Wires(Outputs(s, es[i..])) == Wires(Outputs(Spec.START, es))
    {
      assert es[i..][1..] == es[i + 1..];
      Proofs.StepKeeps(s, es[i]);
      OneLess(s, es[i..], b.socket.sent);
      Step(b, s, es[i]);
      s := Spec.Apply(s, es[i]);
      i := i + 1;
    }
    SentInTheEnd(es);
  }

  // What is still to be sent gets shorter by what one step sends.
  lemma OneLess(s: Spec.System, es: seq<Spec.Event>, sent: seq<Mdp.Frames>)
    requires Spec.Runs(s, es) && es != []
    ensures sent + Wires(Outputs(s, es))
         == (sent + WireOf(Output(s, es[0]))) + Wires(Outputs(Spec.Apply(s, es[0]), es[1..]))
  {
    var a, rest := WireOf(Output(s, es[0])), Outputs(Spec.Apply(s, es[0]), es[1..]);
    assert Outputs(s, es)[1..] == rest;
    assert sent + (a + Wires(rest)) == (sent + a) + Wires(rest);
  }

  lemma SentInTheEnd(es: seq<Spec.Event>)
    requires Spec.Runs(Spec.START, es)
    ensures forall w :: WorkerInbox(Wires(Outputs(Spec.START, es)), w)
                     == Jobs(TakenBy(Spec.START, es, w) + Spec.At(Spec.Exec(Spec.START, es).down, w))
    ensures forall c :: ClientInbox(Wires(Outputs(Spec.START, es)), c)
                     == Bodies(FetchedBy(Spec.START, es, c) + Spec.At(Spec.Exec(Spec.START, es).answers, c))
  {
    forall w
      ensures WorkerInbox(Wires(Outputs(Spec.START, es)), w)
           == Jobs(TakenBy(Spec.START, es, w) + Spec.At(Spec.Exec(Spec.START, es).down, w))
      ensures ClientInbox(Wires(Outputs(Spec.START, es)), w)
           == Bodies(FetchedBy(Spec.START, es, w) + Spec.At(Spec.Exec(Spec.START, es).answers, w))
    {
      InboxesHold(Outputs(Spec.START, es), w);
      ChannelsCarryOutputs(Spec.START, es, w);
      EmptyInFront(RequestsFor(Outputs(Spec.START, es), w));
      EmptyInFront(RepliesFor(Outputs(Spec.START, es), w));
    }
  }

  lemma EmptyInFront<T>(a: seq<T>)
    ensures [] + a == a
  {
  }
}
