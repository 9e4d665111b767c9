/** What every run of the Majordomo system keeps. */
module MajordomoProofs {
  import opened Common
  import opened MajordomoSpec

  // ----- where requests are ----------------------------------------------------------------------

  // A request, or the reply to it.
  datatype Item = Asking(request: Request) | Telling(reply: Reply)

  function Rid(x: Item): nat {
    match x
    case Asking(q) => q.rid
    case Telling(rep) => rep.rid
  }

  function Asks(qs: seq<Request>): seq<Item> {
    seq(|qs|, i requires 0 <= i < |qs| => Asking(qs[i]))
  }

  function Tells(rs: seq<Reply>): seq<Item> {
    seq(|rs|, i requires 0 <= i < |rs| => Telling(rs[i]))
  }

  // The reply on the way from a worker; there is at most one.
  function ReplyIn(us: seq<Up>): seq<Item> {
    if |us| > 0 && us[0].Replied? then [Telling(us[0].reply)]
    else if |us| > 1 && us[1].Replied? then [Telling(us[1].reply)]
    else []
  }

  // What is in one place, in order.
  function Items(s: System, p: Place): seq<Item> {
    match p
    case Calling(c) => Asks(At(s.calls, c))
    case Waiting(n) => Asks(Svc(s, n).queue)
    case Sent(w) => Asks(At(s.down, w))
    case Working(w) => if w in s.workers && s.workers[w].task.Some? then [Asking(s.workers[w].task.value)] else []
    case Replying(w) => ReplyIn(At(s.up, w))
    case Answering(c) => Tells(At(s.answers, c))
    case Done => Tells(s.done)
    case Lost => Asks(s.lost)
  }

  // The numbers of the requests in one place.
  function Contents(s: System, p: Place): seq<nat> {
    var xs := Items(s, p);
    seq(|xs|, i requires 0 <= i < |xs| => Rid(xs[i]))
  }

  predicate IsIssued(s: System, q: Request) {
    q.rid < |s.issued| && s.issued[q.rid] == q
  }

  // The reply its worker gave to that request, addressed to the client that issued it.
  predicate IsResult(s: System, rep: Reply) {
    && rep.rid < |s.issued| && rep.rid in s.results
    && rep == Reply(rep.rid, s.issued[rep.rid].client, s.results[rep.rid])
  }

  predicate Serves(s: System, w: Id, n: Name) {
    w in s.workers && s.workers[w].service == n
  }

  // What a message in a place looks like.
  predicate Fits(s: System, x: Item, p: Place) {
    match p
    case Calling(c) => x.Asking? && IsIssued(s, x.request) && x.request.client == c
    case Waiting(n) => x.Asking? && IsIssued(s, x.request) && x.request.service == n
    case Sent(w) => x.Asking? && IsIssued(s, x.request) && Serves(s, w, x.request.service)
    case Working(w) => x.Asking? && IsIssued(s, x.request) && Serves(s, w, x.request.service)
    case Replying(_) => x.Telling? && IsResult(s, x.reply)
    case Answering(c) => x.Telling? && IsResult(s, x.reply) && x.reply.client == c
    case Done => x.Telling? && IsResult(s, x.reply)
    case Lost => x.Asking? && IsIssued(s, x.request)
  }

  ghost predicate PlaceOk(s: System, p: Place) {
    && (forall r: nat :: r in Contents(s, p) <==> r in s.place && s.place[r] == p)
    && Distinct(Contents(s, p))
    && (forall x :: x in Items(s, p) ==> Fits(s, x, p))
  }

  // Every request is in the place the history says, once, in no other place, and unchanged.
  ghost predicate Placed(s: System) {
    forall p :: PlaceOk(s, p)
  }

  // ----- the history of a request ----------------------------------------------------------------

  predicate BeforeWorker(p: Place) {
    p.Calling? || p.Waiting?
  }

  predicate AfterWorker(p: Place) {
    p.Replying? || p.Answering? || p.Done?
  }

  ghost predicate Traced(s: System) {
    && (forall r: nat :: r in s.place <==> r < |s.issued|)
    && (forall r: nat :: r in s.handedTo <==> r in s.place && !BeforeWorker(s.place[r]))
    && (forall r: nat :: r in s.results <==> r in s.place && AfterWorker(s.place[r]))
    && (forall r: nat :: r in s.place && (s.place[r].Sent? || s.place[r].Working? || s.place[r].Replying?)
          ==> r in s.handedTo && s.handedTo[r] == s.place[r].worker)
  }

  // ----- workers ---------------------------------------------------------------------------------

  predicate OneReply(us: seq<Up>) {
    |us| < 2 || (|us| == 2 && !(us[0].Replied? && us[1].Replied?))
  }

  // READY or REPLY is on the way.
  predicate HasToken(us: seq<Up>) {
    (|us| > 0 && !us[0].Disconnect?) || (|us| > 1 && !us[1].Disconnect?)
  }

  // What can be on the way from a worker: one message, or with DISCONNECT two. A reply can follow it.
  predicate UpShape(us: seq<Up>, phase: Phase) {
    if phase == Running then us == [] || (|us| == 1 && !us[0].Disconnect?)
    else
      || us == [] || us == [Disconnect]
      || (|us| == 2 && !us[0].Disconnect? && us[1] == Disconnect)
      || (|us| == 2 && us[0] == Disconnect && us[1].Replied?)
      || (|us| == 1 && us[0].Replied?)
  }

  // In how many of these places worker w is: READY or REPLY on the way, idle in its service,
  // REQUEST on the way to it, working.
  function Tokens(s: System, w: Id): nat
    requires w in s.workers
  {
    var k := s.workers[w];
    Bit(HasToken(At(s.up, w))) + Bit(w in Svc(s, k.service).idle) + |At(s.down, w)| + Bit(k.task.Some?)
  }

  ghost predicate WorkerOk(s: System, w: Id) {
    if w !in s.workers then
      At(s.up, w) == [] && At(s.down, w) == [] && w !in s.owner && (forall n :: w !in Svc(s, n).idle)
    else
      var k, us := s.workers[w], At(s.up, w);
      && UpShape(us, k.phase)
      && (us != [] && us[0].Ready? ==> w !in s.owner && us[0].service == k.service)
      && (us == [] || !us[0].Ready? ==> w in s.owner && s.owner[w] == k.service)
      && (forall n :: n != k.service ==> w !in Svc(s, n).idle)
      && Tokens(s, w) <= 1
      && (k.phase == Running ==> Tokens(s, w) == 1)
      && (k.phase == Closed ==> k.task == None)
  }

  ghost predicate WorkersOk(s: System) {
    forall w :: WorkerOk(s, w)
  }

  // ----- services --------------------------------------------------------------------------------

  // A service that could dispatch has a suspended activation that will.
  predicate Live(v: Service) {
    v.idle != [] && v.queue != [] ==> v.loops + v.replying > 0
  }

  // Idle workers are in the order in which they were listed.
  predicate SortedBy(ws: seq<Id>, since: map<Id, nat>) {
    && (forall i :: 0 <= i < |ws| ==> ws[i] in since)
    && (forall i, j :: 0 <= i < j < |ws| ==> since[ws[i]] < since[ws[j]])
  }

  predicate InListingOrder(v: Service) {
    SortedBy(v.idle, v.since) && forall w :: w in v.idle ==> v.since[w] < v.clock
  }

  predicate ServiceOk(v: Service) {
    v.arrived == v.served + v.queue && InListingOrder(v)
  }

  // `hole` is a service whose dispatchPending is about to run.
  ghost predicate ServicesOk(s: System, hole: Option<Name>) {
    && (forall n :: ServiceOk(Svc(s, n)))
    && (forall n :: hole == Some(n) || Live(Svc(s, n)))
  }

  ghost predicate InvBut(s: System, hole: Option<Name>) {
    Placed(s) && Traced(s) && WorkersOk(s) && ServicesOk(s, hole) && !s.crashed
  }

  ghost predicate Inv(s: System) {
    InvBut(s, None)
  }

  // ----- moving a request from one place to the next ------------------------------------------------

  // What fits keeps fitting, except perhaps for request r.
  ghost predicate StillFits(s: System, s': System, r: nat) {
    forall x, p :: Fits(s, x, p) && Rid(x) != r ==> Fits(s', x, p)
  }

  lemma FirstAndRest(s: System, p: Place)
    requires PlaceOk(s, p) && Items(s, p) != []
    ensures var r := Rid(Items(s, p)[0]);
      && r in s.place && s.place[r] == p && Fits(s, Items(s, p)[0], p)
      && (forall x :: x in Items(s, p)[1..] ==> x in Items(s, p) && Rid(x) != r)
      && (forall y: nat :: y in Contents(s, p)[1..] <==> y in Contents(s, p) && y != r)
  {
    var xs, ys := Items(s, p), Contents(s, p);
    var r := Rid(xs[0]);
    assert ys[0] == r && r in ys;
    forall x | x in xs[1..] ensures x in xs && Rid(x) != r {
      var i :| 1 <= i < |xs| && xs[i] == x;
      assert ys[i] == Rid(x);
    }
    assert ys == [r] + ys[1..];
  }

  lemma Leaves(s: System, s': System, r: nat, p: Place)
    requires PlaceOk(s, p) && Items(s, p) != [] && Rid(Items(s, p)[0]) == r
    requires Items(s', p) == Items(s, p)[1..] && StillFits(s, s', r)
    requires forall y: nat :: y in s'.place && s'.place[y] == p <==> y != r && y in s.place && s.place[y] == p
    ensures PlaceOk(s', p)
  {
    FirstAndRest(s, p);
    assert Contents(s', p) == Contents(s, p)[1..];
  }

  lemma Arrives(s: System, s': System, x: Item, q: Place)
    requires PlaceOk(s, q) && !(Rid(x) in s.place && s.place[Rid(x)] == q)
    requires Items(s', q) == Items(s, q) + [x] && StillFits(s, s', Rid(x)) && Fits(s', x, q)
    requires forall y: nat :: y in s'.place && s'.place[y] == q <==> y == Rid(x) || (y in s.place && s.place[y] == q)
    ensures PlaceOk(s', q)
  {
    assert Contents(s', q) == Contents(s, q) + [Rid(x)];
    assert Rid(x) !in Contents(s, q);
    forall y | y in Items(s, q) ensures Fits(s', y, q) {
      OthersStay(s, s', Rid(x), y, q);
    }
  }

  lemma OthersStay(s: System, s': System, r: nat, y: Item, q: Place)
    requires PlaceOk(s, q) && y in Items(s, q) && !(r in s.place && s.place[r] == q) && StillFits(s, s', r)
    ensures Fits(s', y, q)
  {
    var i :| 0 <= i < |Items(s, q)| && Items(s, q)[i] == y;
    assert Contents(s, q)[i] == Rid(y);
    assert Rid(y) in Contents(s, q);
  }

  lemma Stays(s: System, s': System, r: nat, q: Place)
    requires PlaceOk(s, q) && !(r in s.place && s.place[r] == q)
    requires Items(s', q) == Items(s, q) && StillFits(s, s', r)
    requires forall y: nat :: y in s'.place && s'.place[y] == q <==> y in s.place && s.place[y] == q
    ensures PlaceOk(s', q)
  {
    assert Contents(s', q) == Contents(s, q);
    forall y | y in Items(s, q) ensures Fits(s', y, q) {
      OthersStay(s, s', r, y, q);
    }
  }

  // A request goes from the front of place p to the end of place q, where it is the message x.
  lemma Moved(s: System, s': System, x: Item, p: Place, q: Place)
    requires Placed(s) && p != q && Items(s, p) != [] && Rid(Items(s, p)[0]) == Rid(x)
    requires Items(s', p) == Items(s, p)[1..] && Items(s', q) == Items(s, q) + [x]
    requires forall y :: y != p && y != q ==> Items(s', y) == Items(s, y)
    requires s'.place == s.place[Rid(x) := q] && StillFits(s, s', Rid(x)) && Fits(s', x, q)
    ensures Placed(s')
  {
    var r := Rid(x);
    assert PlaceOk(s, p);
    FirstAndRest(s, p);
    forall y ensures PlaceOk(s', y) {
      assert PlaceOk(s, y);
      if y == p {
        Leaves(s, s', r, p);
      } else if y == q {
        Arrives(s, s', x, q);
      } else {
        Stays(s, s', r, y);
      }
    }
  }

  lemma Unmoved(s: System, s': System)
    requires Placed(s) && s'.place == s.place
    requires forall y :: Items(s', y) == Items(s, y)
    requires forall x, p :: Fits(s, x, p) ==> Fits(s', x, p)
    ensures Placed(s')
  {
    forall y ensures PlaceOk(s', y) {
      assert PlaceOk(s, y);
      assert Contents(s', y) == Contents(s, y);
    }
  }

  // ----- what does not change ------------------------------------------------------------------------

  ghost predicate SameWorker(s: System, s': System, w: Id) {
    && At(s'.up, w) == At(s.up, w) && At(s'.down, w) == At(s.down, w)
    && (w in s'.workers <==> w in s.workers) && (w in s.workers ==> s'.workers[w] == s.workers[w])
    && (w in s'.owner <==> w in s.owner) && (w in s.owner ==> s'.owner[w] == s.owner[w])
    && (forall n :: w in Svc(s', n).idle <==> w in Svc(s, n).idle)
  }

  lemma SameWorkerOk(s: System, s': System, w: Id)
    requires WorkerOk(s, w) && SameWorker(s, s', w)
    ensures WorkerOk(s', w)
  {
    forall n ensures w in Svc(s', n).idle <==> w in Svc(s, n).idle {}
  }

  // Only worker w changes.
  lemma OtherWorkersOk(s: System, s': System, w: Id)
    requires WorkersOk(s) && WorkerOk(s', w)
    requires forall x :: x != w ==> SameWorker(s, s', x)
    ensures WorkersOk(s')
  {
    forall x ensures WorkerOk(s', x) {
      assert WorkerOk(s, x);
      if x != w {
        SameWorkerOk(s, s', x);
      }
    }
  }

  lemma AllWorkersOk(s: System, s': System)
    requires WorkersOk(s)
    requires s'.up == s.up && s'.down == s.down && s'.workers == s.workers && s'.owner == s.owner
    requires forall n :: Svc(s', n).idle == Svc(s, n).idle
    ensures WorkersOk(s')
  {
    forall x ensures WorkerOk(s', x) {
      assert WorkerOk(s, x);
      SameWorkerOk(s, s', x);
    }
  }

  // Only service n changes.
  lemma OtherServicesOk(s: System, s': System, n: Name, hole: Option<Name>)
    requires ServicesOk(s, Some(n))
    requires ServiceOk(Svc(s', n)) && (hole == Some(n) || Live(Svc(s', n)))
    requires forall x :: x != n ==> Svc(s', x) == Svc(s, x)
    ensures ServicesOk(s', hole)
  {
    forall x ensures ServiceOk(Svc(s', x)) && (hole == Some(x) || Live(Svc(s', x))) {
      assert ServiceOk(Svc(s, x)) && (x == n || Live(Svc(s, x)));
    }
  }

  lemma SameServicesOk(s: System, s': System)
    requires ServicesOk(s, None) && s'.services == s.services
    ensures ServicesOk(s', None)
  {
    forall x ensures ServiceOk(Svc(s', x)) && Live(Svc(s', x)) {
      assert Svc(s', x) == Svc(s, x);
      assert ServiceOk(Svc(s, x)) && Live(Svc(s, x));
    }
  }

  // ----- the history of a request that moves on ----------------------------------------------------------

  // Where a request can go from a place.
  predicate NextPlace(p: Place, q: Place) {
    match p
    case Calling(_) => q.Waiting?
    case Waiting(_) => q.Sent?
    case Sent(w) => q == Working(w)
    case Working(w) => q == Replying(w) || q == Lost
    case Replying(_) => q.Answering?
    case Answering(_) => q == Done
    case Done => false
    case Lost => false
  }

  lemma Retraced(s: System, s': System, r: nat)
    requires Traced(s) && r in s.place && r in s'.place && s'.place == s.place[r := s'.place[r]]
    requires s'.issued == s.issued && NextPlace(s.place[r], s'.place[r])
    requires s'.handedTo == (if s'.place[r].Sent? then s.handedTo[r := s'.place[r].worker] else s.handedTo)
    requires if s'.place[r].Replying? then r in s'.results && s'.results == s.results[r := s'.results[r]]
             else s'.results == s.results
    ensures Traced(s')
  {
  }

  // ----- a client calls ------------------------------------------------------------------------------

  lemma CallIssuedPlaced(s: System, c: Id, n: Name, body: Body)
    requires Placed(s) && Traced(s)
    ensures Placed(CallIssued(s, c, n, body))
  {
    var s' := CallIssued(s, c, n, body);
    var q := s'.issued[|s.issued|];
    assert q.rid !in s.place;
    assert Items(s', Calling(c)) == Items(s, Calling(c)) + [Asking(q)];
    assert StillFits(s, s', q.rid);
    forall y ensures PlaceOk(s', y) {
      assert PlaceOk(s, y);
      if y == Calling(c) {
        Arrives(s, s', Asking(q), y);
      } else {
        Stays(s, s', q.rid, y);
      }
    }
  }

  lemma CallIssuedTraced(s: System, c: Id, n: Name, body: Body)
    requires Traced(s)
    ensures Traced(CallIssued(s, c, n, body))
  {
  }

  lemma CallIssuedKeeps(s: System, c: Id, n: Name, body: Body)
    requires Inv(s)
    ensures Inv(CallIssued(s, c, n, body))
  {
    var s' := CallIssued(s, c, n, body);
    CallIssuedPlaced(s, c, n, body);
    CallIssuedTraced(s, c, n, body);
    AllWorkersOk(s, s');
    SameServicesOk(s, s');
  }

  lemma CallQueuedPlaced(s: System, c: Id)
    requires Placed(s) && At(s.calls, c) != []
    ensures Placed(CallQueued(s, c))
    ensures s.calls[c][0].rid in s.place && s.place[s.calls[c][0].rid] == Calling(c)
  {
    var s' := CallQueued(s, c);
    var q := s.calls[c][0];
    assert PlaceOk(s, Calling(c));
    FirstAndRest(s, Calling(c));
    assert Items(s', Calling(c)) == Items(s, Calling(c))[1..];
    assert Items(s', Waiting(q.service)) == Items(s, Waiting(q.service)) + [Asking(q)];
    Moved(s, s', Asking(q), Calling(c), Waiting(q.service));
  }

  lemma CallQueuedServices(s: System, c: Id)
    requires ServicesOk(s, None) && At(s.calls, c) != []
    ensures ServicesOk(CallQueued(s, c), Some(s.calls[c][0].service))
  {
    var s' := CallQueued(s, c);
    var q := s.calls[c][0];
    var v := Svc(s, q.service);
    assert ServiceOk(v);
    assert v.served + (v.queue + [q]) == (v.served + v.queue) + [q];
    assert ServiceOk(Queued(v, q));
    OtherServicesOk(s, s', q.service, Some(q.service));
  }

  lemma CallQueuedTraced(s: System, c: Id)
    requires Placed(s) && Traced(s) && At(s.calls, c) != []
    ensures Traced(CallQueued(s, c))
  {
    CallQueuedPlaced(s, c);
    Retraced(s, CallQueued(s, c), s.calls[c][0].rid);
  }

  lemma CallQueuedKeeps(s: System, c: Id)
    requires Inv(s) && At(s.calls, c) != []
    ensures InvBut(CallQueued(s, c), Some(s.calls[c][0].service))
  {
    CallQueuedPlaced(s, c);
    CallQueuedTraced(s, c);
    AllWorkersOk(s, CallQueued(s, c));
    CallQueuedServices(s, c);
  }

  // ----- the broker dispatches -------------------------------------------------------------------------

  // An idle worker of service n is in no other place, and its service is n.
  lemma IdleWorker(s: System, n: Name, w: Id)
    requires WorkersOk(s) && w in Svc(s, n).idle
    ensures w in s.workers && s.workers[w].service == n && s.workers[w].task.None?
    ensures At(s.down, w) == [] && !HasToken(At(s.up, w)) && w in s.owner && s.owner[w] == n
    ensures At(s.up, w) == [] || At(s.up, w) == [Disconnect]
  {
    assert WorkerOk(s, w);
  }

  lemma DispatchPlaced(s: System, n: Name)
    requires Placed(s) && WorkersOk(s) && Svc(s, n).idle != [] && Svc(s, n).queue != []
    ensures Placed(Dispatch(s, n))
    ensures var q := Svc(s, n).queue[0]; q.rid in s.place && s.place[q.rid] == Waiting(n)
  {
    var s' := Dispatch(s, n);
    var q, w := Svc(s, n).queue[0], Svc(s, n).idle[0];
    IdleWorker(s, n, w);
    assert PlaceOk(s, Waiting(n));
    FirstAndRest(s, Waiting(n));
    assert Items(s', Waiting(n)) == Items(s, Waiting(n))[1..];
    assert Items(s', Sent(w)) == Items(s, Sent(w)) + [Asking(q)];
    Moved(s, s', Asking(q), Waiting(n), Sent(w));
  }

  lemma DispatchWorkers(s: System, n: Name)
    requires WorkersOk(s) && ServiceOk(Svc(s, n)) && Svc(s, n).idle != [] && Svc(s, n).queue != []
    ensures WorkersOk(Dispatch(s, n))
  {
    var s' := Dispatch(s, n);
    var w := Svc(s, n).idle[0];
    assert WorkerOk(s, w);
    IdleWorker(s, n, w);
    forall x ensures x in Svc(s', n).idle <==> x in Svc(s, n).idle && x != w {
      assert Svc(s, n).idle == [w] + Svc(s', n).idle;
    }
    forall x | x != w ensures SameWorker(s, s', x) {}
    forall m | m != n ensures w !in Svc(s', m).idle {
      assert Svc(s', m) == Svc(s, m) && w !in Svc(s, m).idle;
    }
    OtherWorkersOk(s, s', w);
  }

  lemma TurnOk(v: Service)
    requires ServiceOk(v)
    ensures ServiceOk(Turn(v).0) && Live(Turn(v).0)
  {
    if v.idle != [] && v.queue != [] {
      assert v.queue == [v.queue[0]] + v.queue[1..];
      assert v.served + v.queue == (v.served + [v.queue[0]]) + v.queue[1..];
    }
  }

  lemma DispatchServices(s: System, n: Name)
    requires ServicesOk(s, Some(n))
    ensures ServicesOk(Dispatch(s, n), None)
  {
    assert ServiceOk(Svc(s, n));
    TurnOk(Svc(s, n));
    OtherServicesOk(s, Dispatch(s, n), n, None);
  }

  lemma DispatchKeeps(s: System, n: Name)
    requires InvBut(s, Some(n))
    ensures Inv(Dispatch(s, n))
  {
    var s' := Dispatch(s, n);
    DispatchServices(s, n);
    if Svc(s, n).idle != [] && Svc(s, n).queue != [] {
      DispatchPlaced(s, n);
      Retraced(s, s', Svc(s, n).queue[0].rid);
      DispatchWorkers(s, n);
    } else {
      DispatchNothing(s, n);
    }
  }

  lemma DispatchNothing(s: System, n: Name)
    requires InvBut(s, Some(n)) && (Svc(s, n).idle == [] || Svc(s, n).queue == [])
    ensures Placed(Dispatch(s, n)) && Traced(Dispatch(s, n)) && WorkersOk(Dispatch(s, n)) && !Dispatch(s, n).crashed
  {
    var s' := Dispatch(s, n);
    assert forall x :: Svc(s', x) == Svc(s, x);
    forall y ensures Items(s', y) == Items(s, y) {}
    Unmoved(s, s');
    AllWorkersOk(s, s');
  }

  lemma LoopGoneKeeps(s: System, n: Name)
    requires Inv(s)
    ensures Svc(s, n).loops > 0 ==> InvBut(LoopGone(s, n), Some(n))
    ensures Svc(s, n).replying > 0 ==> InvBut(ReplyGone(s, n), Some(n))
  {
    if Svc(s, n).loops > 0 {
      SuspensionGone(s, LoopGone(s, n), n);
    }
    if Svc(s, n).replying > 0 {
      SuspensionGone(s, ReplyGone(s, n), n);
    }
  }

  // The service differs only in its suspended activations.
  predicate Suspends(s: System, s': System, n: Name) {
    && s' == s.(services := s.services[n := Svc(s', n)])
    && Svc(s', n) == Svc(s, n).(loops := Svc(s', n).loops, replying := Svc(s', n).replying)
  }

  lemma SuspensionItems(s: System, s': System, n: Name, y: Place)
    requires Suspends(s, s', n)
    ensures Items(s', y) == Items(s, y)
  {
  }

  lemma SuspensionPlaced(s: System, s': System, n: Name)
    requires Placed(s) && Suspends(s, s', n)
    ensures Placed(s')
  {
    forall y ensures Items(s', y) == Items(s, y) {
      SuspensionItems(s, s', n, y);
    }
    Unmoved(s, s');
  }

  lemma SuspensionServices(s: System, s': System, n: Name)
    requires ServicesOk(s, None) && Suspends(s, s', n)
    ensures ServicesOk(s', Some(n))
  {
    assert ServiceOk(Svc(s, n));
    OtherServicesOk(s, s', n, Some(n));
  }

  lemma SuspensionGone(s: System, s': System, n: Name)
    requires Inv(s) && Suspends(s, s', n)
    ensures InvBut(s', Some(n))
  {
    SuspensionPlaced(s, s', n);
    SuspensionServices(s, s', n);
    AllWorkersOk(s, s');
  }

  // ----- the broker hears from a worker ----------------------------------------------------------------

  lemma ListedOk(v: Service, w: Id)
    requires ServiceOk(v)
    ensures ServiceOk(Listed(v, w))
  {
  }

  lemma ListedHas(v: Service, w: Id)
    ensures forall x :: x in Listed(v, w).idle <==> x in v.idle || x == w
  {
  }

  lemma ReadyTakenOthers(s: System, w: Id, x: Id)
    requires At(s.up, w) != [] && s.up[w][0].Ready? && x != w
    ensures SameWorker(s, ReadyTaken(s, w), x)
  {
    ListedHas(Svc(s, s.up[w][0].service), w);
  }

  lemma ReadyTakenWorker(s: System, w: Id)
    requires WorkerOk(s, w) && At(s.up, w) != [] && s.up[w][0].Ready?
    ensures WorkerOk(ReadyTaken(s, w), w)
  {
    var s' := ReadyTaken(s, w);
    var n := s.up[w][0].service;
    ListedHas(Svc(s, n), w);
    forall m | m != n ensures w !in Svc(s', m).idle {
      assert Svc(s', m) == Svc(s, m) && w !in Svc(s, m).idle;
    }
  }

  lemma ReadyTakenWorkers(s: System, w: Id)
    requires WorkersOk(s) && At(s.up, w) != [] && s.up[w][0].Ready?
    ensures WorkersOk(ReadyTaken(s, w))
  {
    assert WorkerOk(s, w);
    ReadyTakenWorker(s, w);
    forall x | x != w ensures SameWorker(s, ReadyTaken(s, w), x) {
      ReadyTakenOthers(s, w, x);
    }
    OtherWorkersOk(s, ReadyTaken(s, w), w);
  }

  lemma ReadyTakenPlaced(s: System, w: Id)
    requires Placed(s) && WorkersOk(s) && At(s.up, w) != [] && s.up[w][0].Ready?
    ensures Placed(ReadyTaken(s, w))
  {
    var s' := ReadyTaken(s, w);
    assert WorkerOk(s, w);
    forall y ensures Items(s', y) == Items(s, y) {}
    Unmoved(s, s');
  }

  lemma ReadyTakenKeeps(s: System, w: Id)
    requires Inv(s) && At(s.up, w) != [] && s.up[w][0].Ready?
    ensures InvBut(ReadyTaken(s, w), Some(s.up[w][0].service))
  {
    var s' := ReadyTaken(s, w);
    var n := s.up[w][0].service;
    assert WorkerOk(s, w) && ServiceOk(Svc(s, n));
    ListedOk(Svc(s, n), w);
    ReadyTakenWorkers(s, w);
    ReadyTakenPlaced(s, w);
    OtherServicesOk(s, s', n, Some(n));
  }

  lemma ConsSorted(w: Id, ws: seq<Id>, since: map<Id, nat>)
    requires SortedBy(ws, since) && w in since && forall x :: x in ws ==> since[w] < since[x]
    ensures SortedBy([w] + ws, since)
  {
  }

  lemma TailSorted(ws: seq<Id>, since: map<Id, nat>)
    requires SortedBy(ws, since) && ws != []
    ensures SortedBy(ws[1..], since) && ws[0] in since
    ensures forall x :: x in ws[1..] ==> x in since && since[ws[0]] < since[x]
  {
    var rest := ws[1..];
    forall i, j | 0 <= i < j < |rest| ensures since[rest[i]] < since[rest[j]] {
      assert rest[i] == ws[i + 1] && rest[j] == ws[j + 1];
    }
  }

  lemma {:induction false} WithoutSorted(ws: seq<Id>, w: Id, since: map<Id, nat>)
    requires SortedBy(ws, since)
    ensures SortedBy(Without(ws, w), since)
  {
    if ws != [] {
      TailSorted(ws, since);
      WithoutSorted(ws[1..], w, since);
      if ws[0] != w {
        ConsSorted(ws[0], Without(ws[1..], w), since);
      }
    }
  }

  lemma WithoutOk(v: Service, w: Id)
    requires ServiceOk(v)
    ensures ServiceOk(v.(idle := Without(v.idle, w)))
  {
    WithoutSorted(v.idle, w, v.since);
  }

  // The broker knows the service of every worker that sends REPLY or DISCONNECT.
  lemma OwnerKnown(s: System, w: Id)
    requires Inv(s) && At(s.up, w) != [] && !s.up[w][0].Ready?
    ensures w in s.workers && w in s.owner && s.owner[w] == s.workers[w].service
  {
    assert WorkerOk(s, w);
  }

  lemma DisconnectTakenWorkers(s: System, w: Id, n: Name)
    requires WorkersOk(s) && At(s.up, w) != [] && s.up[w][0].Disconnect? && w in s.owner && s.owner[w] == n
    ensures WorkersOk(DisconnectTaken(s, w, n))
  {
    var s' := DisconnectTaken(s, w, n);
    assert WorkerOk(s, w);
    forall m ensures w !in Svc(s', m).idle {
      assert m != n ==> Svc(s', m) == Svc(s, m) && w !in Svc(s, m).idle;
    }
    forall x | x != w ensures SameWorker(s, s', x) {}
    OtherWorkersOk(s, s', w);
  }

  lemma DisconnectTakenPlaced(s: System, w: Id, n: Name)
    requires Placed(s) && WorkersOk(s) && At(s.up, w) != [] && s.up[w][0].Disconnect?
    ensures Placed(DisconnectTaken(s, w, n))
  {
    var s' := DisconnectTaken(s, w, n);
    assert WorkerOk(s, w);
    forall y ensures Items(s', y) == Items(s, y) {}
    Unmoved(s, s');
  }

  lemma DisconnectTakenKeeps(s: System, w: Id, n: Name)
    requires Inv(s) && At(s.up, w) != [] && s.up[w][0].Disconnect? && w in s.owner && s.owner[w] == n
    ensures InvBut(DisconnectTaken(s, w, n), Some(n))
  {
    var s' := DisconnectTaken(s, w, n);
    assert WorkerOk(s, w) && ServiceOk(Svc(s, n));
    DisconnectTakenWorkers(s, w, n);
    WithoutOk(Svc(s, n), w);
    DisconnectTakenPlaced(s, w, n);
    OtherServicesOk(s, s', n, Some(n));
  }

  lemma ReplyTakenItems(s: System, w: Id, n: Name, y: Place)
    requires WorkerOk(s, w) && At(s.up, w) != [] && s.up[w][0].Replied?
    requires y != Replying(w) && y != Answering(s.up[w][0].reply.client)
    ensures Items(ReplyTaken(s, w, n), y) == Items(s, y)
  {
    var s' := ReplyTaken(s, w, n);
    forall m ensures Svc(s', m).queue == Svc(s, m).queue {}
  }

  lemma ReplyTakenPlaced(s: System, w: Id, n: Name)
    requires Placed(s) && WorkersOk(s) && At(s.up, w) != [] && s.up[w][0].Replied?
    ensures Placed(ReplyTaken(s, w, n))
    ensures var r := s.up[w][0].reply.rid; r in s.place && s.place[r] == Replying(w)
  {
    var s' := ReplyTaken(s, w, n);
    var rep := s.up[w][0].reply;
    assert WorkerOk(s, w);
    assert PlaceOk(s, Replying(w));
    FirstAndRest(s, Replying(w));
    assert Items(s', Replying(w)) == Items(s, Replying(w))[1..];
    assert Items(s', Answering(rep.client)) == Items(s, Answering(rep.client)) + [Telling(rep)];
    forall y | y != Replying(w) && y != Answering(rep.client) ensures Items(s', y) == Items(s, y) {
      ReplyTakenItems(s, w, n, y);
    }
    Moved(s, s', Telling(rep), Replying(w), Answering(rep.client));
  }

  lemma ReplyTakenOthers(s: System, w: Id, n: Name, x: Id)
    requires At(s.up, w) != [] && s.up[w][0].Replied? && x != w
    ensures SameWorker(s, ReplyTaken(s, w, n), x)
  {
    ListedHas(Svc(s, n), w);
  }

  lemma ReplyTakenWorker(s: System, w: Id, n: Name)
    requires WorkerOk(s, w) && At(s.up, w) != [] && s.up[w][0].Replied? && w in s.owner && s.owner[w] == n
    ensures WorkerOk(ReplyTaken(s, w, n), w)
  {
    var s' := ReplyTaken(s, w, n);
    ListedHas(Svc(s, n), w);
    forall m | m != n ensures w !in Svc(s', m).idle {
      assert Svc(s', m) == Svc(s, m) && w !in Svc(s, m).idle;
    }
  }

  lemma ReplyTakenWorkers(s: System, w: Id, n: Name)
    requires WorkersOk(s) && At(s.up, w) != [] && s.up[w][0].Replied? && w in s.owner && s.owner[w] == n
    ensures WorkersOk(ReplyTaken(s, w, n))
  {
    assert WorkerOk(s, w);
    ReplyTakenWorker(s, w, n);
    forall x | x != w ensures SameWorker(s, ReplyTaken(s, w, n), x) {
      ReplyTakenOthers(s, w, n, x);
    }
    OtherWorkersOk(s, ReplyTaken(s, w, n), w);
  }

  lemma ReplyTakenKeeps(s: System, w: Id, n: Name)
    requires Inv(s) && At(s.up, w) != [] && s.up[w][0].Replied? && w in s.owner && s.owner[w] == n
    ensures Inv(ReplyTaken(s, w, n))
  {
    var s' := ReplyTaken(s, w, n);
    ReplyTakenPlaced(s, w, n);
    Retraced(s, s', s.up[w][0].reply.rid);
    assert ServiceOk(Svc(s, n));
    ReplyTakenWorkers(s, w, n);
    ListedOk(Svc(s, n), w);
    OtherServicesOk(s, s', n, None);
  }

  lemma BrokerGetsUpKeeps(s: System, w: Id)
    requires Inv(s) && At(s.up, w) != []
    ensures Inv(BrokerGetsUp(s, w))
  {
    match s.up[w][0]
    case Ready(n) =>
      ReadyTakenKeeps(s, w);
      DispatchKeeps(ReadyTaken(s, w), n);
    case Replied(_) =>
      OwnerKnown(s, w);
      ReplyTakenKeeps(s, w, s.owner[w]);
    case Disconnect =>
      OwnerKnown(s, w);
      DisconnectTakenKeeps(s, w, s.owner[w]);
      DispatchKeeps(DisconnectTaken(s, w, s.owner[w]), s.owner[w]);
  }

  // ----- a worker works ----------------------------------------------------------------------------------

  lemma StartedPlaced(s: System, w: Id, n: Name)
    requires Placed(s) && WorkersOk(s) && w !in s.workers
    ensures Placed(Started(s, w, n))
  {
    var s' := Started(s, w, n);
    assert WorkerOk(s, w);
    forall y ensures Items(s', y) == Items(s, y) {}
    Unmoved(s, s');
  }

  lemma StartedKeeps(s: System, w: Id, n: Name)
    requires Inv(s) && w !in s.workers
    ensures Inv(Started(s, w, n))
  {
    var s' := Started(s, w, n);
    assert WorkerOk(s, w);
    forall x | x != w ensures SameWorker(s, s', x) {}
    forall m ensures w !in Svc(s', m).idle {
      assert Svc(s', m) == Svc(s, m);
    }
    OtherWorkersOk(s, s', w);
    StartedPlaced(s, w, n);
    SameServicesOk(s, s');
  }

  lemma TakenPlaced(s: System, w: Id)
    requires Placed(s) && WorkersOk(s) && CanTake(s, w)
    ensures Placed(Taken(s, w))
    ensures s.down[w][0].rid in s.place && s.place[s.down[w][0].rid] == Sent(w)
  {
    var s' := Taken(s, w);
    var q := s.down[w][0];
    assert WorkerOk(s, w);
    assert PlaceOk(s, Sent(w));
    FirstAndRest(s, Sent(w));
    assert Items(s', Sent(w)) == Items(s, Sent(w))[1..];
    assert Items(s', Working(w)) == Items(s, Working(w)) + [Asking(q)];
    Moved(s, s', Asking(q), Sent(w), Working(w));
  }

  lemma TakenKeeps(s: System, w: Id)
    requires Inv(s) && CanTake(s, w)
    ensures Inv(Taken(s, w))
  {
    var s' := Taken(s, w);
    TakenPlaced(s, w);
    assert WorkerOk(s, w);
    Retraced(s, s', s.down[w][0].rid);
    WorkerStepOk(s, s', w);
    SameServicesOk(s, s');
  }

  // A step of a worker that keeps its token, if it has one.
  lemma WorkerStepOk(s: System, s': System, w: Id)
    requires WorkersOk(s) && w in s.workers && w in s'.workers
    requires s'.workers[w].service == s.workers[w].service && s'.workers[w].phase == s.workers[w].phase
    requires s' == s.(down := s.down[w := At(s'.down, w)], workers := s.workers[w := s'.workers[w]], place := s'.place)
      || s' == s.(up := s.up[w := At(s'.up, w)], workers := s.workers[w := s'.workers[w]], place := s'.place,
                  results := s'.results)
    requires s'.workers[w].phase != Closed && UpShape(At(s'.up, w), s'.workers[w].phase)
    requires Tokens(s', w) == Tokens(s, w)
    requires At(s.up, w) != [] ==> At(s'.up, w) != [] && At(s'.up, w)[0] == At(s.up, w)[0]
    requires At(s.up, w) == [] ==> At(s'.up, w) == [] || !At(s'.up, w)[0].Ready?
    ensures WorkersOk(s')
  {
    assert WorkerOk(s, w);
    forall x | x != w ensures SameWorker(s, s', x) {}
    forall m | m != s.workers[w].service ensures w !in Svc(s', m).idle {
      assert Svc(s', m) == Svc(s, m);
    }
    OtherWorkersOk(s, s', w);
  }

  lemma AnsweredItems(s: System, w: Id, body: Body, y: Place)
    requires WorkerOk(s, w) && CanReply(s, w) && y != Working(w) && y != Replying(w)
    ensures Items(Answered(s, w, body), y) == Items(s, y)
  {
  }

  lemma AnsweredPlaced(s: System, w: Id, body: Body)
    requires Placed(s) && Traced(s) && WorkersOk(s) && CanReply(s, w)
    ensures Placed(Answered(s, w, body))
    ensures var r := s.workers[w].task.value.rid; r in s.place && s.place[r] == Working(w)
  {
    var s' := Answered(s, w, body);
    var q := s.workers[w].task.value;
    var rep := Reply(q.rid, q.client, body);
    assert WorkerOk(s, w);
    assert PlaceOk(s, Working(w));
    FirstAndRest(s, Working(w));
    assert Items(s', Working(w)) == Items(s, Working(w))[1..];
    assert Items(s', Replying(w)) == Items(s, Replying(w)) + [Telling(rep)];
    forall y | y != Working(w) && y != Replying(w) ensures Items(s', y) == Items(s, y) {
      AnsweredItems(s, w, body, y);
    }
    Moved(s, s', Telling(rep), Working(w), Replying(w));
  }

  lemma AnsweredKeeps(s: System, w: Id, body: Body)
    requires Inv(s) && CanReply(s, w)
    ensures Inv(Answered(s, w, body))
  {
    var s' := Answered(s, w, body);
    AnsweredPlaced(s, w, body);
    Retraced(s, s', s.workers[w].task.value.rid);
    assert WorkerOk(s, w);
    WorkerStepOk(s, s', w);
    SameServicesOk(s, s');
  }

  // DISCONNECT goes behind whatever is on the way, so a reply stays where it is.
  lemma StoppedItems(s: System, w: Id, y: Place)
    requires WorkerOk(s, w) && CanStop(s, w)
    ensures Items(Stopped(s, w), y) == Items(s, y)
  {
  }

  lemma StoppedWorkers(s: System, w: Id)
    requires WorkersOk(s) && CanStop(s, w)
    ensures WorkersOk(Stopped(s, w))
  {
    var s' := Stopped(s, w);
    assert WorkerOk(s, w);
    forall n ensures Svc(s', n) == Svc(s, n) {}
    forall x | x != w ensures SameWorker(s, s', x) {}
    OtherWorkersOk(s, s', w);
  }

  lemma StoppedKeeps(s: System, w: Id)
    requires Inv(s) && CanStop(s, w)
    ensures Inv(Stopped(s, w))
  {
    var s' := Stopped(s, w);
    assert WorkerOk(s, w);
    forall y ensures Items(s', y) == Items(s, y) {
      StoppedItems(s, w, y);
    }
    Unmoved(s, s');
    StoppedWorkers(s, w);
    SameServicesOk(s, s');
  }

  // ----- a worker lets go of what it has in hand -------------------------------------------------------

  // What dropping does, apart from what happens to the task.
  predicate Drops(s: System, s': System, w: Id, phase: Phase) {
    && w in s.workers && s.workers[w].phase == Stopping && phase != Running
    && s'.workers == s.workers[w := Worker(s.workers[w].service, None, phase)]
    && s'.up == s.up && s'.services == s.services && s'.owner == s.owner && s'.calls == s.calls && s'.down == s.down
    && s'.answers == s.answers && s'.done == s.done && s'.issued == s.issued && s'.results == s.results
  }

  lemma DroppedItems(s: System, s': System, w: Id, phase: Phase, y: Place)
    requires Drops(s, s', w, phase) && y != Working(w) && y != Lost
    ensures Items(s', y) == Items(s, y)
  {
  }

  lemma DroppedWorkers(s: System, s': System, w: Id, phase: Phase)
    requires WorkersOk(s) && Drops(s, s', w, phase)
    ensures WorkersOk(s')
  {
    assert WorkerOk(s, w);
    forall n ensures Svc(s', n) == Svc(s, n) {}
    forall x | x != w ensures SameWorker(s, s', x) {}
    OtherWorkersOk(s, s', w);
  }

  lemma DroppedPlaced(s: System, s': System, w: Id, phase: Phase)
    requires Placed(s) && Traced(s) && WorkersOk(s) && Drops(s, s', w, phase) && s'.handedTo == s.handedTo
    requires match s.workers[w].task
             case None => s'.place == s.place && s'.lost == s.lost
             case Some(q) => s'.place == s.place[q.rid := Lost] && s'.lost == s.lost + [q]
    ensures Placed(s') && Traced(s')
  {
    assert WorkerOk(s, w);
    forall y | y != Working(w) && y != Lost ensures Items(s', y) == Items(s, y) {
      DroppedItems(s, s', w, phase, y);
    }
    assert Items(s', Working(w)) == [];
    match s.workers[w].task
    case Some(q) =>
      assert PlaceOk(s, Working(w));
      FirstAndRest(s, Working(w));
      assert Items(s', Lost) == Items(s, Lost) + [Asking(q)];
      Moved(s, s', Asking(q), Working(w), Lost);
      Retraced(s, s', q.rid);
    case None =>
      assert Items(s', Lost) == Items(s, Lost);
      Unmoved(s, s');
  }

  lemma DroppedKeeps(s: System, w: Id, phase: Phase)
    requires Inv(s) && CanClose(s, w) && phase != Running
    ensures Inv(Dropped(s, w, phase))
  {
    DropsFacts(s, w, phase);
    DroppedKeepsAll(s, Dropped(s, w, phase), w, phase);
  }

  lemma DropsFacts(s: System, w: Id, phase: Phase)
    requires CanClose(s, w) && phase != Running
    ensures Drops(s, Dropped(s, w, phase), w, phase) && Dropped(s, w, phase).crashed == s.crashed
  {
  }

  lemma DroppedKeepsAll(s: System, s': System, w: Id, phase: Phase)
    requires Inv(s) && Drops(s, s', w, phase) && s'.handedTo == s.handedTo && s'.crashed == s.crashed
    requires match s.workers[w].task
             case None => s'.place == s.place && s'.lost == s.lost
             case Some(q) => s'.place == s.place[q.rid := Lost] && s'.lost == s.lost + [q]
    ensures Inv(s')
  {
    DroppedPlaced(s, s', w, phase);
    DroppedWorkers(s, s', w, phase);
    SameServicesOk(s, s');
  }

  // ----- a client gets its reply ---------------------------------------------------------------------------

  lemma FetchedPlaced(s: System, c: Id)
    requires Placed(s) && At(s.answers, c) != []
    ensures Placed(Fetched(s, c))
    ensures s.answers[c][0].rid in s.place && s.place[s.answers[c][0].rid] == Answering(c)
  {
    var s' := Fetched(s, c);
    var rep := s.answers[c][0];
    assert PlaceOk(s, Answering(c));
    FirstAndRest(s, Answering(c));
    assert Items(s', Answering(c)) == Items(s, Answering(c))[1..];
    assert Items(s', Done) == Items(s, Done) + [Telling(rep)];
    Moved(s, s', Telling(rep), Answering(c), Done);
  }

  lemma FetchedKeeps(s: System, c: Id)
    requires Inv(s) && At(s.answers, c) != []
    ensures Inv(Fetched(s, c))
  {
    var s' := Fetched(s, c);
    FetchedPlaced(s, c);
    Retraced(s, s', s.answers[c][0].rid);
    AllWorkersOk(s, s');
    SameServicesOk(s, s');
  }

  // ----- every run -------------------------------------------------------------------------------------------

  lemma StepKeeps(s: System, e: Event)
    requires Inv(s) && Enabled(s, e)
    ensures Inv(Apply(s, e))
  {
    match e
    case ClientCalls(c, n, body) => CallIssuedKeeps(s, c, n, body);
    case BrokerGetsCall(c) =>
      CallQueuedKeeps(s, c);
      DispatchKeeps(CallQueued(s, c), s.calls[c][0].service);
    case BrokerGetsMessage(w) => BrokerGetsUpKeeps(s, w);
    case LoopResumes(n) =>
      LoopGoneKeeps(s, n);
      DispatchKeeps(LoopGone(s, n), n);
    case ReplyResumes(n) =>
      LoopGoneKeeps(s, n);
      DispatchKeeps(ReplyGone(s, n), n);
    case WorkerStarts(w, n) => StartedKeeps(s, w, n);
    case WorkerTakes(w) => TakenKeeps(s, w);
    case WorkerReplies(w, body) => AnsweredKeeps(s, w, body);
    case WorkerStops(w) => StoppedKeeps(s, w);
    case WorkerDrops(w) => DroppedKeeps(s, w, Stopping);
    case WorkerCloses(w) => DroppedKeeps(s, w, Closed);
    case ClientFetches(c) => FetchedKeeps(s, c);
  }

  lemma {:induction false} RunKeeps(s: System, es: seq<Event>)
    requires Inv(s) && Runs(s, es)
    ensures Inv(Exec(s, es))
    decreases |es|
  {
    if es != [] {
      StepKeeps(s, es[0]);
      RunKeeps(Apply(s, es[0]), es[1..]);
    }
  }

  lemma StartInv()
    ensures Inv(START)
  {
    forall p ensures PlaceOk(START, p) {
      assert Items(START, p) == [];
    }
    forall w ensures WorkerOk(START, w) {}
  }

  ghost predicate Reachable(s: System) {
    exists es :: Runs(START, es) && Exec(START, es) == s
  }

  lemma ReachableInv(s: System)
    requires Reachable(s)
    ensures Inv(s)
  {
    var es :| Runs(START, es) && Exec(START, es) == s;
    StartInv();
    RunKeeps(START, es);
  }

  // A running worker is in exactly one of: READY or REPLY on the way to the broker, idle in its own
  // service, REQUEST on the way to it, working. It is idle in no other service, and there is at most
  // one message on the way from it.
  lemma WorkerToken(s: System, w: Id)
    requires Reachable(s) && w in s.workers && s.workers[w].phase == Running
    ensures Bit(HasToken(At(s.up, w))) + Bit(w in Svc(s, s.workers[w].service).idle) + |At(s.down, w)|
            + Bit(s.workers[w].task.Some?) == 1
    ensures forall n :: w in Svc(s, n).idle ==> n == s.workers[w].service
    ensures UpShape(At(s.up, w), Running)
  {
    ReachableInv(s);
    assert WorkerOk(s, w);
  }

  // Only idle workers are handed requests, and an idle worker has nothing else to do.
  lemma IdleWorkerHasNoRequest(s: System, n: Name, w: Id)
    requires Reachable(s) && w in Svc(s, n).idle
    ensures Serves(s, w, n) && s.workers[w].task.None? && At(s.down, w) == []
    ensures At(s.up, w) == [] || At(s.up, w) == [Disconnect]
  {
    ReachableInv(s);
    IdleWorker(s, n, w);
    assert WorkerOk(s, w);
  }

  lemma DispatchSkips(s: System, n: Name, w: Id)
    requires w !in Svc(s, n).idle
    ensures At(Dispatch(s, n).down, w) == At(s.down, w)
    ensures Dispatch(s, n).up == s.up && Dispatch(s, n).workers == s.workers
  {
  }

  // Every request is in exactly one place and there only once; what is there is the request as its
  // client issued it, or the reply its worker gave, addressed to the client that issued it. No more than
  // one reply is on the way from a worker, so the places leave none out.
  lemma RequestConservation(s: System, r: nat)
    requires Reachable(s) && r < |s.issued|
    ensures r in s.place
    ensures forall p :: r in Contents(s, p) <==> p == s.place[r]
    ensures Distinct(Contents(s, s.place[r]))
    ensures forall x :: x in Items(s, s.place[r]) ==> Fits(s, x, s.place[r])
    ensures forall w :: OneReply(At(s.up, w))
  {
    ReachableInv(s);
    forall w ensures OneReply(At(s.up, w)) {
      assert WorkerOk(s, w);
    }
    assert PlaceOk(s, s.place[r]);
    forall p ensures r in Contents(s, p) <==> p == s.place[r] {
      assert PlaceOk(s, p);
    }
  }

  // What was decided about requests stays so.
  ghost predicate Keeps(s: System, s': System) {
    && (forall r :: r in s.handedTo ==> r in s'.handedTo && s'.handedTo[r] == s.handedTo[r])
    && (forall r :: r in s.results ==> r in s'.results && s'.results[r] == s.results[r])
  }

  lemma DispatchIsNew(s: System, s1: System, n: Name)
    requires Placed(s1) && Traced(s1) && WorkersOk(s1) && s1.handedTo == s.handedTo && s1.results == s.results
    ensures Keeps(s, Dispatch(s1, n))
  {
    if Svc(s1, n).idle != [] && Svc(s1, n).queue != [] {
      DispatchPlaced(s1, n);
      WaitingIsNew(s1, n, Svc(s1, n).queue[0].rid);
    }
    DispatchKeepsHistory(s1, n);
  }

  lemma WaitingIsNew(s: System, n: Name, r: nat)
    requires Traced(s) && r in s.place && s.place[r] == Waiting(n)
    ensures r !in s.handedTo
  {
  }

  lemma DispatchKeepsHistory(s: System, n: Name)
    requires Svc(s, n).idle != [] && Svc(s, n).queue != [] ==> Svc(s, n).queue[0].rid !in s.handedTo
    ensures Keeps(s, Dispatch(s, n))
  {
  }

  lemma HistoryOfReady(s: System, w: Id, n: Name)
    requires Inv(s) && At(s.up, w) != [] && s.up[w][0] == Ready(n)
    ensures Keeps(s, Dispatch(ReadyTaken(s, w), n))
  {
    ReadyTakenKeeps(s, w);
    DispatchIsNew(s, ReadyTaken(s, w), n);
  }

  lemma HistoryOfDisconnect(s: System, w: Id, n: Name)
    requires Inv(s) && At(s.up, w) != [] && s.up[w][0].Disconnect? && w in s.owner && s.owner[w] == n
    ensures Keeps(s, Dispatch(DisconnectTaken(s, w, n), n))
  {
    DisconnectTakenKeeps(s, w, n);
    DispatchIsNew(s, DisconnectTaken(s, w, n), n);
  }

  lemma HistoryOfBroker(s: System, w: Id)
    requires Inv(s) && At(s.up, w) != []
    ensures Keeps(s, BrokerGetsUp(s, w))
  {
    match s.up[w][0]
    case Ready(n) => HistoryOfReady(s, w, n);
    case Replied(_) => OwnerKnown(s, w);
    case Disconnect =>
      OwnerKnown(s, w);
      HistoryOfDisconnect(s, w, s.owner[w]);
  }

  lemma HistoryElsewhere(s: System, e: Event)
    requires Inv(s) && Enabled(s, e)
    requires e.ClientCalls? || e.WorkerStarts? || e.WorkerTakes? || e.WorkerStops? || e.WorkerDrops?
          || e.WorkerCloses? || e.ClientFetches?
    ensures Keeps(s, Apply(s, e))
  {
  }

  lemma HistoryGrows(s: System, e: Event)
    requires Inv(s) && Enabled(s, e)
    ensures Keeps(s, Apply(s, e))
  {
    match e
    case BrokerGetsCall(c) =>
      CallQueuedKeeps(s, c);
      DispatchIsNew(s, CallQueued(s, c), s.calls[c][0].service);
    case BrokerGetsMessage(w) => HistoryOfBroker(s, w);
    case LoopResumes(n) =>
      LoopGoneKeeps(s, n);
      DispatchIsNew(s, LoopGone(s, n), n);
    case ReplyResumes(n) =>
      LoopGoneKeeps(s, n);
      DispatchIsNew(s, ReplyGone(s, n), n);
    case WorkerReplies(w, body) => AnsweredPlaced(s, w, body);
    case _ => HistoryElsewhere(s, e);
  }

  // What the history says: a client's own call, a worker's own result for what it has in hand, and what a
  // client takes from its channel.
  lemma HistoryTells(s: System, e: Event)
    requires Enabled(s, e)
    ensures match e
            case ClientCalls(c, n, body) => Apply(s, e).issued == s.issued + [Request(|s.issued|, c, n, body)]
            case WorkerReplies(w, body) => Apply(s, e).results == s.results[s.workers[w].task.value.rid := body]
            case ClientFetches(c) => Apply(s, e).done == s.done + [s.answers[c][0]]
            case _ => true
  {
  }

  // A request reaches at most one worker and gets at most one reply: once chosen, neither changes.
  lemma {:induction false} OneWorkerOneReply(s: System, es: seq<Event>, r: nat)
    requires Inv(s) && Runs(s, es)
    ensures r in s.handedTo ==> r in Exec(s, es).handedTo && Exec(s, es).handedTo[r] == s.handedTo[r]
    ensures r in s.results ==> r in Exec(s, es).results && Exec(s, es).results[r] == s.results[r]
    decreases |es|
  {
    if es != [] {
      HistoryGrows(s, es[0]);
      StepKeeps(s, es[0]);
      OneWorkerOneReply(Apply(s, es[0]), es[1..], r);
    }
  }

  // What a client got is the result of its own request, exactly as its worker gave it.
  lemma RepliesGoHome(s: System, rep: Reply)
    requires Reachable(s) && rep in s.done
    ensures rep.rid < |s.issued| && rep.rid in s.results && rep.rid in s.handedTo
    ensures rep == Reply(rep.rid, s.issued[rep.rid].client, s.results[rep.rid])
  {
    ReachableInv(s);
    assert PlaceOk(s, Done);
    assert Telling(rep) in Items(s, Done) by {
      var i :| 0 <= i < |s.done| && s.done[i] == rep;
      assert Items(s, Done)[i] == Telling(rep);
    }
  }

  // No lost dispatch: when a service has an idle worker and a queued request, a suspended activation
  // will hand the oldest request to the worker that has been listed longest.
  lemma NoLostDispatch(s: System, n: Name)
    requires Reachable(s) && Svc(s, n).idle != [] && Svc(s, n).queue != []
    ensures Svc(s, n).loops > 0 || Svc(s, n).replying > 0
    ensures Svc(s, n).loops > 0 ==> Enabled(s, LoopResumes(n)) && HandsOver(s, Apply(s, LoopResumes(n)), n)
    ensures Svc(s, n).replying > 0 ==> Enabled(s, ReplyResumes(n)) && HandsOver(s, Apply(s, ReplyResumes(n)), n)
    ensures forall x :: x in Svc(s, n).idle ==> ListedNoLater(Svc(s, n), Svc(s, n).idle[0], x)
  {
    ReachableInv(s);
    var v := Svc(s, n);
    assert ServiceOk(v) && Live(v);
    if v.loops > 0 {
      LoopHandsOver(s, n);
    }
    if v.replying > 0 {
      ReplyHandsOver(s, n);
    }
  }

  // A worker that is listed again keeps its turn; another one goes last.
  lemma ListingKeepsTurns(v: Service, w: Id)
    ensures var v' := Listed(v, w);
      && v.idle <= v'.idle && w in v'.idle && |v'.idle| == |v.idle| + Bit(w !in v.idle)
      && v'.queue == v.queue && v'.loops == v.loops && v'.replying == v.replying
  {
  }

  lemma LoopHandsOver(s: System, n: Name)
    requires Svc(s, n).idle != [] && Svc(s, n).queue != [] && Svc(s, n).loops > 0
    ensures HandsOver(s, Dispatch(LoopGone(s, n), n), n)
  {
    DispatchHandsOver(s, LoopGone(s, n), n);
  }

  lemma ReplyHandsOver(s: System, n: Name)
    requires Svc(s, n).idle != [] && Svc(s, n).queue != [] && Svc(s, n).replying > 0
    ensures HandsOver(s, Dispatch(ReplyGone(s, n), n), n)
  {
    DispatchHandsOver(s, ReplyGone(s, n), n);
  }

  predicate ListedNoLater(v: Service, w: Id, x: Id) {
    w in v.since && x in v.since && v.since[w] <= v.since[x]
  }

  predicate HandsOver(s: System, s': System, n: Name)
    requires Svc(s, n).idle != [] && Svc(s, n).queue != []
  {
    var w, q := Svc(s, n).idle[0], Svc(s, n).queue[0];
    && At(s'.down, w) == At(s.down, w) + [q]
    && Svc(s', n).queue == Svc(s, n).queue[1..] && Svc(s', n).idle == Svc(s, n).idle[1..]
  }

  lemma DispatchHandsOver(s: System, s1: System, n: Name)
    requires Svc(s, n).idle != [] && Svc(s, n).queue != []
    requires s1.down == s.down && Svc(s1, n).idle == Svc(s, n).idle && Svc(s1, n).queue == Svc(s, n).queue
    ensures HandsOver(s, Dispatch(s1, n), n)
  {
  }

  // Requests leave each service in the order in which they arrived there.
  lemma RequestsServedInOrder(s: System, n: Name)
    requires Reachable(s)
    ensures Svc(s, n).arrived == Svc(s, n).served + Svc(s, n).queue
  {
    ReachableInv(s);
    assert ServiceOk(Svc(s, n));
  }

  // The broker never looks up a worker it does not know.
  lemma BrokerNeverCrashes(s: System)
    requires Reachable(s)
    ensures !s.crashed
  {
    ReachableInv(s);
  }
}
