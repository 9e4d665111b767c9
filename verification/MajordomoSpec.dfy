/** The Majordomo example as a distributed protocol: any number of clients and workers, one broker,
    one FIFO channel from each client and each worker to the broker and one back. The broker's
    handlers are async functions: they run up to an `await` and go on later, so several loops of one
    service can be suspended at the same time. Assumed of the environment: the broker's sends do not
    fail, and a worker sends READY once, before anything else, and is stopped at most once.
    Majordomo.dfy proves that the broker's classes do the service steps used here. */
module MajordomoSpec {
  import opened Common

  type Id = Frame
  type Name = Frame
  type Body = seq<Frame>

  // The number of a request is only history: no handler looks at it.
  datatype Request = Request(rid: nat, client: Id, service: Name, body: Body)

  datatype Reply = Reply(rid: nat, client: Id, body: Body)

  // ----- a service of the broker -----------------------------------------------------------------

  // Workers are kept in the order in which they were listed, as a JavaScript Map does.
  // `loops` and `replying` count suspended activations of dispatchPending and dispatchReply.
  // `arrived`, `served`, `since` and `clock` are history.
  datatype Service = Service(
    idle: seq<Id>,
    queue: seq<Request>,
    loops: nat,
    replying: nat,
    arrived: seq<Request>,
    served: seq<Request>,
    since: map<Id, nat>,
    clock: nat)

  const NEW_SERVICE := Service([], [], 0, 0, [], [], map[], 0)

  datatype Output = Nothing | ToWorker(worker: Id, request: Request) | ToClient(reply: Reply)

  // dispatchPending up to its await, or to its end.
  function Turn(v: Service): (Service, Output) {
    if v.idle != [] && v.queue != [] then
      (v.(idle := v.idle[1..], queue := v.queue[1..], loops := v.loops + 1, served := v.served + [v.queue[0]]),
       ToWorker(v.idle[0], v.queue[0]))
    else (v, Nothing)
  }

  // Map.set: a key that is already there keeps its position.
  function Listed(v: Service, w: Id): Service {
    if w in v.idle then v
    else v.(idle := v.idle + [w], since := v.since[w := v.clock], clock := v.clock + 1)
  }

  function Without(ws: seq<Id>, w: Id): (r: seq<Id>)
    ensures forall x :: x in r <==> x in ws && x != w
  {
    if ws == [] then []
    else if ws[0] == w then Without(ws[1..], w)
    else [ws[0]] + Without(ws[1..], w)
  }

  function Queued(v: Service, q: Request): Service {
    v.(queue := v.queue + [q], arrived := v.arrived + [q])
  }

  // ----- the whole system ------------------------------------------------------------------------

  datatype Up = Ready(service: Name) | Replied(reply: Reply) | Disconnect

  // stop() sends DISCONNECT and waits for that before it closes the socket.
  datatype Phase = Running | Stopping | Closed

  datatype Worker = Worker(service: Name, task: Option<Request>, phase: Phase)

  // Where a request can be.
  datatype Place =
    | Calling(client: Id)       // on the way from the client
    | Waiting(service: Name)    // queued by its service
    | Sent(worker: Id)          // on the way to a worker
    | Working(worker: Id)
    | Replying(worker: Id)      // its reply is on the way from the worker
    | Answering(client: Id)     // its reply is on the way to the client
    | Done                      // the client has its reply
    | Lost                      // its worker was closed, or its reply refused, while working on it

  datatype System = System(
    services: map<Name, Service>,
    owner: map<Id, Name>,               // the broker's worker to service map
    crashed: bool,                      // the broker looked up a worker it does not know
    calls: map<Id, seq<Request>>,
    up: map<Id, seq<Up>>,
    down: map<Id, seq<Request>>,
    answers: map<Id, seq<Reply>>,
    workers: map<Id, Worker>,           // every worker that was started
    // history
    issued: seq<Request>,
    place: map<nat, Place>,
    handedTo: map<nat, Id>,
    results: map<nat, Body>,
    done: seq<Reply>,
    lost: seq<Request>)

  const START := System(map[], map[], false, map[], map[], map[], map[], map[], [], map[], map[], map[], [], [])

  function At<K, V>(m: map<K, seq<V>>, k: K): seq<V> {
    if k in m then m[k] else []
  }

  function Svc(s: System, n: Name): Service {
    if n in s.services then s.services[n] else NEW_SERVICE
  }

  function Emit(s: System, o: Output): System {
    match o
    case Nothing => s
    case ToWorker(w, q) =>
      s.(down := s.down[w := At(s.down, w) + [q]], place := s.place[q.rid := Sent(w)],
         handedTo := s.handedTo[q.rid := w])
    case ToClient(rep) =>
      s.(answers := s.answers[rep.client := At(s.answers, rep.client) + [rep]],
         place := s.place[rep.rid := Answering(rep.client)])
  }

  // dispatchPending for service n.
  function Dispatch(s: System, n: Name): System {
    var (v, o) := Turn(Svc(s, n));
    Emit(s.(services := s.services[n := v]), o)
  }

  function CallIssued(s: System, client: Id, service: Name, body: Body): System {
    var q := Request(|s.issued|, client, service, body);
    s.(calls := s.calls[client := At(s.calls, client) + [q]], issued := s.issued + [q],
       place := s.place[|s.issued| := Calling(client)])
  }

  function CallQueued(s: System, client: Id): System
    requires At(s.calls, client) != []
  {
    var q := s.calls[client][0];
    s.(calls := s.calls[client := s.calls[client][1..]],
       services := s.services[q.service := Queued(Svc(s, q.service), q)],
       place := s.place[q.rid := Waiting(q.service)])
  }

  function UpTaken(s: System, w: Id): System
    requires At(s.up, w) != []
  {
    s.(up := s.up[w := s.up[w][1..]])
  }

  function ReadyTaken(s: System, w: Id): System
    requires At(s.up, w) != [] && s.up[w][0].Ready?
  {
    var n := s.up[w][0].service;
    UpTaken(s, w).(owner := s.owner[w := n], services := s.services[n := Listed(Svc(s, n), w)])
  }

  function ReplyTaken(s: System, w: Id, n: Name): System
    requires At(s.up, w) != [] && s.up[w][0].Replied?
  {
    var v := Listed(Svc(s, n), w);
    Emit(UpTaken(s, w).(services := s.services[n := v.(replying := v.replying + 1)]), ToClient(s.up[w][0].reply))
  }

  function DisconnectTaken(s: System, w: Id, n: Name): System
    requires At(s.up, w) != []
  {
    var v := Svc(s, n);
    UpTaken(s, w).(services := s.services[n := v.(idle := Without(v.idle, w))])
  }

  function BrokerGetsUp(s: System, w: Id): System
    requires At(s.up, w) != []
  {
    match s.up[w][0]
    case Ready(n) => Dispatch(ReadyTaken(s, w), n)
    case Replied(_) => if w in s.owner then ReplyTaken(s, w, s.owner[w]) else s.(crashed := true)
    case Disconnect =>
      if w in s.owner then Dispatch(DisconnectTaken(s, w, s.owner[w]), s.owner[w]) else s.(crashed := true)
  }

  function LoopGone(s: System, n: Name): System
    requires Svc(s, n).loops > 0
  {
    s.(services := s.services[n := Svc(s, n).(loops := Svc(s, n).loops - 1)])
  }

  function ReplyGone(s: System, n: Name): System
    requires Svc(s, n).replying > 0
  {
    s.(services := s.services[n := Svc(s, n).(replying := Svc(s, n).replying - 1)])
  }

  function Started(s: System, w: Id, service: Name): System {
    s.(workers := s.workers[w := Worker(service, None, Running)], up := s.up[w := At(s.up, w) + [Ready(service)]])
  }

  predicate CanTake(s: System, w: Id) {
    w in s.workers && s.workers[w].phase != Closed && s.workers[w].task.None? && At(s.down, w) != []
  }

  function Taken(s: System, w: Id): System
    requires CanTake(s, w)
  {
    var q := s.down[w][0];
    s.(down := s.down[w := s.down[w][1..]], workers := s.workers[w := s.workers[w].(task := Some(q))],
       place := s.place[q.rid := Working(w)])
  }

  predicate CanReply(s: System, w: Id) {
    w in s.workers && s.workers[w].phase != Closed && s.workers[w].task.Some?
  }

  function Answered(s: System, w: Id, body: Body): System
    requires CanReply(s, w)
  {
    var q := s.workers[w].task.value;
    s.(up := s.up[w := At(s.up, w) + [Replied(Reply(q.rid, q.client, body))]],
       workers := s.workers[w := s.workers[w].(task := None)],
       place := s.place[q.rid := Replying(w)], results := s.results[q.rid := body])
  }

  predicate CanStop(s: System, w: Id) {
    w in s.workers && s.workers[w].phase == Running
  }

  // DISCONNECT is sent. What the worker is doing goes on.
  function Stopped(s: System, w: Id): System
    requires CanStop(s, w)
  {
    s.(workers := s.workers[w := s.workers[w].(phase := Stopping)], up := s.up[w := At(s.up, w) + [Disconnect]])
  }

  predicate CanClose(s: System, w: Id) {
    w in s.workers && s.workers[w].phase == Stopping
  }

  // What the worker has in hand will not be replied to any more.
  function Dropped(s: System, w: Id, phase: Phase): System
    requires w in s.workers
  {
    var k := s.workers[w];
    s.(workers := s.workers[w := Worker(k.service, None, phase)],
       place := if k.task.Some? then s.place[k.task.value.rid := Lost] else s.place,
       lost := if k.task.Some? then s.lost + [k.task.value] else s.lost)
  }

  // While DISCONNECT waits for libzmq, sending a reply is refused, and the worker ignores that.
  predicate CanDrop(s: System, w: Id) {
    w in s.workers && s.workers[w].phase == Stopping && s.workers[w].task.Some?
  }

  function Fetched(s: System, client: Id): System
    requires At(s.answers, client) != []
  {
    var rep := s.answers[client][0];
    s.(answers := s.answers[client := s.answers[client][1..]], place := s.place[rep.rid := Done],
       done := s.done + [rep])
  }

  datatype Event =
    | ClientCalls(client: Id, service: Name, body: Body)
    | BrokerGetsCall(client: Id)
    | BrokerGetsMessage(worker: Id)
    | LoopResumes(service: Name)          // a send awaited by dispatchPending is done
    | ReplyResumes(service: Name)         // a send awaited by dispatchReply is done
    | WorkerStarts(worker: Id, service: Name)
    | WorkerTakes(worker: Id)
    | WorkerReplies(worker: Id, body: Body)
    | WorkerStops(worker: Id)             // stop() sends DISCONNECT
    | WorkerDrops(worker: Id)             // a reply is refused meanwhile
    | WorkerCloses(worker: Id)            // and then closes the socket
    | ClientFetches(client: Id)

  predicate Enabled(s: System, e: Event) {
    !s.crashed &&
    match e
    case ClientCalls(_, _, _) => true
    case BrokerGetsCall(c) => At(s.calls, c) != []
    case BrokerGetsMessage(w) => At(s.up, w) != []
    case LoopResumes(n) => Svc(s, n).loops > 0
    case ReplyResumes(n) => Svc(s, n).replying > 0
    case WorkerStarts(w, _) => w !in s.workers
    case WorkerTakes(w) => CanTake(s, w)
    case WorkerReplies(w, _) => CanReply(s, w)
    case WorkerStops(w) => CanStop(s, w)
    case WorkerDrops(w) => CanDrop(s, w)
    case WorkerCloses(w) => CanClose(s, w)
    case ClientFetches(c) => At(s.answers, c) != []
  }

  function Apply(s: System, e: Event): System
    requires Enabled(s, e)
  {
    match e
    case ClientCalls(c, n, body) => CallIssued(s, c, n, body)
    case BrokerGetsCall(c) => Dispatch(CallQueued(s, c), s.calls[c][0].service)
    case BrokerGetsMessage(w) => BrokerGetsUp(s, w)
    case LoopResumes(n) => Dispatch(LoopGone(s, n), n)
    case ReplyResumes(n) => Dispatch(ReplyGone(s, n), n)
    case WorkerStarts(w, n) => Started(s, w, n)
    case WorkerTakes(w) => Taken(s, w)
    case WorkerReplies(w, body) => Answered(s, w, body)
    case WorkerStops(w) => Stopped(s, w)
    case WorkerDrops(w) => Dropped(s, w, Stopping)
    case WorkerCloses(w) => Dropped(s, w, Closed)
    case ClientFetches(c) => Fetched(s, c)
  }

  predicate Runs(s: System, es: seq<Event>)
    decreases |es|
  {
    es == [] || (Enabled(s, es[0]) && Runs(Apply(s, es[0]), es[1..]))
  }

  function Exec(s: System, es: seq<Event>): System
    requires Runs(s, es)
    decreases |es|
  {
    if es == [] then s else Exec(Apply(s, es[0]), es[1..])
  }
}
