/** The broker of the Majordomo example as the source has it: services and a broker whose handlers
    update maps and lists in place and share one router socket. An async handler is cut at its
    `await`: the part before it is a method, and so is the part that runs when the send is done. */
module Majordomo {
  import opened Common
  import Mdp
  import Spec = MajordomoSpec

  type Id = Frame
  type Name = Frame
  type Body = seq<Frame>

  // The router socket: what it was given to send, in order. Its sends do not fail.
  class Router {
    var sent: seq<Mdp.Frames>

    constructor ()
      ensures sent == []
    {
      sent := [];
    }

    method Send(frames: Mdp.Frames)
      modifies this
      ensures sent == old(sent) + [frames]
    {
      sent := sent + [frames];
    }
  }

  // The frames an output of the abstract service stands for.
  function Wire(o: Spec.Output, service: Name): seq<Mdp.Frames> {
    match o
    case Nothing => []
    case ToWorker(w, q) => [Mdp.BrokerSendsRequest(w, q.client, q.body)]
    case ToClient(rep) => [Mdp.BrokerSendsReply(rep.client, service, rep.body)]
  }

  datatype Entry = Entry(client: Id, body: Body)

  class Service {
    const name: Name
    const socket: Router
    var workers: seq<Id>                 // the keys of a Map, in insertion order
    var requests: seq<Entry>
    var loops: nat                       // suspended activations of dispatchPending
    var replying: nat                    // suspended activations of dispatchReply
    // History: the numbers of the queued requests, and what the abstract service remembers.
    ghost var tags: seq<nat>
    ghost var arrived: seq<Spec.Request>
    ghost var served: seq<Spec.Request>
    ghost var since: map<Id, nat>
    ghost var clock: nat

    ghost predicate Valid()
      reads this
    {
      |tags| == |requests|
    }

    ghost function Queue(): seq<Spec.Request>
      reads this
      requires Valid()
    {
      seq(|requests|, i requires 0 <= i < |requests| && |tags| == |requests| reads this
                      => Spec.Request(tags[i], requests[i].client, name, requests[i].body))
    }

    ghost function View(): Spec.Service
      reads this
      requires Valid()
    {
      Spec.Service(workers, Queue(), loops, replying, arrived, served, since, clock)
    }

    constructor (socket: Router, name: Name)
      ensures this.socket == socket && this.name == name && Valid() && View() == Spec.NEW_SERVICE
    {
      this.socket, this.name := socket, name;
      workers, requests, loops, replying := [], [], 0, 0;
      tags, arrived, served, since, clock := [], [], [], map[], 0;
      new;
      assert Queue() == [];
    }

    // Map.set: a key that is already there keeps its place.
    method SetWorker(worker: Id)
      requires Valid()
      modifies `workers, `since, `clock
      ensures Valid() && View() == Spec.Listed(old(View()), worker)
    {
      if worker !in workers {
        workers := workers + [worker];
        since, clock := since[worker := clock], clock + 1;
      }
    }

    // dispatchPending up to its first await, or to its end.
    method DispatchPending()
      requires Valid()
      modifies this, socket
      ensures Valid() && View() == Spec.Turn(old(View())).0
      ensures socket.sent == old(socket.sent) + Wire(Spec.Turn(old(View())).1, name)
    {
      ghost var v := View();
      if |workers| > 0 && |requests| > 0 {
        var worker := workers[0];
        workers := workers[1..];
        var request := requests[0];
        requests := requests[1..];
        served, tags := served + [v.queue[0]], tags[1..];
        socket.Send([worker, Mdp.EMPTY, Mdp.WORKER, Mdp.REQUEST, request.client, Mdp.EMPTY] + request.body);
        loops := loops + 1;
        assert Queue() == v.queue[1..];
      }
    }

    // The loop goes on when the send it waited for is done.
    method OnRequestSent()
      requires Valid() && loops > 0
      modifies this, socket
      ensures var v := old(View()).(loops := old(loops) - 1);
              Valid() && View() == Spec.Turn(v).0 && socket.sent == old(socket.sent) + Wire(Spec.Turn(v).1, name)
    {
      loops := loops - 1;
      DispatchPending();
    }

    method DispatchRequest(client: Id, body: Body, ghost tag: nat)
      requires Valid()
      modifies this, socket
      ensures var v := Spec.Queued(old(View()), Spec.Request(tag, client, name, body));
              Valid() && View() == Spec.Turn(v).0 && socket.sent == old(socket.sent) + Wire(Spec.Turn(v).1, name)
    {
      ghost var v := View();
      ghost var q := Spec.Request(tag, client, name, body);
      requests := requests + [Entry(client, body)];
      tags, arrived := tags + [tag], arrived + [q];
      assert Queue() == v.queue + [q];
      DispatchPending();
    }

    // dispatchReply up to its await. Without a client its promise is rejected, but the worker has
    // been listed.
    method DispatchReply(worker: Id, client: Option<Id>, body: Body) returns (rejected: bool)
      requires Valid()
      modifies this, socket
      ensures rejected == client.None? && Valid()
      ensures var v := Spec.Listed(old(View()), worker);
              View() == if rejected then v else v.(replying := v.replying + 1)
      ensures socket.sent == if rejected then old(socket.sent)
                             else old(socket.sent) + [Mdp.BrokerSendsReply(client.value, name, body)]
    {
      SetWorker(worker);
      rejected := client.None?;
      if !rejected {
        socket.Send([client.value, Mdp.EMPTY, Mdp.CLIENT, name] + body);
        replying := replying + 1;
      }
    }

    method OnReplySent()
      requires Valid() && replying > 0
      modifies this, socket
      ensures var v := old(View()).(replying := old(replying) - 1);
              Valid() && View() == Spec.Turn(v).0 && socket.sent == old(socket.sent) + Wire(Spec.Turn(v).1, name)
    {
      replying := replying - 1;
      DispatchPending();
    }

    method Register(worker: Id)
      requires Valid()
      modifies this, socket
      ensures var v := Spec.Listed(old(View()), worker);
              Valid() && View() == Spec.Turn(v).0 && socket.sent == old(socket.sent) + Wire(Spec.Turn(v).1, name)
    {
      SetWorker(worker);
      DispatchPending();
    }

    method Deregister(worker: Id)
      requires Valid()
      modifies this, socket
      ensures var v := old(View()).(idle := Spec.Without(old(workers), worker));
              Valid() && View() == Spec.Turn(v).0 && socket.sent == old(socket.sent) + Wire(Spec.Turn(v).1, name)
    {
      workers := Spec.Without(workers, worker);
      DispatchPending();
    }
  }

  // How a turn of the broker's loop ends: a handler that throws ends the loop, while an async one
  // that fails only rejects its promise.
  datatype Handling = Handled | Threw | Rejected

  class Broker {
    const socket: Router
    var services: map<Name, Service>
    var workers: map<Id, Name>           // an entry that is undefined counts as none: it is only read

    ghost predicate Valid()
      reads this, services.Values
    {
      forall n :: n in services ==> services[n].name == n && services[n].socket == socket && services[n].Valid()
    }

    // The abstract service of a name: a service that was never needed is a new one.
    ghost function ServiceView(n: Name): Spec.Service
      reads this, services.Values
      requires Valid()
    {
      if n in services then services[n].View() else Spec.NEW_SERVICE
    }

    constructor ()
      ensures Valid() && services == map[] && workers == map[] && fresh(socket) && socket.sent == []
    {
      socket := new Router();
      services, workers := map[], map[];
    }

    // Every service other than n, the worker map and the router are as before.
    twostate predicate OnlyService(n: Name)
      reads this, services.Values
      requires old(Valid()) && Valid()
    {
      forall m :: m != n ==> ServiceView(m) == old(ServiceView(m))
    }

    // Service n went from what it was to v, and then dispatched.
    twostate predicate Dispatched(n: Name, v: Spec.Service)
      reads this, services.Values, socket
      requires old(Valid()) && Valid()
    {
      && OnlyService(n) && ServiceView(n) == Spec.Turn(v).0
      && socket.sent == old(socket.sent) + Wire(Spec.Turn(v).1, n)
    }

    twostate predicate Unmoved()
      reads this, services.Values, socket
      requires old(Valid()) && Valid()
    {
      socket.sent == old(socket.sent) && forall n :: ServiceView(n) == old(ServiceView(n))
    }

    // Services are never replaced.
    twostate predicate Grown()
      reads this
    {
      forall n :: n in services ==> (n in old(services) && services[n] == old(services[n])) || fresh(services[n])
    }

    method GetService(name: Name) returns (service: Service)
      requires Valid()
      modifies this`services
      ensures Grown()
      ensures Valid() && name in services && services[name] == service
      ensures forall n :: n in old(services) ==> n in services && services[n] == old(services)[n]
      ensures forall n :: n in services ==> n in old(services) || n == name
      ensures name !in old(services) ==> fresh(service)
      ensures forall n :: ServiceView(n) == old(ServiceView(n))
    {
      if name in services {
        service := services[name];
      } else {
        service := new Service(socket, name);
        services := services[name := service];
      }
    }

    // A client's request.
    method HandleClient(client: Id, service: Name, body: Body, ghost tag: nat)
      requires Valid()
      modifies this`services, services.Values, socket
      ensures Valid() && Grown()
      ensures Dispatched(service, Spec.Queued(old(ServiceView(service)), Spec.Request(tag, client, service, body)))
    {
      var s := GetService(service);
      s.DispatchRequest(client, body, tag);
    }

    // Without a service the entry of the worker becomes undefined, and the next line throws.
    method Register(worker: Id, service: Option<Name>) returns (r: Handling)
      requires Valid()
      modifies this, services.Values, socket
      ensures Valid() && Grown() && r == if service.None? then Threw else Handled
      ensures service.None? ==> workers == old(workers) - {worker} && Unmoved()
      ensures service.Some? ==>
        && workers == old(workers)[worker := service.value]
        && Dispatched(service.value, Spec.Listed(old(ServiceView(service.value)), worker))
    {
      SetWorkerService(worker, service);
      if service.None? {
        return Threw;
      }
      var s := GetService(service.value);
      s.Register(worker);
      r := Handled;
    }

    method SetWorkerService(worker: Id, service: Option<Name>)
      requires Valid()
      modifies this`workers
      ensures workers == if service.Some? then old(workers)[worker := service.value] else old(workers) - {worker}
      ensures Valid() && forall n :: ServiceView(n) == old(ServiceView(n))
    {
      workers := if service.Some? then workers[worker := service.value] else workers - {worker};
    }

    // The lookup of an unknown worker gives undefined, and the next line throws.
    method DispatchReply(worker: Id, client: Option<Id>, body: Body) returns (r: Handling)
      requires Valid()
      modifies this`services, services.Values, socket
      ensures Valid() && Grown()
      ensures r == if worker !in workers then Threw else if client.None? then Rejected else Handled
      ensures r == Threw ==> Unmoved()
      ensures r != Threw ==>
        var n := workers[worker];
        var v := Spec.Listed(old(ServiceView(n)), worker);
        && OnlyService(n)
        && (r == Rejected ==> ServiceView(n) == v && socket.sent == old(socket.sent))
        && (r == Handled ==> ServiceView(n) == v.(replying := v.replying + 1)
                             && socket.sent == old(socket.sent) + [Mdp.BrokerSendsReply(client.value, n, body)])
    {
      if worker !in workers {
        return Threw;
      }
      var s := GetService(workers[worker]);
      var rejected := s.DispatchReply(worker, client, body);
      r := if rejected then Rejected else Handled;
    }

    method Deregister(worker: Id) returns (r: Handling)
      requires Valid()
      modifies this`services, services.Values, socket
      ensures Valid() && Grown() && r == if worker !in workers then Threw else Handled
      ensures r == Threw ==> Unmoved()
      ensures r == Handled ==>
        var n := workers[worker];
        Dispatched(n, old(ServiceView(n)).(idle := Spec.Without(old(ServiceView(n)).idle, worker)))
    {
      if worker !in workers {
        return Threw;
      }
      var s := GetService(workers[worker]);
      s.Deregister(worker);
      r := Handled;
    }

    // One turn of the receive loop: what a message means is decided by the position of its frames.
    method OnMessage(frames: Mdp.Frames, ghost tag: nat) returns (r: Handling)
      requires Valid()
      modifies this, services.Values, socket
      ensures Valid() && Grown()
      ensures match Mdp.BrokerDecode(frames)
        case ClientRequest(client, n, body) =>
          && r == Handled && workers == old(workers)
          && Dispatched(n, Spec.Queued(old(ServiceView(n)), Spec.Request(tag, client, n, body)))
        case WorkerReady(w, n) =>
          r == Handled && workers == old(workers)[w := n] && Dispatched(n, Spec.Listed(old(ServiceView(n)), w))
        case WorkerReply(w, client, body) =>
          && workers == old(workers)
          && if w !in old(workers) then r == Threw && Unmoved()
             else
               var n := old(workers)[w];
               var v := Spec.Listed(old(ServiceView(n)), w);
               && r == Handled && OnlyService(n) && ServiceView(n) == v.(replying := v.replying + 1)
               && socket.sent == old(socket.sent) + [Mdp.BrokerSendsReply(client, n, body)]
        case WorkerDisconnect(w) =>
          && workers == old(workers)
          && if w !in old(workers) then r == Threw && Unmoved()
             else
               var n := old(workers)[w];
               && r == Handled
               && Dispatched(n, old(ServiceView(n)).(idle := Spec.Without(old(ServiceView(n)).idle, w)))
        case Ignored => r == Handled && workers == old(workers) && Unmoved()
        case ReadyWithoutService(w) => r == Threw && workers == old(workers) - {w} && Unmoved()
        case ReplyWithoutClient(w) =>
          && workers == old(workers) && socket.sent == old(socket.sent)
          && if w !in old(workers) then r == Threw && Unmoved()
             else
               var n := old(workers)[w];
               r == Rejected && OnlyService(n) && ServiceView(n) == Spec.Listed(old(ServiceView(n)), w)
        case Truncated => r == Threw && workers == old(workers) && Unmoved()
    {
      r := Handled;
      match Mdp.BrokerDecode(frames) {
        case ClientRequest(client, n, body) => HandleClient(client, n, body, tag);
        case WorkerReady(w, n) => r := Register(w, Some(n));
        case WorkerReply(w, client, body) => r := DispatchReply(w, Some(client), body);
        case WorkerDisconnect(w) => r := Deregister(w);
        case Ignored =>
        case ReadyWithoutService(w) => r := Register(w, None);
        case ReplyWithoutClient(w) => r := DispatchReply(w, None, []);
        case Truncated => r := Threw;
      }
    }
  }

  // The frames of a message from a worker of a service.
  function WireUp(u: Spec.Up, service: Name): Mdp.Frames {
    match u
    case Ready(n) => Mdp.WorkerSendsReady(n)
    case Replied(rep) => Mdp.WorkerSendsReply(rep.client, rep.body)
    case Disconnect => Mdp.WorkerSendsDisconnect(service)
  }

  // What the broker sent for a request is what the worker takes for it.
  lemma RequestArrives(worker: Id, q: Spec.Request)
    ensures Mdp.WorkerDecode(Mdp.RouterSends(Wire(Spec.ToWorker(worker, q), q.service)[0])) == Mdp.Job(q.client, q.body)
  {
    Mdp.WorkerUnderstands(worker, q.client, q.body);
  }

  // A send that libzmq has not taken yet. The native socket refuses another one meanwhile.
  datatype Waiting = ReadyWaits | ReplyWaits | DisconnectWaits

  // A worker: its loop takes the next message when it is done with the one before.
  class Worker {
    const service: Name
    var open: bool                       // the socket is not closed
    var looping: bool                    // start() is done
    var stopping: bool                   // stop() has sent DISCONNECT
    var waiting: Option<Waiting>
    var job: Option<Mdp.Job>             // what process() is working on
    var sent: seq<Mdp.Frames>
    ghost var tag: nat                   // the number of the request

    // What can wait, and when the loop can have a job.
    ghost predicate Valid()
      reads this
    {
      && (waiting == Some(ReadyWaits) ==> !looping)
      && (waiting == Some(DisconnectWaits) ==> stopping)
      && (waiting == Some(ReplyWaits) ==> looping && job == None)
      && (job.Some? ==> looping)
      && (!open ==> waiting == None)
    }

    ghost function View(): Spec.Worker
      reads this
    {
      var phase := if !open then Spec.Closed else if stopping then Spec.Stopping else Spec.Running;
      Spec.Worker(service, if open && job.Some? then Some(Task(job.value, tag)) else None, phase)
    }

    ghost function Task(j: Mdp.Job, rid: nat): Spec.Request {
      Spec.Request(rid, j.client, service, j.body)
    }

    // start() sends READY, and begins the loop when that is done.
    constructor (service: Name, waits: bool)
      ensures this.service == service && Valid() && View() == Spec.Worker(service, None, Spec.Running)
      ensures !looping && sent == [WireUp(Spec.Ready(service), service)]
    {
      this.service, open, looping, stopping, job := service, true, false, false, None;
      waiting := if waits then Some(ReadyWaits) else None;
      sent := [[Mdp.EMPTY, Mdp.WORKER, Mdp.READY, service]];
    }

    method OnReadySent()
      requires Valid() && waiting != Some(ReadyWaits)
      modifies `looping
      ensures Valid() && looping && View() == old(View())
    {
      looping := true;
    }

    // libzmq took what was waiting.
    method OnTaken()
      requires Valid()
      modifies `waiting
      ensures Valid() && waiting == None && View() == old(View())
    {
      waiting := None;
    }

    // Whatever arrives is taken for a request.
    method OnMessage(frames: Mdp.Frames, ghost rid: nat)
      requires Valid() && open && looping && job == None && waiting != Some(ReplyWaits)
      modifies `job, `tag
      ensures Valid() && job == Some(Mdp.WorkerDecode(frames))
      ensures View() == old(View()).(task := Some(Task(Mdp.WorkerDecode(frames), rid)))
    {
      job := Some(Mdp.WorkerDecode(frames));
      tag := rid;
    }

    // process() is done. On a closed socket, or while DISCONNECT waits, sending throws, and the loop
    // ignores that: the reply is sent if and only if the socket is open and nothing waits.
    method OnProcessed(rep: Body, waits: bool)
      requires Valid() && job.Some?
      modifies `job, `sent, `waiting
      ensures Valid() && job == None && View() == old(View()).(task := None)
      ensures sent == if open && old(waiting) == None
                      then old(sent) + [WireUp(Spec.Replied(Spec.Reply(tag, old(job).value.client, rep)), service)]
                      else old(sent)
      ensures open && old(waiting) != None ==> View().phase == Spec.Stopping
    {
      assert waiting.Some? ==> waiting.value == DisconnectWaits;
      if open && waiting == None {
        sent := sent + [[Mdp.EMPTY, Mdp.WORKER, Mdp.REPLY, job.value.client, Mdp.EMPTY] + rep];
        waiting := if waits then Some(ReplyWaits) else None;
      }
      job := None;
    }

    // stop() up to its await. While another send waits it is refused: the promise of stop() is rejected
    // and the worker goes on.
    method Stop(waits: bool) returns (rejected: bool)
      requires Valid()
      modifies `sent, `stopping, `waiting
      ensures Valid() && rejected == (open && old(waiting) != None)
      ensures if !open || rejected then View() == old(View()) && sent == old(sent) && stopping == old(stopping)
              else stopping && View() == old(View()).(phase := Spec.Stopping)
                   && sent == old(sent) + [WireUp(Spec.Disconnect, service)]
    {
      rejected := open && waiting != None;
      if open && !rejected {
        sent := sent + [[Mdp.EMPTY, Mdp.WORKER, Mdp.DISCONNECT, service]];
        stopping := true;
        waiting := if waits then Some(DisconnectWaits) else None;
      }
    }

    // What follows it. Closing the socket settles a reply that waits.
    method OnDisconnectSent()
      requires Valid() && stopping && waiting != Some(DisconnectWaits)
      modifies `open, `waiting
      ensures Valid() && !open && View() == Spec.Worker(service, None, Spec.Closed)
    {
      open := false;
      waiting := None;
    }
  }
}
