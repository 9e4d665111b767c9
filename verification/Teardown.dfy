/** Teardown: every agent (the main thread or a worker thread that loaded the module) has a reaper
    for its open sockets, observers and contexts, and all agents share one global state with a list of
    libzmq contexts to terminate. Objects are known by their addresses, which is also how a std::set
    orders them. Closing by hand, by the garbage collector and by the reaper are the same operation.
    An observer is a socket here. */
module Teardown {
  import opened Common

  // One agent: the reaper's set of pointers, the objects whose native handle is still open (each with
  // the libzmq context it uses or wraps), and, as history, every address registered and closed, and
  // the open objects in the order in which they were registered.
  datatype Agent = Agent(
    pointers: set<nat>,
    sockets: map<nat, nat>,
    contexts: map<nat, nat>,
    registered: multiset<nat>,
    closed: seq<nat>,
    order: seq<nat>)

  datatype Global = Global(shared: nat, terminator: set<nat>)

  datatype Process = Process(
    agents: map<nat, Agent>,
    global: Option<Global>,
    // history
    gone: seq<Agent>,               // unloaded agents, as they were left
    made: nat,                      // libzmq contexts are numbered in the order they are created
    alive: set<nat>,                // those that are not terminated
    terminated: seq<nat>)           // those that are, in order

  const START := Process(map[], None, [], 0, {}, [])

  // ----- a set in the order of addresses, from the back --------------------------------------------

  lemma MaximumExists(s: set<nat>)
    requires s != {}
    ensures exists x :: x in s && forall y | y in s :: y <= x
  {
    var x :| x in s;
    if s != {x} {
      MaximumExists(s - {x});
      var m :| m in s - {x} && forall y | y in s - {x} :: y <= m;
      var top := if x > m then x else m;
      forall y | y in s ensures y <= top {
        assert y == x || y in s - {x};
      }
      assert top in s;
    }
  }

  ghost function Maximum(s: set<nat>): (x: nat)
    requires s != {}
    ensures x in s && forall y | y in s :: y <= x
  {
    MaximumExists(s);
    var x :| x in s && forall y | y in s :: y <= x;
    x
  }

  ghost function Descending(s: set<nat>): seq<nat>
    decreases |s|
  {
    if s == {} then [] else [Maximum(s)] + Descending(s - {Maximum(s)})
  }

  lemma {:induction false} DescendingHas(s: set<nat>)
    ensures forall x :: x in Descending(s) <==> x in s
    ensures forall i, j :: 0 <= i < j < |Descending(s)| ==> Descending(s)[i] > Descending(s)[j]
    decreases |s|
  {
    if s != {} {
      DescendingHas(s - {Maximum(s)});
      var rest := Descending(s - {Maximum(s)});
      forall j | 0 <= j < |rest| ensures rest[j] < Maximum(s) {
        assert rest[j] in rest;
      }
    }
  }

  // A list without the elements of a set.
  function Minus(a: seq<nat>, s: set<nat>): (r: seq<nat>)
    ensures forall x :: x in r <==> x in a && x !in s
  {
    if a == [] then [] else (if a[0] in s then [] else [a[0]]) + Minus(a[1..], s)
  }

  lemma {:induction false} MinusDistinct(a: seq<nat>, s: set<nat>)
    requires Distinct(a)
    ensures Distinct(Minus(a, s))
  {
    if a != [] {
      MinusDistinct(a[1..], s);
      if a[0] !in s {
        assert forall x :: x in a[1..] ==> x != a[0];
        JoinKeepsDistinct([a[0]], Minus(a[1..], s));
      }
    }
  }

  lemma {:induction false} MinusMinus(a: seq<nat>, s: set<nat>, t: set<nat>)
    ensures Minus(Minus(a, s), t) == Minus(a, s + t)
  {
    if a != [] {
      MinusMinus(a[1..], s, t);
      var rest := Minus(a[1..], s);
      if a[0] in s {
        assert [] + rest == rest;
        assert [] + Minus(a[1..], s + t) == Minus(a[1..], s + t);
      } else {
        assert ([a[0]] + rest)[1..] == rest;
      }
    }
  }

  lemma {:induction false} MinusNone(a: seq<nat>)
    ensures Minus(a, {}) == a
  {
    if a != [] {
      MinusNone(a[1..]);
    }
  }

  // ----- closing ---------------------------------------------------------------------------------------

  predicate IsOpen(g: Agent, a: nat) {
    a in g.sockets || a in g.contexts
  }

  // Close() of a socket or a context object: nothing when its native pointer is already null.
  function Closed(g: Agent, a: nat): Agent {
    if IsOpen(g, a) then
      Agent(g.pointers - {a}, g.sockets - {a}, g.contexts - {a}, g.registered, g.closed + [a], Minus(g.order, {a}))
    else g
  }

  // A closed context is handed to the terminator, except the one all agents share.
  function Handed(g: Agent, m: Global, a: nat): Global {
    if a in g.contexts && a !in g.sockets && g.contexts[a] != m.shared then
      m.(terminator := m.terminator + {g.contexts[a]})
    else m
  }

  ghost function ClosedAll(g: Agent, m: Global, objects: seq<nat>): (Agent, Global)
    decreases |objects|
  {
    if objects == [] then (g, m)
    else ClosedAll(Closed(g, objects[0]), Handed(g, m, objects[0]), objects[1..])
  }

  // The reaper copies its set and closes every object in the copy.
  ghost function Reaped(g: Agent, m: Global): (Agent, Global) {
    ClosedAll(g, m, Descending(g.pointers))
  }

  // The reaper's set is exactly the objects whose native handle is still open.
  predicate PointersOk(g: Agent) {
    g.pointers == g.sockets.Keys + g.contexts.Keys && g.sockets.Keys !! g.contexts.Keys
  }

  // Every registered object is open or was closed, once.
  predicate CountsOk(g: Agent) {
    g.registered == multiset(g.closed) + multiset(g.pointers)
  }

  // The history of the order has the open objects, each once.
  ghost predicate OrderOk(g: Agent) {
    Distinct(g.order) && forall x :: x in g.order <==> x in g.pointers
  }

  ghost predicate AgentOk(g: Agent) {
    PointersOk(g) && CountsOk(g) && OrderOk(g)
  }

  lemma OneClosedOneLess(registered: multiset<nat>, closed: seq<nat>, pointers: set<nat>, a: nat)
    requires registered == multiset(closed) + multiset(pointers) && a in pointers
    ensures registered == multiset(closed + [a]) + multiset(pointers - {a})
  {
    var less := pointers - {a};
    assert pointers == less + {a};
    assert multiset(pointers) == multiset(less) + multiset{a};
  }

  lemma ClosedKeepsPointers(g: Agent, a: nat)
    requires PointersOk(g)
    ensures PointersOk(Closed(g, a))
  {
    KeysWithout(g.contexts, a);
    KeysWithout(g.sockets, a);
  }

  lemma ClosedKeepsAgent(g: Agent, a: nat)
    requires AgentOk(g)
    ensures AgentOk(Closed(g, a))
  {
    ClosedKeepsPointers(g, a);
    MinusDistinct(g.order, {a});
    if IsOpen(g, a) {
      OneClosedOneLess(g.registered, g.closed, g.pointers, a);
    }
  }

  lemma KeysWithout(m: map<nat, nat>, a: nat)
    ensures (m - {a}).Keys == m.Keys - {a}
  {
  }

  ghost function Wrapped(g: Agent, s: set<nat>): (r: set<nat>)
    ensures forall c :: c in r <==> exists a :: a in s && a in g.contexts && g.contexts[a] == c
  {
    set a | a in s && a in g.contexts :: g.contexts[a]
  }

  // What closing a set of open objects should come to: each is closed once, from the highest address
  // down, nothing else is, and the contexts they wrap, but the shared one, go to the terminator.
  ghost function SetClosed(g: Agent, s: set<nat>): Agent {
    Agent(g.pointers - s, g.sockets - s, g.contexts - s, g.registered, g.closed + Descending(s), Minus(g.order, s))
  }

  ghost function SetHanded(g: Agent, m: Global, s: set<nat>): Global {
    Global(m.shared, m.terminator + (Wrapped(g, s) - {m.shared}))
  }

  lemma MinusOneMinusRest(m: map<nat, nat>, s: set<nat>, a: nat)
    requires a in s
    ensures (m - {a}) - (s - {a}) == m - s
  {
    assert {a} + (s - {a}) == s;
  }

  lemma WrappedAfterOne(g: Agent, s: set<nat>, a: nat)
    requires a in s && IsOpen(g, a)
    ensures Wrapped(g, s) == Wrapped(Closed(g, a), s - {a}) + (if a in g.contexts then {g.contexts[a]} else {})
  {
    var g1 := Closed(g, a);
    forall c | c in Wrapped(g, s)
      ensures c in Wrapped(g1, s - {a}) || (a in g.contexts && c == g.contexts[a])
    {
      var b :| b in s && b in g.contexts && g.contexts[b] == c;
      assert b != a ==> b in s - {a} && b in g1.contexts && g1.contexts[b] == c;
    }
    forall c | c in Wrapped(g1, s - {a}) ensures c in Wrapped(g, s) {
      var b :| b in s - {a} && b in g1.contexts && g1.contexts[b] == c;
      assert b in s && b in g.contexts;
    }
  }

  lemma HandedAfterOne(g: Agent, m: Global, s: set<nat>, a: nat)
    requires PointersOk(g) && a in s && IsOpen(g, a)
    ensures Handed(g, m, a).terminator + (Wrapped(Closed(g, a), s - {a}) - {m.shared})
         == m.terminator + (Wrapped(g, s) - {m.shared})
  {
    WrappedAfterOne(g, s, a);
    assert a in g.contexts ==> a !in g.sockets.Keys;
  }

  lemma AfterOne(g: Agent, s: set<nat>, a: nat)
    requires IsOpen(g, a) && s != {} && a == Maximum(s)
    ensures SetClosed(Closed(g, a), s - {a}) == SetClosed(g, s)
  {
    MinusOneMinusRest(g.sockets, s, a);
    MinusOneMinusRest(g.contexts, s, a);
    MinusMinus(g.order, {a}, s - {a});
    assert {a} + (s - {a}) == s;
    var rest := Descending(s - {a});
    assert g.closed + [a] + rest == g.closed + ([a] + rest);
    assert g.pointers - {a} - (s - {a}) == g.pointers - s;
  }

  lemma FirstOfAll(g: Agent, m: Global, s: set<nat>)
    requires s != {}
    ensures var a := Maximum(s);
      ClosedAll(g, m, Descending(s)) == ClosedAll(Closed(g, a), Handed(g, m, a), Descending(s - {a}))
  {
    assert Descending(s)[1..] == Descending(s - {Maximum(s)});
  }

  lemma NothingClosed(g: Agent, m: Global)
    ensures SetClosed(g, {}) == g && SetHanded(g, m, {}) == m
  {
    assert Descending({}) == [];
    assert g.closed + [] == g.closed;
    MinusNone(g.order);
    assert g.sockets - {} == g.sockets && g.contexts - {} == g.contexts;
    assert Wrapped(g, {}) == {};
  }

  lemma {:induction false} ClosedAllEffect(g: Agent, m: Global, s: set<nat>)
    requires PointersOk(g) && s <= g.pointers
    ensures ClosedAll(g, m, Descending(s)) == (SetClosed(g, s), SetHanded(g, m, s))
    decreases |s|
  {
    if s == {} {
      NothingClosed(g, m);
    } else {
      var a := Maximum(s);
      assert a in g.pointers;
      ClosedKeepsPointers(g, a);
      FirstOfAll(g, m, s);
      ClosedAllEffect(Closed(g, a), Handed(g, m, a), s - {a});
      AfterOne(g, s, a);
      HandedAfterOne(g, m, s, a);
    }
  }

  lemma {:induction false} ClosedAllKeepsAgent(g: Agent, m: Global, objects: seq<nat>)
    requires AgentOk(g)
    ensures AgentOk(ClosedAll(g, m, objects).0)
    decreases |objects|
  {
    if objects != [] {
      ClosedKeepsAgent(g, objects[0]);
      ClosedAllKeepsAgent(Closed(g, objects[0]), Handed(g, m, objects[0]), objects[1..]);
    }
  }

  lemma AllWrapped(g: Agent)
    requires PointersOk(g)
    ensures Wrapped(g, g.pointers) == g.contexts.Values
  {
    forall a | a in g.contexts ensures a in g.pointers {
      assert a in g.contexts.Keys;
    }
  }

  lemma {:induction false} MinusAll(a: seq<nat>, s: set<nat>)
    requires forall x :: x in a ==> x in s
    ensures Minus(a, s) == []
  {
    if a != [] {
      MinusAll(a[1..], s);
    }
  }

  // Destroying the reaper leaves nothing open and nothing registered, and has closed each object that
  // was still open exactly once, although every close erases from the set being walked.
  lemma ReapingClosesEachOnce(g: Agent, m: Global)
    requires AgentOk(g)
    ensures Reaped(g, m).0 == Agent({}, map[], map[], g.registered, g.closed + Descending(g.pointers), [])
    ensures Reaped(g, m).1 == Global(m.shared, m.terminator + (g.contexts.Values - {m.shared}))
    ensures g.registered == multiset(Reaped(g, m).0.closed)
  {
    ClosedAllEffect(g, m, g.pointers);
    ClosedAllKeepsAgent(g, m, Descending(g.pointers));
    AllWrapped(g);
    MinusAll(g.order, g.pointers);
    assert g.pointers - g.pointers == {} && g.sockets - g.pointers == map[] && g.contexts - g.pointers == map[];
  }

  // ----- the process -----------------------------------------------------------------------------------

  datatype Event =
    | LoadEvent(agent: nat, address: nat)       // with the object that wraps the shared context
    | ContextEvent(agent: nat, address: nat)
    | SocketEvent(agent: nat, address: nat, context: nat)
    | CloseEvent(agent: nat, address: nat)
    | UnloadEvent(agent: nat)

  predicate Enabled(p: Process, e: Event) {
    match e
    case LoadEvent(t, a) => t !in p.agents
    case ContextEvent(t, a) => t in p.agents && p.global.Some? && !IsOpen(p.agents[t], a)
    case SocketEvent(t, a, x) => t in p.agents && p.global.Some? && !IsOpen(p.agents[t], a) && x in p.agents[t].contexts
    case CloseEvent(t, a) => t in p.agents && p.global.Some?
    case UnloadEvent(t) => t in p.agents && p.global.Some?
  }

  // Loading creates the global state, with a context of its own, unless another agent has it.
  ghost function Shared(p: Process): Process {
    if p.global.Some? then p
    else p.(global := Some(Global(p.made, {p.made})), made := p.made + 1, alive := p.alive + {p.made})
  }

  // An agent with just its default context object.
  function First(shared: nat, a: nat): Agent {
    Agent({a}, map[], map[a := shared], multiset{a}, [], [a])
  }

  ghost function Loaded(p: Process, t: nat, a: nat): Process {
    var p1 := Shared(p);
    p1.(agents := p1.agents[t := First(p1.global.value.shared, a)])
  }

  // A new context object wraps a libzmq context of its own.
  ghost function ContextMade(p: Process, t: nat, a: nat): Process
    requires t in p.agents
  {
    var g := p.agents[t];
    p.(agents := p.agents[t := Agent(g.pointers + {a}, g.sockets, g.contexts[a := p.made],
                                     g.registered + multiset{a}, g.closed, g.order + [a])],
       made := p.made + 1, alive := p.alive + {p.made})
  }

  ghost function SocketMade(p: Process, t: nat, a: nat, x: nat): Process
    requires t in p.agents && x in p.agents[t].contexts
  {
    var g := p.agents[t];
    p.(agents := p.agents[t := Agent(g.pointers + {a}, g.sockets[a := g.contexts[x]], g.contexts,
                                     g.registered + multiset{a}, g.closed, g.order + [a])])
  }

  ghost function ObjectClosed(p: Process, t: nat, a: nat): Process
    requires t in p.agents && p.global.Some?
  {
    var g := p.agents[t];
    p.(agents := p.agents[t := Closed(g, a)], global := Some(Handed(g, p.global.value, a)))
  }

  // The destructor of a module: the reaper, then its share of the global state. With the last share
  // the terminator is destroyed, which terminates every context in it.
  ghost function Unloaded(p: Process, t: nat): Process
    requires t in p.agents && p.global.Some?
  {
    var (g, m) := Reaped(p.agents[t], p.global.value);
    var p1 := p.(agents := p.agents - {t}, gone := p.gone + [g]);
    if p1.agents == map[] then
      p1.(global := None, terminated := p.terminated + Descending(m.terminator), alive := p.alive - m.terminator)
    else p1.(global := Some(m))
  }

  ghost function Apply(p: Process, e: Event): Process
    requires Enabled(p, e)
  {
    match e
    case LoadEvent(t, a) => Loaded(p, t, a)
    case ContextEvent(t, a) => ContextMade(p, t, a)
    case SocketEvent(t, a, x) => SocketMade(p, t, a, x)
    case CloseEvent(t, a) => ObjectClosed(p, t, a)
    case UnloadEvent(t) => Unloaded(p, t)
  }

  // ----- the invariant ---------------------------------------------------------------------------------

  // An open object of an agent wraps the context.
  predicate Wraps(p: Process, t: nat, c: nat) {
    t in p.agents && c in p.agents[t].contexts.Values
  }

  // Every agent is in order, and the agents that are gone closed all they had registered.
  ghost predicate AgentsOk(p: Process) {
    && (forall t :: t in p.agents ==> AgentOk(p.agents[t]))
    && (forall i :: 0 <= i < |p.gone| ==> p.gone[i].registered == multiset(p.gone[i].closed))
  }

  // The terminator has contexts that are alive, the shared one among them, and every context that is
  // alive is in it or wrapped by an open object, which will put it there.
  ghost predicate TerminatorOk(p: Process) {
    && p.global.Some? && p.global.value.shared in p.global.value.terminator && p.global.value.terminator <= p.alive
    && forall c :: c in p.alive ==> c in p.global.value.terminator || exists t :: Wraps(p, t, c)
  }

  ghost predicate GlobalOk(p: Process) {
    if p.agents == map[] then p.global.None? && p.alive == {} else TerminatorOk(p)
  }

  // Open objects refer to contexts that are alive.
  predicate Refers(g: Agent, alive: set<nat>) {
    g.contexts.Values <= alive && g.sockets.Values <= alive
  }

  predicate RefersOk(p: Process) {
    forall t :: t in p.agents ==> Refers(p.agents[t], p.alive)
  }

  // Every context made is alive or was terminated, once.
  ghost predicate TerminationsOk(p: Process) {
    && Distinct(p.terminated)
    && (forall c :: c in p.alive ==> c !in p.terminated)
    && (forall c: nat :: c < p.made <==> c in p.alive || c in p.terminated)
  }

  ghost predicate Inv(p: Process) {
    AgentsOk(p) && GlobalOk(p) && RefersOk(p) && TerminationsOk(p)
  }

  // ----- what one step keeps ---------------------------------------------------------------------------

  lemma SharedKeeps(p: Process)
    requires Inv(p)
    ensures var p1 := Shared(p);
      && AgentsOk(p1) && TerminatorOk(p1) && RefersOk(p1) && TerminationsOk(p1) && p1.agents == p.agents
  {
  }

  lemma AgentReplaced(p: Process, p': Process, t: nat)
    requires AgentsOk(p) && p'.gone == p.gone
    requires t in p'.agents && p'.agents == p.agents[t := p'.agents[t]] && AgentOk(p'.agents[t])
    ensures AgentsOk(p')
  {
  }

  lemma ReferencesReplaced(p: Process, p': Process, t: nat)
    requires RefersOk(p) && p.alive <= p'.alive
    requires t in p'.agents && p'.agents == p.agents[t := p'.agents[t]] && Refers(p'.agents[t], p'.alive)
    ensures RefersOk(p')
  {
  }

  // An agent may only let go of a context that is in the terminator, and has each new one.
  lemma TerminatorReplaced(p: Process, p': Process, t: nat)
    requires TerminatorOk(p) && p.alive <= p'.alive
    requires t in p'.agents && p'.agents == p.agents[t := p'.agents[t]]
    requires p'.global.Some? && p'.global.value.shared == p.global.value.shared
    requires p.global.value.terminator <= p'.global.value.terminator <= p'.alive
    requires p'.alive - p.alive <= p'.agents[t].contexts.Values
    requires t in p.agents ==> p.agents[t].contexts.Values <= p'.agents[t].contexts.Values + p'.global.value.terminator
    ensures GlobalOk(p')
  {
    forall c | c in p'.alive && c !in p'.global.value.terminator ensures exists u :: Wraps(p', u, c) {
      if c in p.alive {
        var u :| Wraps(p, u, c);
        assert Wraps(p', u, c);
      } else {
        assert Wraps(p', t, c);
      }
    }
  }

  lemma ValuesWith(m: map<nat, nat>, a: nat, c: nat)
    requires a !in m
    ensures m[a := c].Values == m.Values + {c}
  {
    var m' := m[a := c];
    assert m'[a] == c;
    forall b | b in m ensures m[b] in m'.Values {
      assert m'[b] == m[b];
    }
  }

  lemma FirstAgent(shared: nat, a: nat)
    ensures AgentOk(First(shared, a))
    ensures First(shared, a).contexts.Values == {shared} && First(shared, a).sockets.Values == {}
  {
    ValuesWith(map[], a, shared);
    assert map[][a := shared] == map[a := shared];
    var none: map<nat, nat> := map[];
    assert none.Keys == {} && none.Values == {};
  }

  lemma LoadedKeeps(p: Process, t: nat, a: nat)
    requires Inv(p) && t !in p.agents
    ensures Inv(Loaded(p, t, a))
  {
    SharedKeeps(p);
    var p1, p' := Shared(p), Loaded(p, t, a);
    FirstAgent(p1.global.value.shared, a);
    AgentReplaced(p1, p', t);
    ReferencesReplaced(p1, p', t);
    TerminatorReplaced(p1, p', t);
  }

  lemma OneMore(registered: multiset<nat>, closed: seq<nat>, pointers: set<nat>, a: nat)
    requires registered == multiset(closed) + multiset(pointers) && a !in pointers
    ensures registered + multiset{a} == multiset(closed) + multiset(pointers + {a})
  {
    assert multiset(pointers + {a}) == multiset(pointers) + multiset{a};
  }

  lemma OneMade(p: Process, p': Process)
    requires TerminationsOk(p)
    requires p'.made == p.made + 1 && p'.alive == p.alive + {p.made} && p'.terminated == p.terminated
    ensures TerminationsOk(p')
  {
    forall c: nat ensures c < p'.made <==> c in p'.alive || c in p'.terminated {
      assert c < p'.made <==> c < p.made || c == p.made;
    }
  }

  lemma ContextMadeKeeps(p: Process, t: nat, a: nat)
    requires Inv(p) && Enabled(p, ContextEvent(t, a))
    ensures Inv(ContextMade(p, t, a))
  {
    var p', g := ContextMade(p, t, a), p.agents[t];
    assert AgentOk(g) && Refers(g, p.alive);
    OneMore(g.registered, g.closed, g.pointers, a);
    ValuesWith(g.contexts, a, p.made);
    OneMade(p, p');
    AgentReplaced(p, p', t);
    ReferencesReplaced(p, p', t);
    TerminatorReplaced(p, p', t);
  }

  lemma SocketMadeKeeps(p: Process, t: nat, a: nat, x: nat)
    requires Inv(p) && Enabled(p, SocketEvent(t, a, x))
    ensures Inv(SocketMade(p, t, a, x))
  {
    var p', g := SocketMade(p, t, a, x), p.agents[t];
    assert AgentOk(g) && Refers(g, p.alive);
    assert g.contexts[x] in g.contexts.Values;
    OneMore(g.registered, g.closed, g.pointers, a);
    ValuesWith(g.sockets, a, g.contexts[x]);
    AgentReplaced(p, p', t);
    ReferencesReplaced(p, p', t);
    TerminatorReplaced(p, p', t);
  }

  lemma ValuesWithout(m: map<nat, nat>, a: nat)
    ensures (m - {a}).Values <= m.Values <= (m - {a}).Values + (if a in m then {m[a]} else {})
  {
    forall b | b in m && b != a ensures m[b] in (m - {a}).Values {
      assert (m - {a})[b] == m[b];
    }
  }

  lemma ObjectClosedKeeps(p: Process, t: nat, a: nat)
    requires Inv(p) && Enabled(p, CloseEvent(t, a))
    ensures Inv(ObjectClosed(p, t, a))
  {
    var p', g := ObjectClosed(p, t, a), p.agents[t];
    assert AgentOk(g) && Refers(g, p.alive);
    assert a in g.contexts ==> g.contexts[a] in g.contexts.Values && a !in g.sockets.Keys;
    ClosedKeepsAgent(g, a);
    ValuesWithout(g.contexts, a);
    ValuesWithout(g.sockets, a);
    AgentReplaced(p, p', t);
    ReferencesReplaced(p, p', t);
    TerminatorReplaced(p, p', t);
  }

  // All an agent wrapped is in the terminator once it is reaped.
  lemma ReapedHands(p: Process, t: nat)
    requires Inv(p) && Enabled(p, UnloadEvent(t))
    ensures var m := Reaped(p.agents[t], p.global.value).1;
      && m.shared in m.terminator && m.terminator <= p.alive
      && forall c :: c in p.alive && c !in m.terminator ==> exists u :: u != t && Wraps(p, u, c)
  {
    var g, m := p.agents[t], p.global.value;
    ReapingClosesEachOnce(g, m);
    assert Refers(g, p.alive);
    var m' := Reaped(g, m).1;
    forall c | c in p.alive && c !in m'.terminator ensures exists u :: u != t && Wraps(p, u, c) {
      var u :| Wraps(p, u, c);
      assert u != t;
    }
  }

  // When the last agent goes, every context that is alive is terminated, and never before.
  lemma LastTerminatesAll(p: Process, t: nat)
    requires Inv(p) && Enabled(p, UnloadEvent(t)) && p.agents.Keys == {t}
    ensures var p' := Unloaded(p, t);
      && p'.agents == map[] && p'.global.None? && p'.alive == {} && p'.made == p.made
      && p'.terminated == p.terminated + Descending(p.alive)
  {
    ReapedHands(p, t);
    var m := Reaped(p.agents[t], p.global.value).1;
    assert p.agents - {t} == map[];
    forall u, c | u != t ensures !Wraps(p, u, c) {
      assert u !in p.agents.Keys;
    }
    assert p.alive == m.terminator;
  }

  lemma OthersTerminateNone(p: Process, t: nat)
    requires Inv(p) && Enabled(p, UnloadEvent(t)) && p.agents.Keys != {t}
    ensures var p' := Unloaded(p, t);
      && p'.agents == p.agents - {t} && p'.agents != map[] && p'.alive == p.alive && p'.made == p.made
      && p'.terminated == p.terminated && p'.global == Some(Reaped(p.agents[t], p.global.value).1)
  {
    var rest := p.agents - {t};
    assert rest.Keys == p.agents.Keys - {t};
    assert rest.Keys != {};
  }

  lemma TerminatedAll(p: Process)
    requires TerminationsOk(p)
    ensures Distinct(p.terminated + Descending(p.alive))
    ensures forall c: nat :: c < p.made <==> c in p.terminated + Descending(p.alive)
  {
    DescendingHas(p.alive);
    var all := Descending(p.alive);
    forall i, j | 0 <= i < j < |all| ensures all[i] != all[j] {
      assert all[i] > all[j];
    }
    JoinKeepsDistinct(p.terminated, all);
  }

  lemma UnloadedAgents(p: Process, t: nat)
    requires Inv(p) && Enabled(p, UnloadEvent(t))
    ensures AgentsOk(Unloaded(p, t))
  {
    ReapingClosesEachOnce(p.agents[t], p.global.value);
    var p' := Unloaded(p, t);
    assert p'.agents == p.agents - {t};
    assert p'.gone == p.gone + [Reaped(p.agents[t], p.global.value).0];
  }

  lemma UnloadedKeeps(p: Process, t: nat)
    requires Inv(p) && Enabled(p, UnloadEvent(t))
    ensures Inv(Unloaded(p, t))
  {
    var p' := Unloaded(p, t);
    UnloadedAgents(p, t);
    if p.agents.Keys == {t} {
      LastTerminatesAll(p, t);
      TerminatedAll(p);
    } else {
      OthersTerminateNone(p, t);
      ReapedHands(p, t);
      forall c | c in p'.alive && c !in p'.global.value.terminator ensures exists u :: Wraps(p', u, c) {
        var u :| u != t && Wraps(p, u, c);
        assert Wraps(p', u, c);
      }
    }
  }

  lemma StepKeeps(p: Process, e: Event)
    requires Inv(p) && Enabled(p, e)
    ensures Inv(Apply(p, e))
  {
    match e
    case LoadEvent(t, a) => LoadedKeeps(p, t, a);
    case ContextEvent(t, a) => ContextMadeKeeps(p, t, a);
    case SocketEvent(t, a, x) => SocketMadeKeeps(p, t, a, x);
    case CloseEvent(t, a) => ObjectClosedKeeps(p, t, a);
    case UnloadEvent(t) => UnloadedKeeps(p, t);
  }

  // ----- runs --------------------------------------------------------------------------------------------

  ghost predicate Runs(p: Process, events: seq<Event>)
    decreases |events|
  {
    events == [] || (Enabled(p, events[0]) && Runs(Apply(p, events[0]), events[1..]))
  }

  ghost function Exec(p: Process, events: seq<Event>): Process
    requires Runs(p, events)
    decreases |events|
  {
    if events == [] then p else Exec(Apply(p, events[0]), events[1..])
  }

  lemma {:induction false} RunKeeps(p: Process, events: seq<Event>)
    requires Inv(p) && Runs(p, events)
    ensures Inv(Exec(p, events))
    decreases |events|
  {
    if events != [] {
      StepKeeps(p, events[0]);
      RunKeeps(Apply(p, events[0]), events[1..]);
    }
  }

  lemma ReachableInv(events: seq<Event>)
    requires Runs(START, events)
    ensures Inv(Exec(START, events))
  {
    RunKeeps(START, events);
  }

  // ----- main results --------------------------------------------------------------------------------------

  // At every moment of every run the reaper's set is the set of open objects, and every address was
  // closed as often as it was registered, but for the objects that are open now.
  lemma ReaperHasTheOpenObjects(events: seq<Event>, t: nat, a: nat)
    requires Runs(START, events) && t in Exec(START, events).agents
    ensures var g := Exec(START, events).agents[t];
      && (a in g.pointers <==> IsOpen(g, a))
      && g.registered[a] == multiset(g.closed)[a] + Bit(IsOpen(g, a))
  {
    ReachableInv(events);
    var g := Exec(START, events).agents[t];
    assert AgentOk(g);
    assert multiset(g.pointers)[a] == Bit(a in g.pointers);
  }

  // An agent that is gone closed every object as often as it registered it.
  lemma GoneAgentsClosedAll(events: seq<Event>, i: nat)
    requires Runs(START, events) && i < |Exec(START, events).gone|
    ensures Exec(START, events).gone[i].registered == multiset(Exec(START, events).gone[i].closed)
  {
    ReachableInv(events);
  }

  // The context of an open socket or context object is never terminated.
  lemma SocketsOutlivedByTheirContext(events: seq<Event>, t: nat, a: nat)
    requires Runs(START, events)
    requires t in Exec(START, events).agents && IsOpen(Exec(START, events).agents[t], a)
    ensures var p := Exec(START, events);
      && (a in p.agents[t].sockets ==> p.agents[t].sockets[a] !in p.terminated)
      && (a in p.agents[t].contexts ==> p.agents[t].contexts[a] !in p.terminated)
  {
    ReachableInv(events);
    var p := Exec(START, events);
    assert Refers(p.agents[t], p.alive);
    assert a in p.agents[t].sockets ==> p.agents[t].sockets[a] in p.agents[t].sockets.Values;
    assert a in p.agents[t].contexts ==> p.agents[t].contexts[a] in p.agents[t].contexts.Values;
  }

  // Contexts are only terminated when the last agent goes; then every one that was ever made has
  // been terminated, just once, and there is nothing open anywhere.
  lemma TerminationIsLastAndComplete(events: seq<Event>, e: Event)
    requires Runs(START, events) && Enabled(Exec(START, events), e)
    ensures var p := Exec(START, events);
      Apply(p, e).terminated != p.terminated ==> e.UnloadEvent? && p.agents.Keys == {e.agent}
    ensures var p, p' := Exec(START, events), Apply(Exec(START, events), e);
      e.UnloadEvent? && p.agents.Keys == {e.agent} ==>
        p'.agents == map[] && Distinct(p'.terminated) && forall c: nat :: c < p'.made <==> c in p'.terminated
  {
    ReachableInv(events);
    var p := Exec(START, events);
    StepKeeps(p, e);
    if e.UnloadEvent? {
      if p.agents.Keys == {e.agent} {
        LastTerminatesAll(p, e.agent);
      } else {
        OthersTerminateNone(p, e.agent);
      }
    }
  }

  // ----- the order of closing -----------------------------------------------------------------------------

  function Reversed(r: seq<nat>): seq<nat>
    decreases |r|
  {
    if r == [] then [] else [r[|r| - 1]] + Reversed(r[..|r| - 1])
  }

  function Elements(r: seq<nat>): set<nat> {
    set x | x in r
  }

  predicate Ascending(r: seq<nat>) {
    forall i, j :: 0 <= i < j < |r| ==> r[i] < r[j]
  }

  lemma {:induction false} ReversedHas(r: seq<nat>)
    ensures |Reversed(r)| == |r| && forall k :: 0 <= k < |r| ==> Reversed(r)[k] == r[|r| - 1 - k]
    decreases |r|
  {
    if r != [] {
      ReversedHas(r[..|r| - 1]);
    }
  }

  lemma {:induction false} AscendingIsReversed(r: seq<nat>)
    requires Ascending(r)
    ensures Descending(Elements(r)) == Reversed(r)
    decreases |r|
  {
    if r != [] {
      var last, front := r[|r| - 1], r[..|r| - 1];
      assert r == front + [last];
      assert last in Elements(r);
      forall x | x in Elements(r) ensures x <= last {
        var i :| 0 <= i < |r| && r[i] == x;
      }
      assert Maximum(Elements(r)) == last;
      assert Elements(r) - {last} == Elements(front);
      AscendingIsReversed(front);
    } else {
      assert Elements(r) == {};
    }
  }

  // The reaper closes the most recently registered object first just in case the objects were
  // registered in the order of their addresses.
  lemma ClosesMostRecentFirstIff(r: seq<nat>)
    ensures Descending(Elements(r)) == Reversed(r) <==> Ascending(r)
  {
    if Ascending(r) {
      AscendingIsReversed(r);
    } else {
      DescendingHas(Elements(r));
      ReversedHas(r);
      var i, j :| 0 <= i < j < |r| && r[i] >= r[j];
      var k, l := |r| - 1 - j, |r| - 1 - i;
      assert Reversed(r)[k] == r[j] && Reversed(r)[l] == r[i];
    }
  }

  lemma SameFront(a: seq<nat>, b: seq<nat>, c: seq<nat>)
    ensures a + b == a + c <==> b == c
  {
    assert (a + b)[|a|..] == b && (a + c)[|a|..] == c;
  }

  // So for the reaper of an agent, in any state of any run: it closes the most recently registered
  // object first, and so on, if and only if the open objects were registered in the order of their
  // addresses.
  lemma ReapsMostRecentFirstIff(events: seq<Event>, t: nat)
    requires Runs(START, events) && t in Exec(START, events).agents
    ensures var p := Exec(START, events);
      && p.global.Some?
      && var g := p.agents[t];
         Reaped(g, p.global.value).0.closed == g.closed + Reversed(g.order) <==> Ascending(g.order)
  {
    ReachableInv(events);
    var p := Exec(START, events);
    assert AgentOk(p.agents[t]) && p.agents != map[];
    ReapedOrder(p.agents[t], p.global.value);
  }

  lemma OrderIsPointers(g: Agent)
    requires OrderOk(g)
    ensures Elements(g.order) == g.pointers
  {
  }

  lemma ReapedOrder(g: Agent, m: Global)
    requires AgentOk(g)
    ensures Reaped(g, m).0.closed == g.closed + Reversed(g.order) <==> Ascending(g.order)
  {
    ReapingClosesEachOnce(g, m);
    OrderIsPointers(g);
    ClosesMostRecentFirstIff(g.order);
    SameFront(g.closed, Descending(g.pointers), Reversed(g.order));
  }

  // An agent is loaded, with its default context at address 2, and then a socket is made at address 1.
  const SOCKET_BELOW: seq<Event> := [LoadEvent(0, 2), SocketEvent(0, 1, 2)]

  const LOADED := Process(map[0 := First(0, 2)], Some(Global(0, {0})), [], 1, {0}, [])

  const TWO_OBJECTS := Agent({2} + {1}, map[][1 := 0], map[2 := 0], multiset{2} + multiset{1}, [], [2] + [1])

  lemma SocketBelowRuns()
    ensures Runs(START, SOCKET_BELOW)
    ensures var p := Exec(START, SOCKET_BELOW);
      0 in p.agents && p.agents[0] == TWO_OBJECTS && p.global == Some(Global(0, {0}))
  {
    var es := SOCKET_BELOW;
    assert Apply(START, es[0]) == LOADED by {
      assert START.alive + {0} == {0};
    }
    var p := Apply(LOADED, es[1]);
    assert es[1..] == [es[1]] && [es[1]][1..] == [];
    assert Runs(p, []) && Exec(p, []) == p;
    assert Runs(LOADED, es[1..]) && Exec(LOADED, es[1..]) == p;
  }

  // Its reaper closes the context first, although the socket was registered after it and uses it.
  lemma NotAlwaysMostRecentFirst()
    ensures Runs(START, SOCKET_BELOW)
    ensures var p := Exec(START, SOCKET_BELOW);
      && 0 in p.agents && p.global.Some?
      && p.agents[0].order == [2, 1] && Reaped(p.agents[0], p.global.value).0.closed == [2, 1]
  {
    SocketBelowRuns();
    TwoObjectsOk();
    ReapedTwo(TWO_OBJECTS, Global(0, {0}));
  }

  lemma TwoObjectsOk()
    ensures AgentOk(TWO_OBJECTS) && TWO_OBJECTS.pointers == {1, 2}
  {
    SocketBelowRuns();
    ReachableInv(SOCKET_BELOW);
  }

  lemma ReapedTwo(g: Agent, m: Global)
    requires AgentOk(g) && g.pointers == {1, 2} && g.closed == []
    ensures Reaped(g, m).0.closed == [2, 1]
  {
    ReapingClosesEachOnce(g, m);
    DescendingOfTwo();
  }

  lemma DescendingOfTwo()
    ensures Descending({1, 2}) == [2, 1]
  {
    assert Maximum({1, 2}) == 2 && {1, 2} - {2} == {1};
    assert Maximum({1}) == 1 && {1} - {1} == {};
    assert Descending({1}) == [1];
  }

  // ----- the reaper as the program has it -----------------------------------------------------------------

  // The state all agents share.
  class SharedState {
    var shared: nat
    var terminator: set<nat>

    constructor (context: nat)
      ensures View() == Global(context, {context})
    {
      shared, terminator := context, {context};
    }

    function View(): Global
      reads this
    {
      Global(shared, terminator)
    }
  }

  // One agent's module, with its reaper.
  class Module {
    const global: SharedState
    var pointers: set<nat>
    var sockets: map<nat, nat>
    var contexts: map<nat, nat>
    ghost var registered: multiset<nat>
    ghost var closed: seq<nat>
    ghost var order: seq<nat>

    constructor (state: SharedState)
      ensures global == state && View() == Agent({}, map[], map[], multiset{}, [], []) && AgentOk(View())
    {
      global := state;
      pointers, sockets, contexts, registered, closed, order := {}, map[], map[], multiset{}, [], [];
    }

    ghost function View(): Agent
      reads this
    {
      Agent(pointers, sockets, contexts, registered, closed, order)
    }

    method Remove(a: nat)
      modifies `pointers
      ensures pointers == old(pointers) - {a}
    {
      pointers := pointers - {a};
    }

    // Close() of the object at an address.
    method Close(a: nat)
      modifies this, global
      ensures View() == Closed(old(View()), a)
      ensures global.View() == Handed(old(View()), old(global.View()), a)
    {
      if a in sockets || a in contexts {
        Remove(a);
        if a !in sockets && contexts[a] != global.shared {
          global.terminator := global.terminator + {contexts[a]};
        }
        sockets, contexts, closed, order := sockets - {a}, contexts - {a}, closed + [a], Minus(order, {a});
      }
    }

    // The set, copied in reverse order.
    method Copy() returns (objects: seq<nat>)
      ensures objects == Descending(pointers)
    {
      objects := [];
      var rest := pointers;
      while rest != {}
        invariant objects + Descending(rest) == Descending(pointers)
      {
        MaximumExists(rest);
        var x :| x in rest && forall y | y in rest :: y <= x;
        assert x == Maximum(rest);
        assert objects + Descending(rest) == (objects + [x]) + Descending(rest - {x});
        objects, rest := objects + [x], rest - {x};
      }
    }

    // The destructor of the reaper.
    method Reap()
      requires AgentOk(View())
      modifies this, global
      ensures (View(), global.View()) == Reaped(old(View()), old(global.View()))
      ensures pointers == {} && sockets == map[] && contexts == map[]
      ensures closed == old(closed) + Descending(old(pointers))
    {
      ghost var g, m := View(), global.View();
      var objects := Copy();
      var i := 0;
      while i < |objects|
        invariant 0 <= i <= |objects|
        invariant ClosedAll(View(), global.View(), objects[i..]) == ClosedAll(g, m, objects)
      {
        assert objects[i..][1..] == objects[i + 1..];
        Close(objects[i]);
        i := i + 1;
      }
      ReapingClosesEachOnce(g, m);
    }
  }
}
