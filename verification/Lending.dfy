/** Buffers that are lent to libzmq for longer than their module lives. A reference is recycled into the
    trash of the module that made it, on whatever thread libzmq releases the buffer; the shared context
    keeps what was sent between agents after the module of the sender is unloaded. Teardown.dfy gives the
    agents and their contexts; what a living module does with a recycled reference is in Trash.dfy. */
module Lending {
  import Teardown

  // Every load of the module makes a new one, with a number of its own.
  datatype World = World(
    process: Teardown.Process,
    modules: map<nat, nat>,       // the module of each agent
    loads: nat,
    held: map<nat, nat>,          // references libzmq holds, with the module that made them
    // history
    made: nat,
    recycled: seq<nat>,           // into the trash of their module
    late: seq<nat>)               // when their module was gone

  const START := World(Teardown.START, map[], 0, map[], 0, [], [])

  datatype Event =
    | ProcessEvent(e: Teardown.Event)
    | LendEvent(agent: nat)
    | ReleaseEvent(item: nat)

  predicate Enabled(w: World, e: Event) {
    match e
    case ProcessEvent(pe) => Teardown.Enabled(w.process, pe)
    case LendEvent(t) => t in w.process.agents
    case ReleaseEvent(r) => r in w.held
  }

  predicate IsLast(w: World, t: nat) {
    w.process.agents.Keys == {t}
  }

  // Unloading the last module terminates all contexts, and libzmq then holds nothing any more. The
  // terminator is destroyed before the trash of that module.
  ghost function Unloaded(w: World, t: nat): World
    requires Teardown.Enabled(w.process, Teardown.UnloadEvent(t))
  {
    var p := Teardown.Apply(w.process, Teardown.UnloadEvent(t));
    if IsLast(w, t) then
      w.(process := p, modules := w.modules - {t}, held := map[],
         recycled := w.recycled
                     + Teardown.Descending(set r | r in w.held && t in w.modules && w.held[r] == w.modules[t]),
         late := w.late + Teardown.Descending(set r | r in w.held && !(t in w.modules && w.held[r] == w.modules[t])))
    else w.(process := p, modules := w.modules - {t})
  }

  ghost function Apply(w: World, e: Event): World
    requires Enabled(w, e)
  {
    match e
    case ProcessEvent(pe) =>
      if pe.UnloadEvent? then Unloaded(w, pe.agent)
      else
        var w1 := w.(process := Teardown.Apply(w.process, pe));
        if pe.LoadEvent? then w1.(modules := w.modules[pe.agent := w.loads], loads := w.loads + 1) else w1
    case LendEvent(t) =>
      if t in w.modules then w.(held := w.held[w.made := w.modules[t]], made := w.made + 1) else w
    case ReleaseEvent(r) =>
      var w1 := w.(held := w.held - {r});
      if w.held[r] in w.modules.Values then w1.(recycled := w.recycled + [r]) else w1.(late := w.late + [r])
  }

  ghost predicate Runs(w: World, es: seq<Event>)
    decreases |es|
  {
    es == [] || (Enabled(w, es[0]) && Runs(Apply(w, es[0]), es[1..]))
  }

  ghost function Exec(w: World, es: seq<Event>): World
    requires Runs(w, es)
    decreases |es|
  {
    if es == [] then w else Exec(Apply(w, es[0]), es[1..])
  }

  // ----- the invariant ----------------------------------------------------------------------------------

  ghost predicate ModulesOk(w: World) {
    && w.modules.Keys == w.process.agents.Keys
    && (forall t :: t in w.modules ==> w.modules[t] < w.loads)
    && (forall t, u :: t in w.modules && u in w.modules && w.modules[t] == w.modules[u] ==> t == u)
  }

  ghost predicate HeldOk(w: World) {
    && (forall r :: r in w.held ==> w.held[r] < w.loads && r < w.made)
    && (w.process.agents == map[] ==> w.held == map[])
  }

  ghost predicate Inv(w: World) {
    Teardown.Inv(w.process) && ModulesOk(w) && HeldOk(w)
  }

  lemma AgentsAfter(p: Teardown.Process, e: Teardown.Event)
    requires Teardown.Inv(p) && Teardown.Enabled(p, e)
    ensures Teardown.Apply(p, e).agents.Keys ==
      match e
      case LoadEvent(t, _) => p.agents.Keys + {t}
      case UnloadEvent(t) => p.agents.Keys - {t}
      case _ => p.agents.Keys
  {
    match e
    case UnloadEvent(t) =>
      if p.agents.Keys == {t} {
        Teardown.LastTerminatesAll(p, t);
      } else {
        Teardown.OthersTerminateNone(p, t);
      }
    case _ =>
  }

  lemma UnloadedKeeps(w: World, t: nat)
    requires Inv(w) && Enabled(w, ProcessEvent(Teardown.UnloadEvent(t)))
    ensures Inv(Unloaded(w, t))
  {
    var e := Teardown.UnloadEvent(t);
    Teardown.StepKeeps(w.process, e);
    AgentsAfter(w.process, e);
    var w' := Unloaded(w, t);
    if !IsLast(w, t) {
      assert w'.process.agents.Keys != {};
    }
  }

  // The agents and their modules did not change.
  lemma SameModulesKeep(w: World, w': World)
    requires ModulesOk(w) && HeldOk(w)
    requires w'.modules == w.modules && w'.loads == w.loads && w'.process.agents.Keys == w.process.agents.Keys
    requires w'.made >= w.made && forall r :: r in w'.held ==> r in w.held && w'.held[r] == w.held[r]
    ensures ModulesOk(w') && HeldOk(w')
  {
    if w'.process.agents == map[] {
      assert w.process.agents.Keys == {};
      assert w.process.agents == map[];
      assert w'.held.Keys == {};
    }
  }

  lemma ProcessAfter(w: World, pe: Teardown.Event)
    requires Inv(w) && Enabled(w, ProcessEvent(pe))
    ensures Apply(w, ProcessEvent(pe)).process == Teardown.Apply(w.process, pe)
    ensures Teardown.Inv(Apply(w, ProcessEvent(pe)).process)
  {
    Teardown.StepKeeps(w.process, pe);
  }

  lemma LoadKeeps(w: World, t: nat, a: nat)
    requires Inv(w) && Enabled(w, ProcessEvent(Teardown.LoadEvent(t, a)))
    ensures ModulesOk(Apply(w, ProcessEvent(Teardown.LoadEvent(t, a))))
    ensures HeldOk(Apply(w, ProcessEvent(Teardown.LoadEvent(t, a))))
  {
    var w' := Apply(w, ProcessEvent(Teardown.LoadEvent(t, a)));
    AgentsAfter(w.process, Teardown.LoadEvent(t, a));
    assert t in w'.process.agents.Keys;
  }

  lemma OtherKeeps(w: World, pe: Teardown.Event)
    requires Inv(w) && Enabled(w, ProcessEvent(pe)) && !pe.LoadEvent? && !pe.UnloadEvent?
    ensures Inv(Apply(w, ProcessEvent(pe)))
  {
    Teardown.StepKeeps(w.process, pe);
    AgentsAfter(w.process, pe);
    var w' := Apply(w, ProcessEvent(pe));
    assert w'.process == Teardown.Apply(w.process, pe);
    SameModulesKeep(w, w');
  }

  lemma LendKeeps(w: World, t: nat)
    requires Inv(w) && Enabled(w, LendEvent(t))
    ensures Inv(Apply(w, LendEvent(t)))
  {
    assert t in w.modules.Keys;
  }

  lemma ProcessKeeps(w: World, pe: Teardown.Event)
    requires Inv(w) && Enabled(w, ProcessEvent(pe))
    ensures Inv(Apply(w, ProcessEvent(pe)))
  {
    ProcessAfter(w, pe);
    if pe.LoadEvent? {
      LoadKeeps(w, pe.agent, pe.address);
    } else if pe.UnloadEvent? {
      UnloadedKeeps(w, pe.agent);
    } else {
      OtherKeeps(w, pe);
    }
  }

  lemma StepKeeps(w: World, e: Event)
    requires Inv(w) && Enabled(w, e)
    ensures Inv(Apply(w, e))
  {
    match e
    case ProcessEvent(pe) => ProcessKeeps(w, pe);
    case LendEvent(t) => LendKeeps(w, t);
    case ReleaseEvent(r) => SameModulesKeep(w, Apply(w, e));
  }

  // ----- when no reference is late ------------------------------------------------------------------------

  // Unloading a module while others are left, libzmq holds none of its references.
  ghost predicate Prompt(w: World, e: Event) {
    e.ProcessEvent? && e.e.UnloadEvent? && !IsLast(w, e.e.agent) && e.e.agent in w.modules ==>
      forall r :: r in w.held ==> w.held[r] != w.modules[e.e.agent]
  }

  ghost predicate AllPrompt(w: World, es: seq<Event>)
    requires Runs(w, es)
    decreases |es|
  {
    es == [] || (Prompt(w, es[0]) && AllPrompt(Apply(w, es[0]), es[1..]))
  }

  // Everything libzmq holds belongs to a module that is loaded.
  ghost predicate OwnersLive(w: World) {
    forall r :: r in w.held ==> w.held[r] in w.modules.Values
  }

  ghost predicate Doomed(w: World, r: nat) {
    r in w.held && w.held[r] !in w.modules.Values
  }

  lemma Survives(m: map<nat, nat>, t: nat, v: nat)
    requires v in m.Values && !(t in m && m[t] == v)
    ensures v in (m - {t}).Values
  {
    var u :| u in m && m[u] == v;
    assert u in m - {t} && (m - {t})[u] == v;
  }

  lemma OnlyOne(m: map<nat, nat>, t: nat, v: nat)
    requires m.Keys == {t} && v in m.Values
    ensures m[t] == v
  {
  }

  lemma NoneOf(s: set<nat>)
    requires s == {}
    ensures Teardown.Descending(s) == []
  {
  }

  lemma UnloadInTime(w: World, t: nat)
    requires Inv(w) && OwnersLive(w) && Enabled(w, ProcessEvent(Teardown.UnloadEvent(t)))
    requires Prompt(w, ProcessEvent(Teardown.UnloadEvent(t)))
    ensures OwnersLive(Unloaded(w, t)) && Unloaded(w, t).late == w.late
  {
    if IsLast(w, t) {
      var s := set r | r in w.held && !(t in w.modules && w.held[r] == w.modules[t]);
      forall r | r in w.held ensures w.held[r] == w.modules[t] {
        OnlyOne(w.modules, t, w.held[r]);
      }
      assert s == {};
      NoneOf(s);
    } else {
      forall r | r in w.held ensures w.held[r] in (w.modules - {t}).Values {
        Survives(w.modules, t, w.held[r]);
      }
    }
  }

  lemma LoadKeepsValues(m: map<nat, nat>, t: nat, v: nat)
    requires t !in m
    ensures m[t := v].Values == m.Values + {v}
  {
    Teardown.ValuesWith(m, t, v);
  }

  lemma InTime(w: World, e: Event)
    requires Inv(w) && OwnersLive(w) && Enabled(w, e) && Prompt(w, e)
    ensures OwnersLive(Apply(w, e)) && Apply(w, e).late == w.late
  {
    match e
    case ProcessEvent(pe) =>
      if pe.UnloadEvent? {
        UnloadInTime(w, pe.agent);
      } else if pe.LoadEvent? {
        assert pe.agent !in w.modules.Keys;
        LoadKeepsValues(w.modules, pe.agent, w.loads);
      }
    case LendEvent(t) => assert t in w.modules ==> w.modules[t] in w.modules.Values;
    case ReleaseEvent(r) =>
  }

  lemma {:induction false} PromptIsInTime(w: World, es: seq<Event>)
    requires Inv(w) && OwnersLive(w) && Runs(w, es) && AllPrompt(w, es)
    ensures Exec(w, es).late == w.late
    decreases |es|
  {
    if es != [] {
      StepKeeps(w, es[0]);
      InTime(w, es[0]);
      PromptIsInTime(Apply(w, es[0]), es[1..]);
    }
  }

  // A reference whose module is gone stays so until it is recycled, late.
  lemma DoomedStep(w: World, e: Event, r: nat)
    requires Inv(w) && Enabled(w, e) && Doomed(w, r)
    ensures Doomed(Apply(w, e), r) || r in Apply(w, e).late
  {
    match e
    case ProcessEvent(pe) =>
      if pe.LoadEvent? {
        assert pe.agent !in w.modules.Keys;
        LoadKeepsValues(w.modules, pe.agent, w.loads);
      } else if pe.UnloadEvent? {
        var t := pe.agent;
        assert t in w.modules.Keys && w.modules[t] in w.modules.Values;
        if IsLast(w, t) {
          Teardown.DescendingHas(set x | x in w.held && !(t in w.modules && w.held[x] == w.modules[t]));
        } else {
          Teardown.ValuesWithout(w.modules, t);
        }
      }
    case LendEvent(t) =>
    case ReleaseEvent(x) =>
  }

  lemma LateStays(w: World, e: Event, r: nat)
    requires Enabled(w, e) && r in w.late
    ensures r in Apply(w, e).late
  {
  }

  lemma {:induction false} DoomedEndsLate(w: World, es: seq<Event>, r: nat)
    requires Inv(w) && Runs(w, es) && (Doomed(w, r) || r in w.late)
    ensures var w' := Exec(w, es); Inv(w') && (Doomed(w', r) || r in w'.late)
    decreases |es|
  {
    if es != [] {
      StepKeeps(w, es[0]);
      if r in w.late {
        LateStays(w, es[0], r);
      } else {
        DoomedStep(w, es[0], r);
      }
      DoomedEndsLate(Apply(w, es[0]), es[1..], r);
    }
  }

  // Unloading a module while libzmq holds a reference of it.
  lemma UnloadDooms(w: World, t: nat, r: nat)
    requires Inv(w) && Enabled(w, ProcessEvent(Teardown.UnloadEvent(t))) && !IsLast(w, t)
    requires r in w.held && t in w.modules && w.held[r] == w.modules[t]
    ensures Doomed(Apply(w, ProcessEvent(Teardown.UnloadEvent(t))), r)
  {
    var rest := w.modules - {t};
    forall u | u in rest ensures rest[u] != w.modules[t] {
      assert w.modules[u] == rest[u];
    }
  }

  lemma NotPromptDooms(w: World, e: Event)
    requires Inv(w) && Enabled(w, e) && !Prompt(w, e)
    ensures exists r :: Doomed(Apply(w, e), r)
  {
    var t := e.e.agent;
    var r :| r in w.held && w.held[r] == w.modules[t];
    UnloadDooms(w, t, r);
  }

  lemma {:induction false} NotPromptEndsLate(w: World, es: seq<Event>)
    requires Inv(w) && Runs(w, es) && !AllPrompt(w, es) && Exec(w, es).process.agents == map[]
    ensures Exec(w, es).late != []
    decreases |es|
  {
    StepKeeps(w, es[0]);
    var w1 := Apply(w, es[0]);
    if Prompt(w, es[0]) {
      NotPromptEndsLate(w1, es[1..]);
    } else {
      NotPromptDooms(w, es[0]);
      var r :| Doomed(w1, r);
      DoomedEndsLate(w1, es[1..], r);
    }
  }

  // ----- main results ---------------------------------------------------------------------------------------

  lemma StartInv()
    ensures Inv(START) && OwnersLive(START)
  {
    assert Teardown.Runs(Teardown.START, []) && Teardown.Exec(Teardown.START, []) == Teardown.START;
    Teardown.ReachableInv([]);
  }

  // In a run of the process from start to end, no reference is recycled after its module is unloaded if and
  // only if, whenever a module is unloaded while others are left, libzmq holds none of its references.
  lemma NoneLateIff(es: seq<Event>)
    requires Runs(START, es) && Exec(START, es).process.agents == map[]
    ensures Exec(START, es).late == [] <==> AllPrompt(START, es)
  {
    StartInv();
    if AllPrompt(START, es) {
      PromptIsInTime(START, es);
    } else {
      NotPromptEndsLate(START, es);
    }
  }

  // With two agents it happens: one lends a buffer and is unloaded while libzmq holds it. Whatever comes
  // then, at the end of the process the reference has been recycled late.
  lemma LentAndUnloadedIsLate(w: World, t: nat, u: nat, es: seq<Event>)
    requires Inv(w) && t != u && t in w.process.agents && u in w.process.agents
    ensures var e := ProcessEvent(Teardown.UnloadEvent(t)); var w1 := Apply(w, LendEvent(t));
      && Enabled(w1, e)
      && (Runs(Apply(w1, e), es) && Exec(Apply(w1, e), es).process.agents == map[] ==>
            w.made in Exec(Apply(w1, e), es).late)
  {
    var e := ProcessEvent(Teardown.UnloadEvent(t));
    assert t in w.modules.Keys && w.process.agents != map[];
    LendKeeps(w, t);
    var w1 := Apply(w, LendEvent(t));
    StepKeeps(w, LendEvent(t));
    StepKeeps(w1, e);
    assert u in w1.process.agents.Keys;
    UnloadDooms(w1, t, w.made);
    if Runs(Apply(w1, e), es) {
      DoomedEndsLate(Apply(w1, e), es, w.made);
    }
  }

  // With one agent there are no others: nothing is ever late.
  ghost predicate OneAgent(w: World, es: seq<Event>)
    requires Runs(w, es)
    decreases |es|
  {
    es == [] || (|w.process.agents| <= 1 && OneAgent(Apply(w, es[0]), es[1..]))
  }

  lemma {:induction false} OneAgentIsPrompt(w: World, es: seq<Event>)
    requires Inv(w) && Runs(w, es) && OneAgent(w, es)
    ensures AllPrompt(w, es)
    decreases |es|
  {
    if es != [] {
      StepKeeps(w, es[0]);
      if es[0].ProcessEvent? && es[0].e.UnloadEvent? {
        OnlyKey(w.process.agents.Keys, es[0].e.agent);
      }
      OneAgentIsPrompt(Apply(w, es[0]), es[1..]);
    }
  }

  lemma OnlyKey(s: set<nat>, t: nat)
    requires t in s && |s| <= 1
    ensures s == {t}
  {
    if exists u :: u in s && u != t {
      var u :| u in s && u != t;
      assert |s - {t}| == |s| - 1 && u in s - {t};
    }
  }
}
