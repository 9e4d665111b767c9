/** Recycling of references to outgoing buffers. libzmq releases a buffer on any thread; the
    reference to it is put in the trash under a lock, and the main thread frees what is in the
    trash when the event loop calls it. The threads are interleaved step by step: taking the lock,
    appending, asking for a wakeup and releasing the lock are separate steps. */
module Trash {
  import opened Common

  // What a thread inside Reference::Recycle is about to do.
  datatype Adder =
    | WantsLock(item: nat)
    | HasLock(item: nat)
    | HasPushed
    | HasSent

  // What the main thread is doing for the trash.
  datatype Cleaner = Resting | Called | Locked | Cleared

  datatype Holder = NoOne | Thread(id: nat) | Main

  datatype Place = Held | Carried(thread: nat) | Trashed | Freed

  datatype World = World(
    values: seq<nat>,
    wakeup: bool,                 // uv_async_send was called and the callback has not run since
    lock: Holder,
    adders: map<nat, Adder>,      // threads inside Recycle
    cleaner: Cleaner,
    held: set<nat>,               // references libzmq holds
    // history
    freed: seq<nat>,
    made: nat,                    // references made so far
    place: map<nat, Place>)       // where each of them is

  const START := World([], false, NoOne, map[], Resting, {}, [], 0, map[])

  datatype Event =
    | CreateEvent(accepted: bool)     // libzmq takes the buffer or refuses it
    | ReleaseEvent(thread: nat, item: nat)
    | LockEvent(thread: nat)
    | PushEvent(thread: nat)
    | SendEvent(thread: nat)
    | UnlockEvent(thread: nat)
    | WakeupEvent
    | MainLockEvent
    | ClearEvent
    | MainUnlockEvent

  predicate Enabled(w: World, e: Event) {
    match e
    case CreateEvent(_) => true
    case ReleaseEvent(t, r) => t !in w.adders && r in w.held
    case LockEvent(t) => t in w.adders && w.adders[t].WantsLock? && w.lock == NoOne
    case PushEvent(t) => t in w.adders && w.adders[t].HasLock?
    case SendEvent(t) => t in w.adders && w.adders[t] == HasPushed
    case UnlockEvent(t) => t in w.adders && w.adders[t] == HasSent
    case WakeupEvent => w.wakeup && w.cleaner == Resting
    case MainLockEvent => w.cleaner == Called && w.lock == NoOne
    case ClearEvent => w.cleaner == Locked
    case MainUnlockEvent => w.cleaner == Cleared
  }

  function Freeing(place: map<nat, Place>, items: seq<nat>): map<nat, Place> {
    map r | r in place :: if r in items then Freed else place[r]
  }

  function Apply(w: World, e: Event): World
    requires Enabled(w, e)
  {
    match e
    case CreateEvent(accepted) =>
      var r := w.made;
      if accepted then w.(held := w.held + {r}, made := r + 1, place := w.place[r := Held])
      else w.(freed := w.freed + [r], made := r + 1, place := w.place[r := Freed])
    case ReleaseEvent(t, r) =>
      w.(held := w.held - {r}, adders := w.adders[t := WantsLock(r)], place := w.place[r := Carried(t)])
    case LockEvent(t) => w.(lock := Thread(t), adders := w.adders[t := HasLock(w.adders[t].item)])
    case PushEvent(t) =>
      var r := w.adders[t].item;
      w.(values := w.values + [r], adders := w.adders[t := HasPushed], place := w.place[r := Trashed])
    case SendEvent(t) => w.(wakeup := true, adders := w.adders[t := HasSent])
    case UnlockEvent(t) => w.(lock := NoOne, adders := w.adders - {t})
    case WakeupEvent => w.(wakeup := false, cleaner := Called)
    case MainLockEvent => w.(lock := Main, cleaner := Locked)
    case ClearEvent =>
      w.(values := [], freed := w.freed + w.values, place := Freeing(w.place, w.values), cleaner := Cleared)
    case MainUnlockEvent => w.(lock := NoOne, cleaner := Resting)
  }

  predicate Runs(w: World, es: seq<Event>)
    decreases |es|
  {
    es == [] || (Enabled(w, es[0]) && Runs(Apply(w, es[0]), es[1..]))
  }

  function Exec(w: World, es: seq<Event>): World
    requires Runs(w, es)
    decreases |es|
  {
    if es == [] then w else Exec(Apply(w, es[0]), es[1..])
  }

  // ----- the invariant -------------------------------------------------------------------------

  predicate Carries(w: World, t: nat, r: nat) {
    t in w.adders && (w.adders[t].WantsLock? || w.adders[t].HasLock?) && w.adders[t].item == r
  }

  // Reference r is in the place the history says and in no other.
  predicate RefOk(w: World, r: nat) {
    && (r in w.held <==> r in w.place && w.place[r] == Held)
    && (r in w.values <==> r in w.place && w.place[r] == Trashed)
    && (r in w.freed <==> r in w.place && w.place[r] == Freed)
  }

  ghost predicate RefsOk(w: World) {
    && (forall r: nat :: r in w.place <==> r < w.made)
    && (forall r: nat :: RefOk(w, r))
    && (forall t, r: nat :: Carries(w, t, r) <==> r in w.place && w.place[r] == Carried(t))
    && Distinct(w.values) && Distinct(w.freed)
  }

  predicate HasTheLock(a: Adder) {
    !a.WantsLock?
  }

  // The lock excludes: who is inside is the one who holds it.
  ghost predicate LockOk(w: World) {
    && (forall t: nat :: t in w.adders && HasTheLock(w.adders[t]) <==> w.lock == Thread(t))
    && (w.lock == Main <==> w.cleaner == Locked || w.cleaner == Cleared)
  }

  // Trash is never forgotten: a wakeup is pending, the main thread is about to clear it, or the
  // thread that holds the lock is about to ask for a wakeup.
  predicate WakeupOk(w: World) {
    w.values != [] ==>
      w.wakeup || w.cleaner == Called || w.cleaner == Locked
      || (w.lock.Thread? && w.lock.id in w.adders && w.adders[w.lock.id] == HasPushed)
  }

  ghost predicate Inv(w: World) {
    RefsOk(w) && LockOk(w) && WakeupOk(w)
  }

  lemma AppendKeepsDistinct(a: seq<nat>, x: nat)
    requires Distinct(a) && x !in a
    ensures Distinct(a + [x])
  {
  }

  lemma CreateKeepsRefs(w: World, accepted: bool)
    requires RefsOk(w)
    ensures RefsOk(Apply(w, CreateEvent(accepted)))
  {
    var w' := Apply(w, CreateEvent(accepted));
    assert RefOk(w, w.made);
    AppendKeepsDistinct(w.freed, w.made);
    forall r: nat ensures RefOk(w', r) { assert RefOk(w, r); }
    forall u: nat, x: nat ensures Carries(w', u, x) <==> x in w'.place && w'.place[x] == Carried(u) {
      assert Carries(w, u, x) <==> x in w.place && w.place[x] == Carried(u);
    }
  }

  lemma ReleaseKeepsRefs(w: World, t: nat, r: nat)
    requires RefsOk(w) && Enabled(w, ReleaseEvent(t, r))
    ensures RefsOk(Apply(w, ReleaseEvent(t, r)))
  {
    var w' := Apply(w, ReleaseEvent(t, r));
    assert RefOk(w, r);
    forall x: nat ensures RefOk(w', x) { assert RefOk(w, x); }
    forall u: nat, x: nat ensures Carries(w', u, x) <==> x in w'.place && w'.place[x] == Carried(u) {
      assert Carries(w, u, x) <==> x in w.place && w.place[x] == Carried(u);
    }
  }

  lemma PushKeepsRefs(w: World, t: nat)
    requires RefsOk(w) && Enabled(w, PushEvent(t))
    ensures RefsOk(Apply(w, PushEvent(t)))
  {
    var w' := Apply(w, PushEvent(t));
    var r := w.adders[t].item;
    assert Carries(w, t, r) && RefOk(w, r);
    AppendKeepsDistinct(w.values, r);
    forall x: nat ensures RefOk(w', x) { assert RefOk(w, x); }
    forall u: nat, x: nat ensures Carries(w', u, x) <==> x in w'.place && w'.place[x] == Carried(u) {
      assert Carries(w, u, x) <==> x in w.place && w.place[x] == Carried(u);
    }
  }

  lemma ClearKeepsRefs(w: World)
    requires RefsOk(w) && Enabled(w, ClearEvent)
    ensures RefsOk(Apply(w, ClearEvent))
  {
    var w' := Apply(w, ClearEvent);
    forall x | x in w.freed ensures x !in w.values { assert RefOk(w, x); }
    JoinKeepsDistinct(w.freed, w.values);
    forall x: nat ensures RefOk(w', x) { assert RefOk(w, x); }
    forall u: nat, x: nat ensures Carries(w', u, x) <==> x in w'.place && w'.place[x] == Carried(u) {
      assert RefOk(w, x);
      assert Carries(w, u, x) <==> x in w.place && w.place[x] == Carried(u);
    }
  }

  // The other steps leave the references where they are.
  lemma OthersKeepRefs(w: World, e: Event)
    requires RefsOk(w) && Enabled(w, e)
    requires !e.CreateEvent? && !e.ReleaseEvent? && !e.PushEvent? && !e.ClearEvent?
    ensures RefsOk(Apply(w, e))
  {
    var w' := Apply(w, e);
    forall x: nat ensures RefOk(w', x) { assert RefOk(w, x); }
    forall u: nat, x: nat ensures Carries(w', u, x) <==> x in w'.place && w'.place[x] == Carried(u) {
      assert Carries(w, u, x) <==> x in w.place && w.place[x] == Carried(u);
    }
  }

  lemma RefsStayOk(w: World, e: Event)
    requires RefsOk(w) && Enabled(w, e)
    ensures RefsOk(Apply(w, e))
  {
    match e
    case CreateEvent(accepted) => CreateKeepsRefs(w, accepted);
    case ReleaseEvent(t, r) => ReleaseKeepsRefs(w, t, r);
    case PushEvent(t) => PushKeepsRefs(w, t);
    case ClearEvent => ClearKeepsRefs(w);
    case _ => OthersKeepRefs(w, e);
  }

  lemma LockStaysOk(w: World, e: Event)
    requires LockOk(w) && Enabled(w, e)
    ensures LockOk(Apply(w, e))
  {
  }

  lemma WakeupStaysOk(w: World, e: Event)
    requires LockOk(w) && WakeupOk(w) && Enabled(w, e)
    ensures WakeupOk(Apply(w, e))
  {
  }

  lemma {:induction false} RunKeeps(w: World, es: seq<Event>)
    requires Inv(w) && Runs(w, es)
    ensures Inv(Exec(w, es))
    decreases |es|
  {
    if es != [] {
      RefsStayOk(w, es[0]);
      LockStaysOk(w, es[0]);
      WakeupStaysOk(w, es[0]);
      RunKeeps(Apply(w, es[0]), es[1..]);
    }
  }

  ghost predicate Reachable(w: World) {
    exists es :: Runs(START, es) && Exec(START, es) == w
  }

  lemma ReachableInv(w: World)
    requires Reachable(w)
    ensures Inv(w)
  {
    var es :| Runs(START, es) && Exec(START, es) == w;
    forall t: nat, r: nat ensures !Carries(START, t, r) {}
    RunKeeps(START, es);
  }

  // ----- what holds under any interleaving --------------------------------------------------------

  // A reference is held by libzmq, on its way into the trash with one thread, in the trash, or
  // freed: exactly one of these, and freed at most once.
  lemma ReferenceConservation(w: World, r: nat)
    requires Reachable(w) && r < w.made
    ensures r in w.place
    ensures Bit(r in w.held) + Bit(w.place[r].Carried?) + Bit(r in w.values) + Bit(r in w.freed) == 1
    ensures forall t: nat :: Carries(w, t, r) <==> w.place[r] == Carried(t)
    ensures Distinct(w.values) && Distinct(w.freed)
  {
    ReachableInv(w);
    assert RefOk(w, r);
  }

  // Only the main thread frees, in the wakeup callback with the lock, or at once when libzmq
  // refused the buffer.
  lemma OnlyMainThreadFrees(w: World, e: Event)
    requires Reachable(w) && Enabled(w, e) && Apply(w, e).freed != w.freed
    ensures (e == ClearEvent && w.lock == Main && Apply(w, e).freed == w.freed + w.values)
         || (e == CreateEvent(false) && Apply(w, e).freed == w.freed + [w.made])
  {
    ReachableInv(w);
  }

  // Trash is never forgotten, in no state of any interleaving: a wakeup is pending, the main thread is
  // about to take the lock or has it and is about to clear, or the thread that holds the lock is about
  // to ask for a wakeup. When nobody holds the lock only the first two are left.
  lemma TrashIsNotForgotten(w: World)
    requires Reachable(w) && w.values != []
    ensures w.wakeup || w.cleaner == Called || w.cleaner == Locked
         || (w.lock.Thread? && w.lock.id in w.adders && w.adders[w.lock.id] == HasPushed)
    ensures w.lock == NoOne ==> w.wakeup || w.cleaner == Called
  {
    ReachableInv(w);
  }

  // ----- it can always be cleared --------------------------------------------------------------------

  lemma {:induction false} RunsJoin(w: World, a: seq<Event>, b: seq<Event>)
    requires Runs(w, a) && Runs(Exec(w, a), b)
    ensures Runs(w, a + b) && Exec(w, a + b) == Exec(Exec(w, a), b)
    decreases |a|
  {
    if a == [] {
      assert a + b == b;
    } else {
      RunsJoin(Apply(w, a[0]), a[1..], b);
      assert (a + b)[1..] == a[1..] + b;
    }
  }

  lemma RunOfOne(w: World, e: Event)
    requires Enabled(w, e)
    ensures Runs(w, [e]) && Exec(w, [e]) == Apply(w, e)
  {
    assert [e][1..] == [];
    assert Runs(Apply(w, e), []) && Exec(Apply(w, e), []) == Apply(w, e);
  }

  // What the holder of the lock still does before it gives the lock back.
  function Release(w: World): seq<Event> {
    match w.lock
    case NoOne => []
    case Thread(t) =>
      if t !in w.adders || w.adders[t].WantsLock? then []
      else if w.adders[t].HasLock? then [PushEvent(t), SendEvent(t), UnlockEvent(t)]
      else if w.adders[t] == HasPushed then [SendEvent(t), UnlockEvent(t)]
      else [UnlockEvent(t)]
    case Main => if w.cleaner == Locked then [ClearEvent, MainUnlockEvent] else [MainUnlockEvent]
  }

  // Then the lock is free, and nothing has left the trash but to be freed.
  lemma {:induction false} ReleaseRuns(w: World, es: seq<Event>)
    requires LockOk(w) && WakeupOk(w) && es == Release(w)
    ensures Runs(w, es) && |es| <= 3
    ensures var w' := Exec(w, es);
      && w'.lock == NoOne && LockOk(w') && WakeupOk(w')
      && forall x :: x in w.values || x in w.freed ==> x in w'.values || x in w'.freed
    decreases |es|
  {
    if es == [] {
      assert w.lock == NoOne;
    } else {
      var w1 := Apply(w, es[0]);
      LockStaysOk(w, es[0]);
      WakeupStaysOk(w, es[0]);
      assert es[1..] == Release(w1);
      ReleaseRuns(w1, es[1..]);
    }
  }

  // From every state of every interleaving, at most six steps of the lock's holder and the main thread
  // free all that is in the trash.
  lemma TrashCanBeCleared(w: World)
    requires Reachable(w)
    ensures exists es :: Clears(w, es)
  {
    ReachableInv(w);
    var a := Release(w);
    ReleaseRuns(w, a);
    var w1 := Exec(w, a);
    if w1.values == [] {
      assert Clears(w, a);
    } else {
      var b := if w1.cleaner == Called then [MainLockEvent, ClearEvent] else [WakeupEvent, MainLockEvent, ClearEvent];
      ClearFromFree(w1, b);
      RunsJoin(w, a, b);
      assert Clears(w, a + b);
    }
  }

  predicate Clears(w: World, es: seq<Event>) {
    && |es| <= 6 && Runs(w, es)
    && Exec(w, es).values == [] && forall x :: x in w.values ==> x in Exec(w, es).freed
  }

  lemma ClearFromFree(w: World, es: seq<Event>)
    requires LockOk(w) && WakeupOk(w) && w.lock == NoOne && w.values != []
    requires es == if w.cleaner == Called then [MainLockEvent, ClearEvent] else [WakeupEvent, MainLockEvent, ClearEvent]
    ensures Runs(w, es) && Exec(w, es).values == [] && Exec(w, es).freed == w.freed + w.values
  {
    if w.cleaner == Called {
      ClearFromCalled(w);
    } else {
      var w1 := Apply(w, WakeupEvent);
      ClearFromCalled(w1);
      assert es[1..] == [MainLockEvent, ClearEvent];
    }
  }

  lemma ClearFromCalled(w: World)
    requires w.cleaner == Called && w.lock == NoOne
    ensures var es := [MainLockEvent, ClearEvent];
      Runs(w, es) && Exec(w, es).values == [] && Exec(w, es).freed == w.freed + w.values
  {
    var w1 := Apply(w, MainLockEvent);
    RunOfOne(w1, ClearEvent);
    assert [MainLockEvent, ClearEvent][1..] == [ClearEvent];
  }

  // ----- the trash itself --------------------------------------------------------------------------

  // What the lock protects, and what was freed.
  datatype Contents = Contents(values: seq<nat>, wakeup: bool, freed: seq<nat>)

  function ContentsOf(w: World): Contents {
    Contents(w.values, w.wakeup, w.freed)
  }

  function Added(c: Contents, item: nat): Contents {
    Contents(c.values + [item], true, c.freed)
  }

  function Emptied(c: Contents): Contents {
    Contents([], c.wakeup, c.freed + c.values)
  }

  // The container, as it is while its lock is held.
  class Container {
    var values: seq<nat>
    var wakeup: bool
    ghost var freed: seq<nat>

    ghost function View(): Contents
      reads this
    {
      Contents(values, wakeup, freed)
    }

    method Add(item: nat)
      modifies `values, `wakeup
      ensures View() == Added(old(View()), item)
    {
      values := values + [item];
      wakeup := true;
    }

    // Clearing the deque deletes its elements from front to back.
    method Clear()
      modifies `values, `freed
      ensures View() == Emptied(old(View()))
    {
      while values != []
        invariant freed + values == old(freed) + old(values)
        decreases |values|
      {
        freed := freed + [values[0]];
        values := values[1..];
      }
    }
  }

  // An undisturbed call of Add is four steps of one thread, and does to the contents what
  // Container.Add does.
  lemma AddIsFourSteps(w: World, t: nat, r: nat)
    requires t in w.adders && w.adders[t] == WantsLock(r) && w.lock == NoOne
    ensures var es := [LockEvent(t), PushEvent(t), SendEvent(t), UnlockEvent(t)];
      && Runs(w, es) && ContentsOf(Exec(w, es)) == Added(ContentsOf(w), r)
      && Exec(w, es) == w.(values := w.values + [r], wakeup := true, adders := w.adders - {t},
                           place := w.place[r := Trashed])
  {
    var es := [LockEvent(t), PushEvent(t), SendEvent(t), UnlockEvent(t)];
    var w1 := Apply(w, es[0]);
    var w2 := Apply(w1, es[1]);
    var w3 := Apply(w2, es[2]);
    RunOfOne(w3, es[3]);
    assert es[1..] == [es[1], es[2], es[3]] && es[1..][1..] == [es[2], es[3]] && [es[2], es[3]][1..] == [es[3]];
    assert Runs(w2, [es[2], es[3]]) && Exec(w2, [es[2], es[3]]) == Apply(w3, es[3]);
    assert Runs(w1, es[1..]) && Exec(w1, es[1..]) == Apply(w3, es[3]);
    assert Apply(w3, es[3]).adders == w.adders - {t};
  }

  // An undisturbed wakeup is four steps of the main thread, and does what Container.Clear does; the
  // wakeup is used up.
  lemma ClearIsFourSteps(w: World)
    requires w.wakeup && w.cleaner == Resting && w.lock == NoOne
    ensures var es := [WakeupEvent, MainLockEvent, ClearEvent, MainUnlockEvent];
      && Runs(w, es) && ContentsOf(Exec(w, es)) == Emptied(ContentsOf(w)).(wakeup := false)
      && Exec(w, es).lock == NoOne && Exec(w, es).cleaner == Resting && Exec(w, es).adders == w.adders
  {
    var es := [WakeupEvent, MainLockEvent, ClearEvent, MainUnlockEvent];
    var w1 := Apply(w, es[0]);
    var w2 := Apply(w1, es[1]);
    var w3 := Apply(w2, es[2]);
    RunOfOne(w3, es[3]);
    assert es[1..] == [es[1], es[2], es[3]] && es[1..][1..] == [es[2], es[3]] && [es[2], es[3]][1..] == [es[3]];
    assert Runs(w2, [es[2], es[3]]) && Exec(w2, [es[2], es[3]]) == Apply(w3, es[3]);
    assert Runs(w1, es[1..]) && Exec(w1, es[1..]) == Apply(w3, es[3]);
  }
}
