/** Who owns the memory of a message part. A received part has a heap-allocated reference that the
    stack object deletes unless it was moved into a JavaScript buffer, whose finalizer deletes it
    then. A part to be sent is copied, or lent to libzmq together with what keeps it alive. */
module Messages {
  import opened Common

  // Parts longer than this are not copied.
  const ZERO_COPY_THRESHOLD: nat := 0x80

  const EINVAL: int := 22

  // ----- received parts --------------------------------------------------------------------------------

  // Every IncomingMsg makes one reference, so both have one number. A message maps to `moved`.
  datatype World = World(
    cage: bool,                   // external buffers are not allowed in this process
    messages: map<nat, bool>,     // IncomingMsg objects in scope
    buffers: multiset<nat>,       // references owned by a JavaScript buffer
    deleted: multiset<nat>,
    made: nat)

  function Start(cage: bool): World {
    World(cage, map[], multiset{}, multiset{}, 0)
  }

  datatype Event =
    | MakeEvent
    | IntoBufferEvent(r: nat, length: nat)
    | ScopeEndEvent(r: nat)
    | FinalizeEvent(r: nat)

  // JavaScript cannot collect a buffer before the native call that made it returns.
  predicate Enabled(w: World, e: Event) {
    match e
    case MakeEvent => true
    case IntoBufferEvent(r, _) => r in w.messages
    case ScopeEndEvent(r) => r in w.messages
    case FinalizeEvent(r) => r in w.buffers && r !in w.messages
  }

  predicate MovesOut(w: World, r: nat, length: nat) {
    !w.cage && length > ZERO_COPY_THRESHOLD && r in w.messages && !w.messages[r]
  }

  function Apply(w: World, e: Event): World
    requires Enabled(w, e)
  {
    match e
    case MakeEvent => w.(messages := w.messages[w.made := false], made := w.made + 1)
    case IntoBufferEvent(r, length) =>
      if MovesOut(w, r, length) then w.(messages := w.messages[r := true], buffers := w.buffers + multiset{r}) else w
    case ScopeEndEvent(r) =>
      w.(messages := w.messages - {r}, deleted := if w.messages[r] then w.deleted else w.deleted + multiset{r})
    case FinalizeEvent(r) => w.(buffers := w.buffers - multiset{r}, deleted := w.deleted + multiset{r})
  }

  predicate Runs(w: World, es: seq<Event>)
    decreases |es|
  {
    es == [] || (Enabled(w, es[0]) && Runs(Apply(w, es[0]), es[1..]))
  }

  function Exec(w: World, es: seq<Event>): World
    requires Runs(w, es)
    decreases |es|
  {
    if es == [] then w else Exec(Apply(w, es[0]), es[1..])
  }

  predicate OwnedByMessage(w: World, r: nat) {
    r in w.messages && !w.messages[r]
  }

  // A reference has one owner, a message or a buffer, until it is deleted.
  predicate RefOk(w: World, r: nat) {
    Bit(OwnedByMessage(w, r)) + w.buffers[r] + w.deleted[r] == Bit(r < w.made)
  }

  ghost predicate Inv(w: World) {
    && (forall r: nat :: RefOk(w, r))
    && (forall r: nat :: r in w.messages ==> r < w.made)
    && (forall r: nat :: r in w.messages && w.messages[r] ==> r in w.buffers)
  }

  lemma MakeKeeps(w: World)
    requires Inv(w)
    ensures Inv(Apply(w, MakeEvent))
  {
    forall r: nat ensures RefOk(Apply(w, MakeEvent), r) { assert RefOk(w, r); }
  }

  lemma IntoBufferKeeps(w: World, x: nat, length: nat)
    requires Inv(w) && x in w.messages
    ensures Inv(Apply(w, IntoBufferEvent(x, length)))
  {
    forall r: nat ensures RefOk(Apply(w, IntoBufferEvent(x, length)), r) { assert RefOk(w, r); }
  }

  lemma ScopeEndKeeps(w: World, x: nat)
    requires Inv(w) && x in w.messages
    ensures Inv(Apply(w, ScopeEndEvent(x)))
  {
    forall r: nat ensures RefOk(Apply(w, ScopeEndEvent(x)), r) { assert RefOk(w, r); }
  }

  lemma FinalizeKeeps(w: World, x: nat)
    requires Inv(w) && x in w.buffers && x !in w.messages
    ensures Inv(Apply(w, FinalizeEvent(x)))
  {
    forall r: nat ensures RefOk(Apply(w, FinalizeEvent(x)), r) { assert RefOk(w, r); }
  }

  lemma StepKeeps(w: World, e: Event)
    requires Inv(w) && Enabled(w, e)
    ensures Inv(Apply(w, e))
  {
    match e
    case MakeEvent => MakeKeeps(w);
    case IntoBufferEvent(x, length) => IntoBufferKeeps(w, x, length);
    case ScopeEndEvent(x) => ScopeEndKeeps(w, x);
    case FinalizeEvent(x) => FinalizeKeeps(w, x);
  }

  lemma {:induction false} RunKeeps(w: World, es: seq<Event>)
    requires Inv(w) && Runs(w, es)
    ensures Inv(Exec(w, es))
    decreases |es|
  {
    if es != [] {
      StepKeeps(w, es[0]);
      RunKeeps(Apply(w, es[0]), es[1..]);
    }
  }

  // No reference is deleted twice or leaked, and a message in scope never refers to a deleted one.
  lemma ReferencesDeletedOnce(cage: bool, es: seq<Event>, r: nat)
    requires Runs(Start(cage), es)
    ensures var w := Exec(Start(cage), es);
      && Bit(OwnedByMessage(w, r)) + w.buffers[r] + w.deleted[r] == Bit(r < w.made)
      && (r in w.messages ==> w.deleted[r] == 0)
      && (r < w.made && r !in w.messages && r !in w.buffers ==> w.deleted[r] == 1)
  {
    RunKeeps(Start(cage), es);
    assert RefOk(Exec(Start(cage), es), r);
  }

  // What IntoBuffer gives back.
  datatype Buffer = External(r: nat) | Copy(data: Frame) | Threw(errno: int)

  class IncomingMsg {
    const ref: nat
    var moved: bool
    const data: Frame

    constructor (ref: nat, data: Frame)
      ensures this.ref == ref && this.data == data && !moved
    {
      this.ref, this.data, moved := ref, data, false;
    }

    // Ownership is given away at most once; without external buffers it is never given away.
    method IntoBuffer(cage: bool, ghost w: World) returns (b: Buffer)
      requires ref in w.messages && w.messages[ref] == moved && w.cage == cage && (cage ==> !moved)
      modifies this
      ensures b == if !cage && old(moved) then Threw(22)
                   else if !cage && |data| > 128 then External(ref) else Copy(data)
      ensures Apply(w, IntoBufferEvent(ref, |data|)).messages[ref] == moved
      ensures Apply(w, IntoBufferEvent(ref, |data|)).buffers[ref] == w.buffers[ref] + Bit(b.External?)
    {
      if !cage && moved {
        return Threw(EINVAL);
      }
      if !cage {
        if |data| > 128 {
          moved := true;
          return External(ref);
        }
      }
      b := Copy(data);
    }
  }

  // ----- parts to be sent ------------------------------------------------------------------------------

  // A value that is no text and no buffer is converted to text; for some the conversion throws.
  datatype Value = Null | Text(utf8: Frame) | Bytes(data: Frame) | Other(text: Frame) | Throwing

  // What send() was given: an array of parts, or one part.
  datatype Message = Parts(values: seq<Value>) | OnePart(value: Value)

  // How libzmq gets the bytes of a part, and what is released when it is done with them. A part that
  // libzmq could not initialise is left as it is, and an exception is pending.
  datatype Keeper = Reference | OwnedString

  datatype OutgoingMsg = Empty | Copied(data: Frame) | Lent(data: Frame, keeper: Keeper) | Failed

  function Sent(m: OutgoingMsg): Frame {
    if m.Copied? || m.Lent? then m.data else []
  }

  // Only a JavaScript buffer that is longer than the threshold needs a reference that the trash takes
  // back; strings are converted to memory of their own.
  predicate NeedsReference(v: Value) {
    v.Bytes? && |v.data| > ZERO_COPY_THRESHOLD
  }

  // `accepted` is whether libzmq initialises the part; an empty part cannot fail. What keeps the bytes
  // of a part that failed was deleted at once.
  predicate Carries(m: OutgoingMsg, v: Value, accepted: bool) {
    && (m.Failed? <==> !accepted && !v.Null?)
    && (!m.Failed? ==>
          && (v.Null? ==> Sent(m) == [])
          && (v.Text? ==> Sent(m) == v.utf8)
          && (v.Bytes? ==> Sent(m) == v.data)
          && (v.Other? ==> Sent(m) == v.text)
          && (m.Lent? && m.keeper == Reference <==> NeedsReference(v))
          && (m.Copied? <==> v.Bytes? && !NeedsReference(v)))
  }

  // `held` is the keepers that stay allocated: one just in case the part lends its bytes. There is no
  // part when the conversion throws.
  method MakeOutgoing(v: Value, accepted: bool) returns (m: Option<OutgoingMsg>, held: seq<Keeper>)
    ensures m.None? <==> v.Throwing?
    ensures m.Some? ==> Carries(m.value, v, accepted)
    ensures held == if m.Some? && m.value.Lent? then [m.value.keeper] else []
  {
    held := [];
    match v {
      case Bytes(data) =>
        if |data| > 128 {
          var part;
          part, held := MakeLent(data, Reference, accepted);
          m := Some(part);
        } else if !accepted {
          m := Some(Failed);
        } else {
          var copy := [];
          for i := 0 to |data|
            invariant copy == data[..i]
          {
            copy := copy + [data[i]];
          }
          assert data[..|data|] == data;
          m := Some(Copied(copy));
        }
      case Null => m := Some(Empty);
      case Text(utf8) =>
        var part;
        part, held := MakeLent(utf8, OwnedString, accepted);
        m := Some(part);
      case Other(text) =>
        var part;
        part, held := MakeLent(text, OwnedString, accepted);
        m := Some(part);
      case Throwing => m := None;
    }
  }

  method MakeLent(data: Frame, keeper: Keeper, accepted: bool) returns (m: OutgoingMsg, held: seq<Keeper>)
    ensures m == if accepted then Lent(data, keeper) else Failed
    ensures held == if accepted then [keeper] else []
  {
    held := [keeper];
    if accepted {
      m := Lent(data, keeper);
    } else {
      held := held[..0];
      m := Failed;
    }
  }

  function Values(message: Message): seq<Value> {
    match message
    case Parts(values) => values
    case OnePart(value) => [value]
  }

  predicate Converts(values: seq<Value>) {
    forall k :: 0 <= k < |values| ==> !values[k].Throwing?
  }

  predicate AllCarry(parts: seq<OutgoingMsg>, values: seq<Value>, accepted: seq<bool>) {
    && |parts| == |values| == |accepted|
    && forall k :: 0 <= k < |parts| ==> Carries(parts[k], values[k], accepted[k])
  }

  lemma OneMorePart(m: OutgoingMsg, parts: seq<OutgoingMsg>, values: seq<Value>, accepted: seq<bool>)
    requires values != [] && accepted != [] && Carries(m, values[0], accepted[0])
    requires AllCarry(parts, values[1..], accepted[1..])
    ensures AllCarry([m] + parts, values, accepted)
  {
  }

  // The list is built back to front by inserting at its head; it has the parts in their order. There is
  // no list when a conversion throws: the values after the last that does were converted, and their
  // parts are destroyed.
  method MakeList(values: seq<Value>, accepted: seq<bool>) returns (r: Option<seq<OutgoingMsg>>)
    requires |accepted| == |values|
    ensures r.Some? <==> Converts(values)
    ensures r.Some? ==> AllCarry(r.value, values, accepted)
  {
    var parts := [];
    var i := |values|;
    while i > 0
      invariant 0 <= i <= |values|
      invariant AllCarry(parts, values[i..], accepted[i..])
      invariant forall k :: i <= k < |values| ==> !values[k].Throwing?
    {
      i := i - 1;
      var m, held := MakeOutgoing(values[i], accepted[i]);
      if m.None? {
        return None;
      }
      assert values[i..][1..] == values[i + 1..] && accepted[i..][1..] == accepted[i + 1..];
      OneMorePart(m.value, parts, values[i..], accepted[i..]);
      parts := [m.value] + parts;
    }
    assert values[0..] == values && accepted[0..] == accepted;
    return Some(parts);
  }

  method MakeParts(message: Message, accepted: seq<bool>) returns (r: Option<seq<OutgoingMsg>>)
    requires |accepted| == |Values(message)|
    ensures r.Some? <==> Converts(Values(message))
    ensures r.Some? ==> AllCarry(r.value, Values(message), accepted)
  {
    match message {
      case Parts(values) => r := MakeList(values, accepted);
      case OnePart(value) =>
        var m, held := MakeOutgoing(value, accepted[0]);
        r := if m.None? then None else Some([m.value]);
    }
  }
}
