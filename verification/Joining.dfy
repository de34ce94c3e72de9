/** A source that joins while output is queued: what is queued cannot name it, so it
    makes no difference whether it joins before or after the queue drains. */
module Joining {
  import opened Codes
  import opened Claims
  import opened Forwarding
  import opened Synthesis
  import opened Broker
  import opened Pointwise
  import opened ViewModel
  import opened TwoViews
  import opened Sweeping
  import opened Coupling

  function AddSlot(v: ViewState, i: nat, src: Source): ViewState
    requires i < |v.slots|
  {
    v.(slots := v.slots[i := Some(src)])
  }

  /** A source that holds nothing takes a free slot under a name no claim uses. */
  predicate Joins(v: ViewState, i: nat, src: Source) {
    i < |v.slots| && v.slots[i].None? && src.keys == NO_KEYS && forall o :: o in v.claims ==> o.target != src.target
  }

  /** The action was queued before the name was issued. */
  predicate Predates(a: Action, target: nat) {
    match a
    case SourceState(p) => p.target < target
    case Replay(p) => p.target < target
    case Synth(_, _, o) => o.target < target
    case EndOf(next) => next < target
    case CloseOf(t) => t < target
    case _ => true
  }

  lemma LocateOther(slots: seq<Option<Source>>, i: nat, src: Source, target: nat)
    requires i < |slots| && slots[i].None? && target != src.target
    ensures Locate(slots[i := Some(src)], target) == Locate(slots, target)
  {}

  lemma ShiftAllJoins(slots: seq<Option<Source>>, i: nat, src: Source, code: nat, restore: bool)
    requires i < |slots| && slots[i].None? && src.keys == NO_KEYS
    ensures ShiftAll(slots[i := Some(src)], code, restore) == ShiftAll(slots, code, restore)[i := Some(src)]
    ensures Restorable(slots[i := Some(src)], code) <==> Restorable(slots, code)
  {
    var grown := slots[i := Some(src)];
    assert forall j :: 0 <= j < |slots| && j != i ==> grown[j] == slots[j];
    if Restorable(slots, code) {
      var j :| 0 <= j < |slots| && HasDisplaced(slots[j], code);
      assert HasDisplaced(grown[j], code);
    }
    if Restorable(grown, code) {
      var j :| 0 <= j < |grown| && HasDisplaced(grown[j], code);
      assert HasDisplaced(slots[j], code);
    }
  }

  lemma PressJoins(v: ViewState, i: nat, src: Source, code: nat, down: bool, restore: bool, o: Owner)
    requires Joins(v, i, src) && o.target != src.target
    ensures Joins(PressOrRelease(v, code, down, restore, o), i, src)
    ensures PressOrRelease(AddSlot(v, i, src), code, down, restore, o) ==
            AddSlot(PressOrRelease(v, code, down, restore, o), i, src)
  {
    ShiftAllJoins(v.slots, i, src, code, down);
    PressKeepsTargets(v, code, down, restore, o);
    hide Restorable;
  }

  lemma {:induction false} ButtonsJoin(v: ViewState, i: nat, src: Source, ts: seq<Transition>, moved: bool, o: Owner)
    requires Joins(v, i, src) && o.target != src.target
    ensures Joins(Buttons(v, ts, moved, o), i, src)
    ensures Buttons(AddSlot(v, i, src), ts, moved, o) == AddSlot(Buttons(v, ts, moved, o), i, src)
    decreases |ts|
  {
    hide PressOrRelease;
    if ts != [] {
      if ts[0].button.None? {
        ButtonsJoin(v, i, src, ts[1..], moved, o);
      } else {
        PressJoins(v, i, src, ts[0].button.value, ts[0].down, !moved, o);
        ButtonsJoin(PressOrRelease(v, ts[0].button.value, ts[0].down, !moved, o), i, src, ts[1..], moved, o);
      }
    }
  }

  lemma InputJoins(vk: map<nat, nat>, v: ViewState, i: nat, src: Source, x: Input, moved: bool, o: Owner)
    requires Joins(v, i, src) && o.target != src.target
    ensures Joins(OneInput(vk, v, x, moved, o), i, src)
    ensures OneInput(vk, AddSlot(v, i, src), x, moved, o) == AddSlot(OneInput(vk, v, x, moved, o), i, src)
  {
    hide PressOrRelease, Buttons, Transitions;
    if x.Mouse? {
      ButtonsJoin(v, i, src, Transitions(x), moved || MovesAbsolutely(x), o);
    } else if Resolve(vk, x).Some? {
      PressJoins(v, i, src, CanonicalButton(Resolve(vk, x).value), Up !in x.keyFlags, true, o);
    }
  }

  lemma {:induction false} InputsJoin(vk: map<nat, nat>, v: ViewState, i: nat, src: Source, xs: seq<Input>, dead: bool,
                                      moved: bool, o: Owner)
    requires Joins(v, i, src) && o.target != src.target
    ensures Joins(AllInputs(vk, v, xs, dead, moved, o), i, src)
    ensures AllInputs(vk, AddSlot(v, i, src), xs, dead, moved, o) ==
            AddSlot(AllInputs(vk, v, xs, dead, moved, o), i, src)
    decreases |xs|
  {
    hide OneInput, Played;
    if xs != [] {
      match Played(xs[0], dead)
      case None => InputsJoin(vk, v, i, src, xs[1..], dead, moved, o);
      case Some(x) =>
        InputJoins(vk, v, i, src, x, moved, o);
        InputsJoin(vk, OneInput(vk, v, x, moved, o), i, src, xs[1..], dead, moved || MovesAbsolutely(x), o);
    }
  }

  lemma PacketJoins(slots: seq<Option<Source>>, i: nat, src: Source, p: Packet, source: bool)
    requires i < |slots| && slots[i].None? && p.target != src.target
    ensures NotePacket(slots[i := Some(src)], p, source) == NotePacket(slots, p, source)[i := Some(src)]
  {
    LocateOther(slots, i, src, p.target);
  }

  lemma MeaningJoins(vk: map<nat, nat>, v: ViewState, i: nat, src: Source, a: Action)
    requires Joins(v, i, src) && Predates(a, src.target)
    ensures Joins(Meaning(vk, v, a), i, src)
    ensures Meaning(vk, AddSlot(v, i, src), a) == AddSlot(Meaning(vk, v, a), i, src)
  {
    match a
    case SourceState(p) => PacketJoins(v.slots, i, src, p, true);
    case Replay(p) =>
      PacketJoins(v.slots, i, src, p, false);
      ReleaseByPacketKeys(v.claims, p, |p.events|);
      hide ReleaseByPacket;
    case Synth(inputs, _, o) =>
      LocateOther(v.slots, i, src, o.target);
      InputsJoin(vk, v, i, src, inputs, Gone(v.slots, o), false, o);
      hide AllInputs;
    case ReleaseAll =>
      assert EmptyAll(v.slots[i := Some(src)]) == EmptyAll(v.slots)[i := Some(src)];
    case CloseOf(t) =>
      LocateOther(v.slots, i, src, t);
      if Locate(v.slots, t).Some? {
        var j := Locate(v.slots, t).value;
        assert v.slots[i := Some(src)][j := None] == v.slots[j := None][i := Some(src)];
      }
    case EndOf(next) =>
      assert EndSlot(v.slots[i := Some(src)], next) == EndSlot(v.slots, next)[i := Some(src)];
    case _ =>
  }

  lemma SweptJoins(v: ViewState, i: nat, src: Source)
    requires Joins(v, i, src)
    ensures Joins(Swept(v), i, src) && Swept(AddSlot(v, i, src)) == AddSlot(Swept(v), i, src)
    ensures Clean(AddSlot(v, i, src)) <==> Clean(v)
  {
    forall o | o in v.claims
      ensures Gone(v.slots[i := Some(src)], o) <==> Gone(v.slots, o)
    {
      LocateOther(v.slots, i, src, o.target);
    }
    hide Gone;
    assert Swept(AddSlot(v, i, src)).claims == Swept(v).claims;
  }

  lemma MirrorJoins(vk: map<nat, nat>, v: ViewState, i: nat, src: Source, a: Action)
    requires Joins(v, i, src) && Predates(a, src.target)
    ensures Joins(Mirror(vk, v, a), i, src)
    ensures Mirror(vk, AddSlot(v, i, src), a) == AddSlot(Mirror(vk, v, a), i, src)
    ensures ReadyNow(AddSlot(v, i, src), a) <==> ReadyNow(v, a)
  {
    MeaningJoins(vk, v, i, src, a);
    if a.CloseOf? {
      LocateOther(v.slots, i, src, a.target);
    }
    hide Meaning, Swept, Locate;
    SweptJoins(Meaning(vk, v, a), i, src);
  }

  /** Joining commutes with everything that is queued. */
  lemma {:induction false} DrainedJoins(vk: map<nat, nat>, v: ViewState, i: nat, src: Source, queue: seq<Action>)
    requires Joins(v, i, src) && forall k :: 0 <= k < |queue| ==> Predates(queue[k], src.target)
    ensures Joins(Drained(vk, v, queue), i, src)
    ensures Drained(vk, AddSlot(v, i, src), queue) == AddSlot(Drained(vk, v, queue), i, src)
    ensures Ready(vk, AddSlot(v, i, src), queue) <==> Ready(vk, v, queue)
    decreases |queue|
  {
    hide Mirror, ReadyNow, Predates;
    if queue != [] {
      MirrorJoins(vk, v, i, src, queue[0]);
      DrainedJoins(vk, Mirror(vk, v, queue[0]), i, src, queue[1..]);
    }
  }
}
