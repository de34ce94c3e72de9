/** The sequencer's half of the coupling: writing a queued action does to the written
    view what admission made it mean, and disturbs nothing admitted. */
module Draining {
  import opened Codes
  import opened Claims
  import opened Forwarding
  import opened Synthesis
  import opened Broker
  import opened Pointwise
  import opened ViewModel
  import opened SynthInvariant
  import opened BrokerInvariant
  import opened TwoViews
  import opened SafeInputs
  import opened Sweeping
  import opened Coupling

  // ---------------------------------------------------------------- ends and closes

  lemma MeaningKeepsNone(vk: map<nat, nat>, v: ViewState, a: Action, i: nat)
    requires i < |v.slots| && v.slots[i].None?
    ensures var w := Meaning(vk, v, a); |w.slots| == |v.slots| && w.slots[i].None?
  {
    if a.Synth? {
      InputsKeepTargets(vk, v, a.inputs, Gone(v.slots, a.owner), false, a.owner);
      hide AllInputs;
    }
  }

  /** A slot the written view has closed stays closed. */
  lemma {:induction false} DrainedKeepsNone(vk: map<nat, nat>, v: ViewState, queue: seq<Action>, i: nat)
    requires i < |v.slots| && v.slots[i].None?
    ensures var w := Drained(vk, v, queue); |w.slots| == |v.slots| && w.slots[i].None?
    decreases |queue|
  {
    if queue != [] {
      MeaningKeepsNone(vk, v, queue[0], i);
      hide Meaning;
      DrainedKeepsNone(vk, Mirror(vk, v, queue[0]), queue[1..], i);
    }
  }

  /** What a written action leaves behind besides its own view's keys. */
  ghost predicate Settled(m: Machine, g: Machine) {
    && Healthy(g.fwd) && Admitted(g) == Admitted(m)
    && g.vkTable == m.vkTable && g.appliedEpoch == m.appliedEpoch && g.enqueuedEpoch == m.enqueuedEpoch
    && m.fwd.epoch <= g.fwd.epoch
  }

  /** A step of one slot's written view, seen from both views. */
  lemma SlotMoved(f: Forward, g: Forward, i: nat)
    requires i < |f.devices| && OnlySlot(f, g, i) && Healthy(f)
    requires SlotAt(g.devices[i], Enqueued) == SlotAt(f.devices[i], Enqueued)
    requires !g.devices[i].failed && g.devices[i].budget.Endless?
    ensures SlotsAt(g, Applied) == SlotsAt(f, Applied)[i := SlotAt(g.devices[i], Applied)]
    ensures SlotsAt(g, Enqueued) == SlotsAt(f, Enqueued) && Healthy(g)
  {}

  lemma EndedSlot(f: Forward, kinds: map<nat, Kind>, i: nat, next: nat)
    requires DevicesOk(f, kinds) && Healthy(f) && i < |f.devices| && f.devices[i].Live()
    ensures var d, g := f.devices[i], EndGrabAt(f, i, Applied, f.devices[i].applied.source, next);
            && SlotsAt(g, Applied) == SlotsAt(f, Applied)[i := Some(EndSource(SlotAt(d, Applied).value, next))]
            && SlotsAt(g, Enqueued) == SlotsAt(f, Enqueued) && Healthy(g)
  {
    KeysFit(f, kinds);
    HealthyAt(f, i);
    EndGrabAtAt(f, i, Applied, f.devices[i].applied.source, next);
    hide EndGrabAt, DevicesOk, Healthy, SlotsAt;
    SlotMoved(f, EndGrabAt(f, i, Applied, f.devices[i].applied.source, next), i);
  }

  lemma EndedView(f: Forward, kinds: map<nat, Kind>, next: nat)
    requires DevicesOk(f, kinds) && Healthy(f)
    ensures var g := ApplyEndGrab(f, next, None);
            && SlotsAt(g, Applied) == EndSlot(SlotsAt(f, Applied), next)
            && SlotsAt(g, Enqueued) == SlotsAt(f, Enqueued) && Healthy(g)
            && (g == f || g.epoch == f.epoch + 1)
  {
    hide EndGrabAt, DevicesOk, Healthy;
    var slot := SlotOf(f, next);
    if slot.Some? && f.devices[slot.value].Live() && f.devices[slot.value].targetA < next {
      EndedSlot(f, kinds, slot.value, next);
      EndGrabEpoch(f, slot.value, Applied, f.devices[slot.value].applied.source, next);
    }
  }

  lemma HealthyAt(f: Forward, i: nat)
    requires Healthy(f) && i < |f.devices|
    ensures !f.devices[i].failed && f.devices[i].budget.Endless?
  {}

  lemma EndGrabEpoch(f: Forward, i: nat, view: View, keep: set<nat>, next: nat)
    requires i < |f.devices|
    ensures EndGrabAt(f, i, view, keep, next).epoch == f.epoch + 1
  {
    hide ReleaseOutputs;
  }

  lemma ClosedView(f: Forward, kinds: map<nat, Kind>, target: nat)
    requires DevicesOk(f, kinds) && Healthy(f) && target != 0
    requires Locate(SlotsAt(f, Applied), target).Some? && f.devices[Locate(SlotsAt(f, Applied), target).value].closing
    ensures var g := ApplyClose(f, target);
            && SlotsAt(g, Applied) == CloseSlot(SlotsAt(f, Applied), target)
            && SlotsAt(g, Enqueued) == SlotsAt(f, Enqueued) && Healthy(g)
            && g.epoch == f.epoch + 1
  {
    LocateFind(f, kinds, target, Applied);
    var i := Locate(SlotsAt(f, Applied), target).value;
    assert DeviceOk(f.devices[i], i, f.serial, kinds);
    ReleaseOutputsAt(f, i, Applied, {});
    var r, g := ReleaseOutputs(f, i, Applied, {}), ApplyClose(f, target);
    hide ReleaseOutputs, DevicesOk;
    SlotMoved(f, g, i);
  }

  /** The close at the head of the queue was admitted, so its slot is closing. */
  lemma HeadIsClosing(s: State)
    requires Coupled(s) && s.queue != [] && s.queue[0].CloseOf?
    ensures var slots, target := SlotsAt(s.m.fwd, Applied), s.queue[0].target;
            Locate(slots, target).Some? && s.m.fwd.devices[Locate(slots, target).value].closing && target != 0
  {
    var vk, v, target := s.m.vkTable, Written(s.m), s.queue[0].target;
    assert Dated(s, s.queue[0]);
    assert ReadyNow(v, s.queue[0]);
    var i := Locate(v.slots, target).value;
    assert SlotAt(s.m.fwd.devices[i], Applied).Some?;
    DrainedKeepsNone(vk, Mirror(vk, v, s.queue[0]), s.queue[1..], i);
    assert Drained(vk, v, s.queue).slots[i].None?;
    assert SlotsAt(s.m.fwd, Enqueued)[i].None?;
  }

  // ---------------------------------------------------------------- writing

  lemma KeptView(m: Machine, g: Machine)
    requires Kept(m, g) && Healthy(m.fwd)
    ensures Written(g) == Written(m) && Settled(m, g)
  {}

  /** Safe inputs need no device, and other inputs find devices that work. */
  lemma PlayedAsMeant(m: Machine, kinds: map<nat, Kind>, inputs: seq<Input>, o: Owner)
    requires DevicesOk(m.fwd, kinds) && Healthy(m.fwd) && Playable(m, inputs, o)
    requires forall v :: v in m.vkTable ==> m.vkTable[v] <= KEY_MAX
    ensures var dead := IsDead(m.fwd, o, Applied);
            var g := SendInputs(m, inputs, dead, false, o);
            Written(g) == AllInputs(m.vkTable, Written(m), inputs, dead, false, o) && Apart(m.fwd, g.fwd, Applied)
  {
    var dead := IsDead(m.fwd, o, Applied);
    if AllSafe(inputs, dead, m.absReady) {
      SafeBatchesStayInStep(m, kinds, inputs, dead, false, o);
    } else {
      SentAllView(m, kinds, inputs, dead, false, o);
    }
    hide SendInputs, AllInputs, IsDead, AllSafe, DevicesOk;
  }

  lemma WrittenBatch(s: State, inputs: seq<Input>, continues: bool, o: Owner)
    requires DevicesOk(s.m.fwd, s.kinds) && Healthy(s.m.fwd) && Playable(s.m, inputs, o)
    requires forall v :: v in s.m.vkTable ==> s.m.vkTable[v] <= KEY_MAX
    ensures var g := SendBatch(s.m, inputs, continues, o);
            && Written(g) == AllInputs(s.m.vkTable, Written(s.m), inputs, Gone(Written(s.m).slots, o), false, o)
            && Settled(s.m, g)
  {
    var m := if continues then s.m else s.m.(pendingHigh := 0);
    DeadIsGone(s.m, s.kinds, o, Applied);
    PlayedAsMeant(m, s.kinds, inputs, o);
    SendInputsOk(m, s.kinds, inputs, IsDead(m.fwd, o, Applied), false, o);
    hide SendInputs, AllInputs, IsDead, Gone, SlotsAt, DevicesOk, AllSafe;
  }

  /** The sequencer does to the written view what the action means. */
  lemma WrittenView(s: State, a: Action)
    requires DevicesOk(s.m.fwd, s.kinds) && Healthy(s.m.fwd) && PendingOk(s, a) && ReadyNow(Written(s.m), a)
    requires a.Synth? ==> Playable(s.m, a.inputs, a.owner)
    requires forall v :: v in s.m.vkTable ==> s.m.vkTable[v] <= KEY_MAX
    requires forall t :: t in s.kinds ==> t != 0
    requires a.CloseOf? ==> a.target != 0 && s.m.fwd.devices[Locate(SlotsAt(s.m.fwd, Applied), a.target).value].closing
    ensures var g := WriteAction(s.m, a);
            && Written(g) == Meaning(s.m.vkTable, Written(s.m), a) && Settled(s.m, g)
            && (a.EndOf? || a.CloseOf? ==> Written(g) == Written(s.m) || g.fwd.epoch == s.m.fwd.epoch + 1)
  {
    hide DevicesOk, Healthy, SlotsAt, NoteKeys, Write, SetApplied, SendBatch, ReleaseAllFrom, ReleaseByPacket,
         ReleaseGeneric, ApplyEndGrab, ApplyClose;
    var m := s.m;
    match a
    case SourceState(p) => NotedView(m.fwd, s.kinds, p, Applied, true);
    case Replay(p) =>
      WrittenPacketView(m.fwd, s.kinds, p);
      var n := m.(fwd := Write(m.fwd, p), applied := ReleaseByPacket(m.applied, p, |p.events|));
      KeptView(n, WriteAction(m, a));
    case Synth(inputs, continues, owner) => WrittenBatch(s, inputs, continues, owner); hide AllInputs, Gone;
    case ReleaseOwner(filter) => KeptView(m.(applied := DropMatching(m.applied, filter)), WriteAction(m, a));
    case ReleaseAll =>
      var g := ReleaseGeneric(m);
      KeptView(m.(applied := map[]), g);
      SameDevicesOk(m.fwd, g.fwd, s.kinds);
      EmptiedView(g.fwd, s.kinds, Applied);
    case ReleaseSynth => KeptView(m.(applied := map[]), ReleaseGeneric(m));
    case RecreateSynth(d) =>
      KeptView(m.(applied := map[]), ReleaseGeneric(m));
      SameSlots(ReleaseGeneric(m).fwd, Recreate(m, d).fwd);
    case EndOf(next) => EndedView(m.fwd, s.kinds, next);
    case CloseOf(target) => ClosedView(m.fwd, s.kinds, target);
  }

  lemma SameSlots(f: Forward, g: Forward)
    requires g.devices == f.devices
    ensures SlotsAt(g, Applied) == SlotsAt(f, Applied) && SlotsAt(g, Enqueued) == SlotsAt(f, Enqueued)
            && (Healthy(f) ==> Healthy(g))
  {}

  lemma MaintainedView(m: Machine, kinds: map<nat, Kind>)
    requires DevicesOk(m.fwd, kinds) && Healthy(m.fwd)
    requires m.appliedEpoch == m.fwd.epoch ==> Clean(Written(m))
    ensures var g := Maintain(m);
            && Written(g) == Swept(Written(m)) && Healthy(g.fwd) && Admitted(g) == Admitted(m)
            && g.vkTable == m.vkTable && g.enqueuedEpoch == m.enqueuedEpoch && g.fwd.epoch == m.fwd.epoch
            && g.appliedEpoch == m.fwd.epoch
  {
    CleanIsSwept(Written(m));
    forall o
      ensures IsDead(m.fwd, o, Applied) <==> Gone(SlotsAt(m.fwd, Applied), o)
    {
      DeadIsGone(m, kinds, o, Applied);
    }
    hide IsDead, Gone, SetApplied, Healthy;
    assert Sweep(m.fwd, m.applied, Applied) == Swept(Written(m)).claims;
    if m.appliedEpoch != m.fwd.epoch {
      var n := m.(appliedEpoch := m.fwd.epoch, applied := Sweep(m.fwd, m.applied, Applied));
      KeptView(n, Maintain(m));
    }
  }

  lemma CoupledHead(s: State)
    requires Coupled(s) && s.queue != []
    ensures PendingOk(s, s.queue[0]) && ReadyNow(Written(s.m), s.queue[0]) && Clean(Written(s.m))
    ensures MachineInv(s.m) && TableOk(s.m.enqueued)
  {}

  lemma HeadWritten(s: State)
    requires Coupled(s) && s.queue != [] && InOrder(s, ApplyNext)
    ensures var g := WriteAction(s.m, s.queue[0]);
            && Written(g) == Meaning(s.m.vkTable, Written(s.m), s.queue[0]) && Settled(s.m, g)
            && DevicesOk(g.fwd, s.kinds)
            && (g.appliedEpoch == g.fwd.epoch ==> Clean(Written(g)))
  {
    var a := s.queue[0];
    CoupledParts(s);
    CoupledHead(s);
    if a.CloseOf? {
      HeadIsClosing(s);
    }
    assert s.m.appliedEpoch <= s.m.fwd.epoch;
    hide Coupled;
    WrittenView(s, a);
    hide MachineInv, DevicesOk, PendingOk, Healthy, Admitted, Written, WriteAction;
    WriteMachine(s, a);
    if !a.EndOf? && !a.CloseOf? {
      MeaningKeepsClean(s.m.vkTable, Written(s.m), a);
    }
  }

  /** Applying the head of the queue mirrors it onto the written view. */
  lemma AppliedMirror(s: State)
    requires Coupled(s) && s.queue != [] && InOrder(s, ApplyNext)
    ensures var t := Next(s, ApplyNext);
            && Written(t.m) == Mirror(s.m.vkTable, Written(s.m), s.queue[0]) && Admitted(t.m) == Admitted(s.m)
            && Healthy(t.m.fwd)
            && t.m.vkTable == s.m.vkTable && t.m.enqueuedEpoch == s.m.enqueuedEpoch
            && s.m.fwd.epoch <= t.m.fwd.epoch && t.m.appliedEpoch == t.m.fwd.epoch
  {
    hide Coupled, WriteAction, Meaning, DevicesOk, Written, Admitted, Healthy, Maintain, Clean;
    HeadWritten(s);
    MaintainedView(WriteAction(s.m, s.queue[0]), s.kinds);
  }
}
