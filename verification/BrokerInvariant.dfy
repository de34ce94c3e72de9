/** What every step of the broker keeps, and so what holds in every reachable state. */
module BrokerInvariant {
  import opened Codes
  import opened Claims
  import opened Forwarding
  import opened Synthesis
  import opened Broker
  import opened Pointwise
  import opened SinkInvariant
  import opened SynthInvariant

  // ---------------------------------------------------------------- devices

  predicate Names(target: nat, i: nat, d: Device, serial: nat, kinds: map<nat, Kind>) {
    target % 256 == i + 1 && target / 256 < serial && target in kinds && kinds[target] == Kind(d.keyboard, d.clone)
  }

  predicate DeviceOk(d: Device, i: nat, serial: nat, kinds: map<nat, Kind>) {
    if !d.open then d == FREE
    else
      && Names(d.targetA, i, d, serial, kinds)
      && (if d.closing then d.targetE == 0 && d.enqueued == NO_KEYS
          else Names(d.targetE, i, d, serial, kinds) && d.targetA <= d.targetE)
      && (d.retiring ==> d.closing && d.applied == NO_KEYS)
      && KeysOk(d.applied) && KeysOk(d.enqueued)
  }

  predicate DevicesOk(f: Forward, kinds: map<nat, Kind>) {
    && |f.devices| == SLOTS
    && (forall t :: t in kinds ==> t / 256 < f.serial)
    && forall i :: 0 <= i < SLOTS ==> DeviceOk(f.devices[i], i, f.serial, kinds)
  }

  /** Everything about a source but its key sets and its clone's health. */
  function Meta(d: Device): Device { d.(failed := false, budget := Endless, applied := NO_KEYS, enqueued := NO_KEYS) }

  predicate SameMeta(f: Forward, g: Forward) {
    |g.devices| == |f.devices| && forall j :: 0 <= j < |f.devices| ==> Meta(g.devices[j]) == Meta(f.devices[j])
  }

  /** A pending end names a slot's grab, or one the slot has left behind. */
  predicate EndOk(s: State, next: nat) {
    && next in s.kinds
    && match SlotOf(s.m.fwd, next)
       case None => true
       case Some(i) =>
         var d := s.m.fwd.devices[i];
         d.Live() && d.targetA < next ==>
           s.kinds[next] == Kind(d.keyboard, d.clone) && (!d.closing ==> next <= d.targetE)
  }

  predicate PendingOk(s: State, a: Action) {
    match a
    case SourceState(p) => PacketAllowed(s, p)
    case Replay(p) => PacketAllowed(s, p)
    case EndOf(next) => EndOk(s, next)
    case _ => true
  }

  ghost predicate Inv(s: State) {
    && MachineInv(s.m) && DevicesOk(s.m.fwd, s.kinds) && TableOk(s.m.enqueued)
    && forall k :: 0 <= k < |s.queue| ==> PendingOk(s, s.queue[k])
  }

  /** New key sets a live source may take on. */
  predicate Acceptable(d: Device, view: View, k: Keys) {
    k == d.At(view) || (d.Live() && KeysOk(k) && (view.Enqueued? && d.closing ==> k == NO_KEYS))
  }

  lemma BecameOk(d: Device, e: Device, i: nat, serial: nat, kinds: map<nat, Kind>, view: View, k: Keys)
    requires DeviceOk(d, i, serial, kinds) && Became(d, e, view, k) && Acceptable(d, view, k)
    ensures DeviceOk(e, i, serial, kinds)
  {}

  lemma AllBecameOk(f: Forward, g: Forward, kinds: map<nat, Kind>, view: View)
    requires DevicesOk(f, kinds) && g.serial == f.serial && |g.devices| == |f.devices|
    requires forall j :: 0 <= j < |f.devices| ==> Became(f.devices[j], g.devices[j], view, g.devices[j].At(view))
    requires forall j :: 0 <= j < |f.devices| ==> Acceptable(f.devices[j], view, g.devices[j].At(view))
    ensures DevicesOk(g, kinds) && SameMeta(f, g)
  {
    forall j | 0 <= j < SLOTS
      ensures DeviceOk(g.devices[j], j, g.serial, kinds)
    {
      BecameOk(f.devices[j], g.devices[j], j, f.serial, kinds, view, g.devices[j].At(view));
    }
  }

  lemma OneBecameOk(f: Forward, g: Forward, kinds: map<nat, Kind>, i: nat, view: View, k: Keys)
    requires DevicesOk(f, kinds) && g.serial == f.serial && i < |f.devices|
    requires BecameAt(f, g, i, view, k) && Acceptable(f.devices[i], view, k)
    ensures DevicesOk(g, kinds) && SameMeta(f, g)
  {
    BecameOk(f.devices[i], g.devices[i], i, f.serial, kinds, view, k);
  }

  lemma ShiftKeyOk(f: Forward, kinds: map<nat, Kind>, code: nat, view: View, restore: bool)
    requires DevicesOk(f, kinds)
    ensures DevicesOk(ShiftKey(f, code, view, restore), kinds) && SameMeta(f, ShiftKey(f, code, view, restore))
  {
    hide ShiftKey;
    ShiftKeyAt(f, code, view, restore);
    AllBecameOk(f, ShiftKey(f, code, view, restore), kinds, view);
  }

  lemma ApplyKeyOk(f: Forward, kinds: map<nat, Kind>, t: Table, view: View, code: nat, down: bool, restore: bool,
                   o: Owner)
    requires DevicesOk(f, kinds)
    ensures var k := ApplyKey(f, t, view, code, down, restore, o);
            DevicesOk(k.fwd, kinds) && Quiet(f, k.fwd) && SameMeta(f, k.fwd)
  {
    hide ShiftKey;
    ShiftKeyOk(f, kinds, code, view, down);
  }

  // ---------------------------------------------------------------- synthesis

  /** What a batch may change besides the claims of its view. */
  predicate BatchFrame(m: Machine, g: Machine) {
    && SameMeta(m.fwd, g.fwd)
    && g.fwd.serial == m.fwd.serial && g.fwd.epoch == m.fwd.epoch && g.fwd.sink.attached == m.fwd.sink.attached
    && g.vkTable == m.vkTable && g.enqueued == m.enqueued
    && g.appliedEpoch == m.appliedEpoch && g.enqueuedEpoch == m.enqueuedEpoch
  }

  lemma RouteButtonOk(m: Machine, kinds: map<nat, Kind>, button: nat, down: bool, moved: bool, o: Owner)
    requires DevicesOk(m.fwd, kinds)
    ensures var g := RouteButton(m, button, down, moved, o).m; DevicesOk(g.fwd, kinds) && BatchFrame(m, g)
  {
    hide ApplyKey, DevicesOk, UpdateGeneric;
    ApplyKeyOk(m.fwd, kinds, m.applied, Applied, button, down, !moved, o);
    var k := ApplyKey(m.fwd, m.applied, Applied, button, down, !moved, o);
    SameDevicesOk(k.fwd, RouteButton(m, button, down, moved, o).m.fwd, kinds);
  }

  lemma {:induction false} RouteButtonsOk(m: Machine, kinds: map<nat, Kind>, ts: seq<Transition>, moved: bool, o: Owner)
    requires DevicesOk(m.fwd, kinds)
    ensures var g := RouteButtons(m, ts, moved, o).m; DevicesOk(g.fwd, kinds) && BatchFrame(m, g)
    decreases |ts|
  {
    hide RouteButton, DevicesOk;
    if ts != [] && ts[0].button.Some? {
      var b := ts[0].button.value;
      RouteButtonOk(m, kinds, b, ts[0].down, moved, o);
      RouteButtonsOk(RouteButton(m, b, ts[0].down, moved, o).m, kinds, ts[1..], moved, o);
    }
  }

  lemma SameDevicesOk(f: Forward, g: Forward, kinds: map<nat, Kind>)
    requires DevicesOk(f, kinds) && g.devices == f.devices && g.serial == f.serial
    ensures DevicesOk(g, kinds)
  {}

  lemma SendMouseOk(m: Machine, kinds: map<nat, Kind>, i: Input, moved: bool, o: Owner)
    requires DevicesOk(m.fwd, kinds) && i.Mouse?
    ensures var g := SendMouse(m, i, moved, o).m; DevicesOk(g.fwd, kinds) && BatchFrame(m, g)
  {
    hide DevicesOk, Motion, VerticalWheel, SidewaysWheel, RouteButtons, Transitions;
    var a := Motion(m, i).m;
    var b := VerticalWheel(a, i).m;
    var c := SidewaysWheel(b, i).m;
    SameDevicesOk(m.fwd, a.fwd, kinds);
    SameDevicesOk(m.fwd, b.fwd, kinds);
    SameDevicesOk(m.fwd, c.fwd, kinds);
    RouteButtonsOk(c, kinds, Transitions(i), moved || MovesAbsolutely(i), o);
  }

  lemma SendKeyboardOk(m: Machine, kinds: map<nat, Kind>, i: Input, o: Owner)
    requires DevicesOk(m.fwd, kinds) && i.Keyboard?
    ensures var g := SendKeyboard(m, i, o); DevicesOk(g.fwd, kinds) && BatchFrame(m, g)
  {
    hide DevicesOk, ApplyKey, UpdateGeneric, SendUnit, Repress;
    if Unicode in i.keyFlags {
      SameDevicesOk(m.fwd, SendUnit(m, i.scan).fwd, kinds);
    } else if Resolve(m.vkTable, i).Some? {
      var code, down := CanonicalButton(Resolve(m.vkTable, i).value), Up !in i.keyFlags;
      var g := if down && !Holds(m.applied, o, code) then m.(fwd := Repress(m.fwd, code)) else m;
      SameDevicesOk(m.fwd, g.fwd, kinds);
      ApplyKeyOk(g.fwd, kinds, g.applied, Applied, code, down, true, o);
      var k := ApplyKey(g.fwd, g.applied, Applied, code, down, true, o);
      SameDevicesOk(k.fwd, SendKeyboard(m, i, o).fwd, kinds);
    }
  }

  lemma {:induction false} SendInputsOk(m: Machine, kinds: map<nat, Kind>, inputs: seq<Input>, dead: bool, moved: bool,
                                        o: Owner)
    requires DevicesOk(m.fwd, kinds)
    ensures var g := SendInputs(m, inputs, dead, moved, o); DevicesOk(g.fwd, kinds) && BatchFrame(m, g)
    decreases |inputs|
  {
    hide DevicesOk, SendKeyboard, SendMouse, Played;
    if inputs != [] {
      match Played(inputs[0], dead)
      case None => SendInputsOk(m, kinds, inputs[1..], dead, moved, o);
      case Some(i) =>
        if i.Keyboard? {
          SendKeyboardOk(m, kinds, i, o);
        } else {
          SendMouseOk(m, kinds, i, moved, o);
        }
        SendInputsOk(SendOne(m, i, moved, o), kinds, inputs[1..], dead, moved || MovesAbsolutely(i), o);
    }
  }

  lemma SendBatchOk(m: Machine, kinds: map<nat, Kind>, inputs: seq<Input>, continues: bool, o: Owner)
    requires DevicesOk(m.fwd, kinds)
    ensures var g := SendBatch(m, inputs, continues, o); DevicesOk(g.fwd, kinds) && BatchFrame(m, g)
  {
    if m.fwd.sink.attached {
      SendInputsOk(if continues then m else m.(pendingHigh := 0), kinds, inputs, IsDead(m.fwd, o, Applied), false, o);
    }
  }

  // ---------------------------------------------------------------- admission

  lemma FwdSwap(m: Machine, g: Forward)
    requires MachineInv(m) && SinkInv(g) && g.sink.synth == m.fwd.sink.synth
    ensures MachineInv(m.(fwd := g))
  {
    hide SinkInv;
  }

  /** What admission keeps of the sources and the sink. */
  ghost predicate AdmitKeeps(f: Forward, g: Forward, kinds: map<nat, Kind>) {
    SinkInv(g) && DevicesOk(g, kinds) && Quiet(f, g) && SameMeta(f, g)
  }

  lemma NoteKeyKeeps(f: Forward, kinds: map<nat, Kind>, t: Table, code: nat, down: bool, restore: bool, o: Owner)
    requires SinkInv(f) && DevicesOk(f, kinds) && TableOk(t) && code <= KEY_MAX
    ensures var k := ApplyKey(f, t, Enqueued, code, down, restore, o); AdmitKeeps(f, k.fwd, kinds) && TableOk(k.table)
  {
    hide SinkInv, DevicesOk, ApplyKey;
    ApplyKeyHeld(f, t, Enqueued, code, down, restore, o);
    ApplyKeyOk(f, kinds, t, Enqueued, code, down, restore, o);
  }

  lemma {:induction false} NoteButtonsKeeps(f: Forward, kinds: map<nat, Kind>, t: Table, ts: seq<Transition>,
                                            moved: bool, o: Owner)
    requires SinkInv(f) && DevicesOk(f, kinds) && TableOk(t) && forall x :: x in ts ==> IsMouseButton(x)
    ensures var k := NoteButtons(f, t, ts, moved, o); AdmitKeeps(f, k.fwd, kinds) && TableOk(k.table)
    decreases |ts|
  {
    hide SinkInv, DevicesOk, ApplyKey;
    if ts != [] {
      assert ts[0] in ts && forall x :: x in ts[1..] ==> x in ts;
      if ts[0].button.None? {
        NoteButtonsKeeps(f, kinds, t, ts[1..], moved, o);
      } else {
        NoteKeyKeeps(f, kinds, t, ts[0].button.value, ts[0].down, !moved, o);
        var k := ApplyKey(f, t, Enqueued, ts[0].button.value, ts[0].down, !moved, o);
        NoteButtonsKeeps(k.fwd, kinds, k.table, ts[1..], moved, o);
      }
    }
  }

  lemma NoteInputKeeps(vkTable: map<nat, nat>, f: Forward, kinds: map<nat, Kind>, t: Table, i: Input, moved: bool,
                       o: Owner)
    requires SinkInv(f) && DevicesOk(f, kinds) && TableOk(t)
    ensures var k := NoteInput(vkTable, f, t, i, moved, o); AdmitKeeps(f, k.fwd, kinds) && TableOk(k.table)
  {
    hide SinkInv, DevicesOk, ApplyKey, NoteButtons, Transitions;
    if i.Mouse? {
      NoteButtonsKeeps(f, kinds, t, Transitions(i), moved || MovesAbsolutely(i), o);
    } else if Resolve(vkTable, i).Some? && Resolve(vkTable, i).value <= KEY_MAX {
      NoteKeyKeeps(f, kinds, t, CanonicalButton(Resolve(vkTable, i).value), Up !in i.keyFlags, true, o);
    }
  }

  lemma {:induction false} NoteInputsKeeps(vkTable: map<nat, nat>, f: Forward, kinds: map<nat, Kind>, t: Table,
                                           inputs: seq<Input>, dead: bool, moved: bool, o: Owner)
    requires SinkInv(f) && DevicesOk(f, kinds) && TableOk(t)
    ensures var k := NoteInputs(vkTable, f, t, inputs, dead, moved, o); AdmitKeeps(f, k.fwd, kinds) && TableOk(k.table)
    decreases |inputs|
  {
    hide SinkInv, DevicesOk, NoteInput, Played;
    if inputs != [] {
      match Played(inputs[0], dead)
      case None => NoteInputsKeeps(vkTable, f, kinds, t, inputs[1..], dead, moved, o);
      case Some(i) =>
        NoteInputKeeps(vkTable, f, kinds, t, i, moved, o);
        var k := NoteInput(vkTable, f, t, i, moved, o);
        NoteInputsKeeps(vkTable, k.fwd, kinds, k.table, inputs[1..], dead, moved || MovesAbsolutely(i), o);
    }
  }

  lemma NoteKeysKeeps(f: Forward, kinds: map<nat, Kind>, p: Packet, view: View, source: bool)
    requires SinkInv(f) && DevicesOk(f, kinds) && PacketOk(p) && (view.Applied? ==> source)
    ensures AdmitKeeps(f, NoteKeys(f, p, view, source), kinds)
  {
    NoteKeysAt(f, p, view, source);
    match Find(f, p.target, view)
    case None =>
    case Some(i) =>
      var g := NoteKeys(f, p, view, source);
      var d := g.devices[i];
      assert DeviceOk(f.devices[i], i, f.serial, kinds);
      OneBecameOk(f, g, kinds, i, view, d.At(view));
      SetDeviceKeeps(f, i, d);
      assert SetDevice(f, i, d).devices == g.devices;
  }

  lemma ReleaseAllOk(f: Forward, kinds: map<nat, Kind>, view: View)
    requires SinkInv(f) && DevicesOk(f, kinds)
    ensures AdmitKeeps(f, ReleaseAllFrom(f, 0, view), kinds)
  {
    forall j | 0 <= j < |f.devices|
      ensures KeysOk(f.devices[j].At(view))
    {
      assert DeviceOk(f.devices[j], j, f.serial, kinds);
    }
    hide SinkInv, ReleaseAllFrom;
    ReleaseAllAt(f, 0, view);
    ReleaseAllKeeps(f, 0, view);
    var g := ReleaseAllFrom(f, 0, view);
    forall j | 0 <= j < |f.devices|
      ensures Became(f.devices[j], g.devices[j], view, g.devices[j].At(view))
              && Acceptable(f.devices[j], view, g.devices[j].At(view))
    {
      assert DeviceOk(f.devices[j], j, f.serial, kinds);
    }
    AllBecameOk(f, g, kinds, view);
  }

  /** Admission touches the sources and the ENQUEUED claims only. */
  lemma AdmitForward(s: State, a: Action)
    requires SinkInv(s.m.fwd) && DevicesOk(s.m.fwd, s.kinds) && TableOk(s.m.enqueued) && ActionAllowed(s, a)
    ensures var g := AdmitAction(s.m, a);
            && AdmitKeeps(s.m.fwd, g.fwd, s.kinds) && TableOk(g.enqueued)
            && g == s.m.(fwd := g.fwd, enqueued := g.enqueued, enqueuedEpoch := g.enqueuedEpoch)
  {
    hide SinkInv, DevicesOk, NoteInputs, NoteKeys, ReleaseAllFrom, ReleaseByPacket;
    var m := s.m;
    match a
    case SourceState(p) => NoteKeysKeeps(m.fwd, s.kinds, p, Enqueued, true);
    case Replay(p) =>
      NoteKeysKeeps(m.fwd, s.kinds, p, Enqueued, false);
      ReleaseByPacketShrinks(m.enqueued, p, |p.events|);
    case Synth(inputs, _, owner) =>
      var w := SweepEnqueued(m);
      NoteInputsKeeps(w.vkTable, w.fwd, s.kinds, w.enqueued, inputs, IsDead(w.fwd, owner, Enqueued), false, owner);
    case ReleaseAll => ReleaseAllOk(m.fwd, s.kinds, Enqueued);
    case _ =>
  }

  lemma AdmitKept(s: State, a: Action)
    requires Inv(s) && ActionAllowed(s, a)
    ensures Inv(s.(m := AdmitAction(s.m, a), queue := s.queue + [a]))
  {
    hide SinkInv, DevicesOk, AdmitAction, SameMeta;
    AdmitForward(s, a);
    var g := AdmitAction(s.m, a);
    FwdSwap(s.m, g.fwd);
    var t := s.(m := g, queue := s.queue + [a]);
    SameMetaSucceeds(s, t);
    QueueKept(s, t, [a]);
  }

  /** How a slot may move on: the same source with later targets, or a new one. */
  predicate Succeeds(d: Device, e: Device, serial: nat) {
    e.Live() ==>
      || (d.Live() && e.keyboard == d.keyboard && e.clone == d.clone && d.targetA <= e.targetA
          && (e.closing || (!d.closing && d.targetE <= e.targetE)))
      || serial <= e.targetA / 256
  }

  predicate SlotsSucceed(s: State, t: State) {
    && |t.m.fwd.devices| == |s.m.fwd.devices|
    && (forall j :: 0 <= j < |s.m.fwd.devices| ==> Succeeds(s.m.fwd.devices[j], t.m.fwd.devices[j], s.m.fwd.serial))
    && (forall x :: x in s.kinds ==> x in t.kinds && t.kinds[x] == s.kinds[x])
  }

  lemma SameMetaSucceeds(s: State, t: State)
    requires SameMeta(s.m.fwd, t.m.fwd) && t.kinds == s.kinds
    ensures SlotsSucceed(s, t)
  {
    forall j | 0 <= j < |s.m.fwd.devices|
      ensures Succeeds(s.m.fwd.devices[j], t.m.fwd.devices[j], s.m.fwd.serial)
    {
      assert Meta(t.m.fwd.devices[j]) == Meta(s.m.fwd.devices[j]);
    }
  }

  lemma PendingSucceeds(s: State, t: State, a: Action)
    requires PendingOk(s, a) && SlotsSucceed(s, t) && DevicesOk(s.m.fwd, s.kinds)
    ensures PendingOk(t, a)
  {
    if a.EndOf? && SlotOf(s.m.fwd, a.next).Some? {
      var i := SlotOf(s.m.fwd, a.next).value;
      assert Succeeds(s.m.fwd.devices[i], t.m.fwd.devices[i], s.m.fwd.serial);
    }
  }

  /** The queue stays in order while slots move on. */
  lemma QueueKept(s: State, t: State, tail: seq<Action>)
    requires Inv(s) && SlotsSucceed(s, t)
    requires MachineInv(t.m) && DevicesOk(t.m.fwd, t.kinds) && TableOk(t.m.enqueued)
    requires (t.queue == s.queue + tail && forall a :: a in tail ==> PendingOk(t, a))
             || (s.queue != [] && t.queue == s.queue[1..])
    ensures Inv(t)
  {
    hide MachineInv, PendingOk, SlotsSucceed;
    forall k | 0 <= k < |t.queue|
      ensures PendingOk(t, t.queue[k])
    {
      if t.queue == s.queue + tail {
        if k < |s.queue| {
          PendingSucceeds(s, t, s.queue[k]);
        } else {
          assert t.queue[k] in tail;
        }
      } else {
        PendingSucceeds(s, t, s.queue[k + 1]);
      }
    }
  }

  // ---------------------------------------------------------------- the sequencer

  lemma WriteOk(s: State, p: Packet)
    requires SinkInv(s.m.fwd) && DevicesOk(s.m.fwd, s.kinds) && PacketAllowed(s, p)
    ensures AdmitKeeps(s.m.fwd, Write(s.m.fwd, p), s.kinds)
  {
    var f := s.m.fwd;
    var found := Find(f, p.target, Applied);
    if found.Some? {
      assert DeviceOk(f.devices[found.value], found.value, f.serial, s.kinds);
    }
    hide SinkInv, Write, KeysOk;
    WriteKeeps(f, p);
    WriteAt(f, p);
    if found.Some? {
      var i := found.value;
      OneBecameOk(f, Write(f, p), s.kinds, i, Applied, Write(f, p).devices[i].applied);
    }
  }

  lemma EndGrabDevice(f: Forward, kinds: map<nat, Kind>, i: nat, view: View, keep: set<nat>, next: nat)
    requires DevicesOk(f, kinds) && i < |f.devices| && f.devices[i].Live()
    requires DeviceOk(f.devices[i].Aim(view, next), i, f.serial, kinds)
    ensures var g := EndGrabAt(f, i, view, keep, next);
            DeviceOk(g.devices[i], i, f.serial, kinds) && OnlySlot(f, g, i)
              && Meta(g.devices[i]) == Meta(f.devices[i].Aim(view, next))
  {
    hide EndGrabAt;
    EndGrabAtAt(f, i, view, keep, next);
  }

  lemma ApplyEndGrabOk(s: State, next: nat, held: Option<set<nat>>)
    requires SinkInv(s.m.fwd) && DevicesOk(s.m.fwd, s.kinds) && EndOk(s, next)
    ensures var g := ApplyEndGrab(s.m.fwd, next, held); SinkInv(g) && DevicesOk(g, s.kinds)
  {
    var f := s.m.fwd;
    var slot := SlotOf(f, next);
    if slot.Some? && f.devices[slot.value].Live() && f.devices[slot.value].targetA < next {
      var i := slot.value;
      var d := f.devices[i];
      var keep := if held.Some? then held.value else d.applied.source;
      assert DeviceOk(d, i, f.serial, s.kinds);
      assert DeviceOk(d.Aim(Applied, next), i, f.serial, s.kinds);
      hide SinkInv, EndGrabAt, DeviceOk;
      EndGrabAtKeeps(f, i, Applied, keep, next);
      EndGrabDevice(f, s.kinds, i, Applied, keep, next);
    }
  }

  lemma CloseDevice(f: Forward, kinds: map<nat, Kind>, i: nat)
    requires SinkInv(f) && DevicesOk(f, kinds) && i < |f.devices| && f.devices[i].closing && f.devices[i].Live()
    ensures var g := ReleaseOutputs(f, i, Applied, {});
            && SinkInv(g) && DevicesOk(g, kinds) && OnlySlot(f, g, i) && Quiet(f, g)
            && g.devices[i].applied.output == {} && Meta(g.devices[i]) == Meta(f.devices[i])
  {
    assert DeviceOk(f.devices[i], i, f.serial, kinds);
    hide SinkInv, ReleaseOutputs;
    ReleaseOutputsAt(f, i, Applied, {});
    ReleaseOutputsKeeps(f, i, Applied, {});
    var k := f.devices[i].applied;
    OneBecameOk(f, ReleaseOutputs(f, i, Applied, {}), kinds, i, Applied,
      Keys(k.output * {}, k.source, k.displaced * {}));
  }

  function Retired(d: Device): Device {
    if d.clone then d.(applied := NO_KEYS, enqueued := NO_KEYS, retiring := true) else FREE
  }

  /** A source that holds nothing leaves the sink alone when it goes. */
  lemma RetireDevice(g: Forward, kinds: map<nat, Kind>, i: nat)
    requires SinkInv(g) && DevicesOk(g, kinds) && i < |g.devices| && g.devices[i].closing && g.devices[i].Live()
    requires g.devices[i].applied.output == {}
    ensures var h := SetDevice(g, i, Retired(g.devices[i])).(epoch := g.epoch + 1); SinkInv(h) && DevicesOk(h, kinds)
  {
    var h := SetDevice(g, i, Retired(g.devices[i]));
    assert DeviceOk(g.devices[i], i, g.serial, kinds);
    assert DeviceOk(Retired(g.devices[i]), i, g.serial, kinds);
    SetDeviceKeeps(g, i, Retired(g.devices[i]));
    assert DevicesOk(h, kinds);
    hide DevicesOk;
    assert forall c :: Wanted(h.(epoch := g.epoch + 1), c) <==> Wanted(h, c);
  }

  lemma ApplyCloseOk(f: Forward, kinds: map<nat, Kind>, target: nat)
    requires SinkInv(f) && DevicesOk(f, kinds)
    ensures SinkInv(ApplyClose(f, target)) && DevicesOk(ApplyClose(f, target), kinds)
  {
    var slot := SlotOf(f, target);
    hide ReleaseOutputs, SinkInv, DevicesOk;
    if slot.Some? && f.devices[slot.value].closing && f.devices[slot.value].Live() {
      CloseDevice(f, kinds, slot.value);
      RetireDevice(ReleaseOutputs(f, slot.value, Applied, {}), kinds, slot.value);
    }
  }

  lemma WriteMachine(s: State, a: Action)
    requires MachineInv(s.m) && DevicesOk(s.m.fwd, s.kinds) && TableOk(s.m.enqueued) && PendingOk(s, a)
    ensures var g := WriteAction(s.m, a);
            && MachineInv(g) && DevicesOk(g.fwd, s.kinds) && g.enqueued == s.m.enqueued
            && g.fwd.serial == s.m.fwd.serial
            && (a.EndOf? || a.CloseOf? || SameMeta(s.m.fwd, g.fwd))
  {
    hide SinkInv, DevicesOk, NoteKeys, Write, SetApplied, SendBatch, ReleaseGeneric, Recreate, ReleaseAllFrom,
         ReleaseByPacket, ApplyClose, ApplyEndGrab;
    var m := s.m;
    match a
    case SourceState(p) =>
      NoteKeysKeeps(m.fwd, s.kinds, p, Applied, true);
      FwdSwap(m, NoteKeys(m.fwd, p, Applied, true));
    case Replay(p) =>
      WriteOk(s, p);
      FwdSwap(m, Write(m.fwd, p));
      ReleaseByPacketShrinks(m.applied, p, |p.events|);
      SetAppliedKeeps(m.(fwd := Write(m.fwd, p)), ReleaseByPacket(m.applied, p, |p.events|));
      SameDevicesOk(Write(m.fwd, p), WriteAction(m, a).fwd, s.kinds);
    case Synth(inputs, continues, owner) =>
      SendBatchKeeps(m, inputs, continues, owner);
      SendBatchOk(m, s.kinds, inputs, continues, owner);
    case ReleaseOwner(filter) =>
      DropMatchingHeld(m.applied, filter);
      SetAppliedKeeps(m, DropMatching(m.applied, filter));
      SameDevicesOk(m.fwd, WriteAction(m, a).fwd, s.kinds);
    case ReleaseAll =>
      ReleaseGenericKeeps(m);
      var g := ReleaseGeneric(m);
      SameDevicesOk(m.fwd, g.fwd, s.kinds);
      ReleaseAllOk(g.fwd, s.kinds, Applied);
      FwdSwap(g, ReleaseAllFrom(g.fwd, 0, Applied));
    case ReleaseSynth =>
      ReleaseGenericKeeps(m);
      SameDevicesOk(m.fwd, ReleaseGeneric(m).fwd, s.kinds);
    case RecreateSynth(devices) =>
      RecreateKeeps(m, devices);
      RecreateFrame(m, devices);
      SameDevicesOk(m.fwd, Recreate(m, devices).fwd, s.kinds);
    case EndOf(next) =>
      ApplyEndGrabOk(s, next, None);
      ReaderQuiet(m.fwd, next, None);
      FwdSwap(m, ApplyEndGrab(m.fwd, next, None));
    case CloseOf(target) =>
      ApplyCloseOk(m.fwd, s.kinds, target);
      ReaderQuiet(m.fwd, target, None);
      FwdSwap(m, ApplyClose(m.fwd, target));
  }

  lemma RecreateFrame(m: Machine, d: Devices)
    ensures var g := Recreate(m, d);
            g.fwd.devices == m.fwd.devices && g.fwd.serial == m.fwd.serial && g.enqueued == m.enqueued
  {}

  lemma ReaderQuiet(f: Forward, target: nat, held: Option<set<nat>>)
    ensures ApplyEndGrab(f, target, held).sink.synth == f.sink.synth && ApplyEndGrab(f, target, held).serial == f.serial
    ensures ApplyClose(f, target).sink.synth == f.sink.synth && ApplyClose(f, target).serial == f.serial
  {
    hide ReleaseOutputs;
  }

  // ---------------------------------------------------------------- the reader

  lemma ApplyEndGrabMeta(f: Forward, next: nat, held: Option<set<nat>>)
    requires forall j :: 0 <= j < |f.devices| ==> KeysOk(f.devices[j].applied)
    ensures var g := ApplyEndGrab(f, next, held);
            && |g.devices| == |f.devices|
            && forall j :: 0 <= j < |f.devices| ==>
                 && Meta(g.devices[j]) == Meta(f.devices[j].(targetA := g.devices[j].targetA))
                 && f.devices[j].targetA <= g.devices[j].targetA
  {
    var slot := SlotOf(f, next);
    if slot.Some? {
      var d := f.devices[slot.value];
      hide EndGrabAt;
      EndGrabAtAt(f, slot.value, Applied, if held.Some? then held.value else d.applied.source, next);
    }
  }

  lemma ApplyCloseMeta(f: Forward, target: nat)
    requires forall j :: 0 <= j < |f.devices| ==> KeysOk(f.devices[j].applied)
    ensures var g := ApplyClose(f, target);
            && |g.devices| == |f.devices|
            && forall j :: 0 <= j < |f.devices| ==> Meta(g.devices[j]) == Meta(f.devices[j]) || !g.devices[j].Live()
  {
    var slot := SlotOf(f, target);
    if slot.Some? {
      hide ReleaseOutputs;
      ReleaseOutputsAt(f, slot.value, Applied, {});
    }
  }

  lemma KeysFit(f: Forward, kinds: map<nat, Kind>)
    requires DevicesOk(f, kinds)
    ensures forall j :: 0 <= j < |f.devices| ==> KeysOk(f.devices[j].applied) && KeysOk(f.devices[j].enqueued)
  {
    forall j | 0 <= j < |f.devices|
      ensures KeysOk(f.devices[j].applied) && KeysOk(f.devices[j].enqueued)
    {
      assert DeviceOk(f.devices[j], j, f.serial, kinds);
    }
  }

  lemma WriteSucceeds(s: State, t: State, a: Action)
    requires DevicesOk(s.m.fwd, s.kinds) && t.m.fwd.devices == WriteAction(s.m, a).fwd.devices && t.kinds == s.kinds
    requires a.EndOf? || a.CloseOf? || SameMeta(s.m.fwd, WriteAction(s.m, a).fwd)
    ensures SlotsSucceed(s, t)
  {
    KeysFit(s.m.fwd, s.kinds);
    if a.EndOf? {
      assert t.m.fwd.devices == ApplyEndGrab(s.m.fwd, a.next, None).devices;
      hide ApplyEndGrab, WriteAction, DevicesOk, SlotsSucceed;
      ApplyEndGrabMeta(s.m.fwd, a.next, None);
      MetaSucceeds(s, t);
    } else if a.CloseOf? {
      assert t.m.fwd.devices == ApplyClose(s.m.fwd, a.target).devices;
      hide ApplyClose, WriteAction, DevicesOk, SlotsSucceed;
      ApplyCloseMeta(s.m.fwd, a.target);
      MetaSucceeds(s, t);
    } else {
      hide WriteAction;
      SameMetaSucceeds(s, t);
    }
  }

  lemma MetaSucceeds(s: State, t: State)
    requires t.kinds == s.kinds && |t.m.fwd.devices| == |s.m.fwd.devices|
    requires forall j :: 0 <= j < |s.m.fwd.devices| ==>
               var d, e := s.m.fwd.devices[j], t.m.fwd.devices[j];
               (Meta(e) == Meta(d.(targetA := e.targetA)) && d.targetA <= e.targetA) || !e.Live()
    ensures SlotsSucceed(s, t)
  {
    forall j | 0 <= j < |s.m.fwd.devices|
      ensures Succeeds(s.m.fwd.devices[j], t.m.fwd.devices[j], s.m.fwd.serial)
    {
      var d, e := s.m.fwd.devices[j], t.m.fwd.devices[j];
      if e.Live() {
        assert Meta(e) == Meta(d.(targetA := e.targetA));
        assert Meta(e).open == d.open && Meta(e).retiring == d.retiring && Meta(e).closing == d.closing
               && Meta(e).targetE == d.targetE
               && Meta(e).keyboard == d.keyboard && Meta(e).clone == d.clone;
      }
    }
  }

  lemma ApplyNextKept(s: State)
    requires Inv(s) && s.queue != []
    ensures Inv(Next(s, ApplyNext))
  {
    var a, t := s.queue[0], Next(s, ApplyNext);
    var g := WriteAction(s.m, a);
    assert PendingOk(s, a);
    hide MachineInv, DevicesOk, PendingOk, WriteAction, SameMeta, SlotsSucceed;
    WriteMachine(s, a);
    MaintainKeeps(g);
    SameDevicesOk(g.fwd, t.m.fwd, s.kinds);
    WriteSucceeds(s, t, a);
    QueueKept(s, t, []);
  }

  lemma OpenKept(s: State, keyboard: bool, clone: bool, budget: Budget)
    requires Inv(s)
    ensures Inv(Opening(s, keyboard, clone, budget))
  {
    var f, t := s.m.fwd, Opening(s, keyboard, clone, budget);
    var i := FirstFree(f.devices, 0);
    if i < |f.devices| {
      var d := Opened(MakeTarget(f.serial, i), keyboard, clone, budget);
      assert DeviceOk(f.devices[i], i, f.serial, s.kinds);
      assert MachineInv(t.m) by {
        SetDeviceKeeps(f, i, d);
        SerialFree(SetDevice(f, i, d), f.serial + 1);
        FwdSwap(s.m, t.m.fwd);
      }
      hide MachineInv;
      assert t.kinds == s.kinds[MakeTarget(f.serial, i) := Kind(keyboard, clone)];
      FreshTarget(s, t, MakeTarget(f.serial, i));
      assert DeviceOk(d, i, f.serial + 1, t.kinds);
      QueueKept(s, t, []);
    } else {
      assert t == s;
    }
  }

  lemma SerialFree(f: Forward, serial: nat)
    requires SinkInv(f)
    ensures SinkInv(f.(serial := serial))
  {
    assert forall c :: Wanted(f.(serial := serial), c) <==> Wanted(f, c);
  }

  /** Issuing a fresh target disturbs no source that keeps its slot. */
  lemma FreshTarget(s: State, t: State, target: nat)
    requires DevicesOk(s.m.fwd, s.kinds) && s.m.fwd.serial <= target / 256
    requires t.m.fwd.serial == s.m.fwd.serial + 1 && target in t.kinds && t.kinds == s.kinds[target := t.kinds[target]]
    ensures target !in s.kinds
    ensures forall d, i :: DeviceOk(d, i, s.m.fwd.serial, s.kinds) ==> DeviceOk(d, i, t.m.fwd.serial, t.kinds)
  {
    forall d, i | DeviceOk(d, i, s.m.fwd.serial, s.kinds)
      ensures DeviceOk(d, i, t.m.fwd.serial, t.kinds)
    {
      if d.open {
        assert d.targetA != target && d.targetE != target;
      }
    }
  }

  lemma TargetParts(serial: nat, i: nat)
    requires i < SLOTS
    ensures MakeTarget(serial, i) % 256 == i + 1 && MakeTarget(serial, i) / 256 == serial
  {}

  /** Admission's end of a grab, on the slot it ends. */
  lemma EndGrabSlot(s: State, target: nat)
    requires DevicesOk(s.m.fwd, s.kinds) && Find(s.m.fwd, target, Enqueued).Some?
    ensures var f, t, i := s.m.fwd, Ending(s, target, true), Find(s.m.fwd, target, Enqueued).value;
            var e := t.m.fwd.devices[i];
            && OnlySlot(f, t.m.fwd, i) && t.m.fwd.serial == f.serial + 1 && f.devices[i].Live() && !f.devices[i].closing
            && Became(f.devices[i].(targetE := MakeTarget(f.serial, i)), e, Enqueued, e.enqueued) && KeysOk(e.enqueued)
  {
    var f := s.m.fwd;
    var i := Find(f, target, Enqueued).value;
    assert DeviceOk(f.devices[i], i, f.serial, s.kinds);
    hide EndGrabAt, MakeTarget;
    EndGrabAtAt(f, i, Enqueued, f.devices[i].enqueued.source, MakeTarget(f.serial, i));
  }

  lemma EndGrabDeviceOk(s: State, target: nat)
    requires DevicesOk(s.m.fwd, s.kinds) && Find(s.m.fwd, target, Enqueued).Some?
    ensures var f, t, i := s.m.fwd, Ending(s, target, true), Find(s.m.fwd, target, Enqueued).value;
            && OnlySlot(f, t.m.fwd, i) && t.m.fwd.serial == f.serial + 1
            && DeviceOk(t.m.fwd.devices[i], i, f.serial + 1, t.kinds)
            && Succeeds(f.devices[i], t.m.fwd.devices[i], f.serial)
            && t.m.fwd.devices[i].targetE == MakeTarget(f.serial, i)
  {
    var f, t := s.m.fwd, Ending(s, target, true);
    var i := Find(f, target, Enqueued).value;
    assert DeviceOk(f.devices[i], i, f.serial, s.kinds);
    EndGrabSlot(s, target);
    TargetParts(f.serial, i);
    FreshTarget(s, t, MakeTarget(f.serial, i));
    hide EndGrab, MakeTarget, KeysOk, DevicesOk;
    assert DeviceOk(f.devices[i], i, f.serial + 1, t.kinds);
  }

  /** Admission's end of a grab, on the devices alone. */
  lemma EndGrabDevices(s: State, target: nat)
    requires DevicesOk(s.m.fwd, s.kinds) && Find(s.m.fwd, target, Enqueued).Some?
    ensures var t := Ending(s, target, true);
            && DevicesOk(t.m.fwd, t.kinds) && SlotsSucceed(s, t)
            && EndOk(t, MakeTarget(s.m.fwd.serial, Find(s.m.fwd, target, Enqueued).value))
  {
    var f, t := s.m.fwd, Ending(s, target, true);
    var i := Find(f, target, Enqueued).value;
    var next := MakeTarget(f.serial, i);
    EndGrabDeviceOk(s, target);
    TargetParts(f.serial, i);
    hide EndGrab, MakeTarget, KeysOk;
    FreshTarget(s, t, next);
    assert forall j :: 0 <= j < SLOTS ==> DeviceOk(f.devices[j], j, f.serial, s.kinds);
    hide DeviceOk;
    assert DevicesOk(t.m.fwd, t.kinds);
    EndIsOk(s, t, i, next);
  }

  lemma EndIsOk(s: State, t: State, i: nat, next: nat)
    requires i < |t.m.fwd.devices| && |t.m.fwd.devices| <= 255 && next % 256 == i + 1
             && DeviceOk(t.m.fwd.devices[i], i, t.m.fwd.serial, t.kinds)
    requires next in t.kinds
             && (t.m.fwd.devices[i].Live() ==> t.m.fwd.devices[i].closing || t.m.fwd.devices[i].targetE == next)
    requires t.kinds[next] == Kind(t.m.fwd.devices[i].keyboard, t.m.fwd.devices[i].clone)
    ensures EndOk(t, next)
  {}

  lemma EndGrabSink(s: State, target: nat)
    requires MachineInv(s.m) && Find(s.m.fwd, target, Enqueued).Some?
    ensures MachineInv(Ending(s, target, true).m)
  {
    hide SinkInv, EndGrabAt;
    var f := s.m.fwd;
    var i := Find(f, target, Enqueued).value;
    var keep, next := f.devices[i].enqueued.source, MakeTarget(f.serial, i);
    EndGrabAtKeeps(f, i, Enqueued, keep, next);
    var g := EndGrabAt(f, i, Enqueued, keep, next);
    EndGrabAtQuiet(f, i, Enqueued, keep, next);
    SerialFree(g, f.serial + 1);
    FwdSwap(s.m, g.(serial := f.serial + 1));
  }

  lemma EndGrabAtQuiet(f: Forward, i: nat, view: View, keep: set<nat>, next: nat)
    requires i < |f.devices|
    ensures var g := EndGrabAt(f, i, view, keep, next); g.sink.synth == f.sink.synth && g.serial == f.serial
  {
    hide ReleaseOutputs;
  }

  lemma EndGrabKept(s: State, target: nat)
    requires Inv(s) && Find(s.m.fwd, target, Enqueued).Some?
    ensures Inv(Ending(s, target, true))
  {
    hide MachineInv, DevicesOk, EndGrab, EndOk, SlotsSucceed;
    var t := Ending(s, target, true);
    EndGrabDevices(s, target);
    EndGrabSink(s, target);
    EndGrabTables(s, target);
    QueueKept(s, t, [EndOf(MakeTarget(s.m.fwd.serial, Find(s.m.fwd, target, Enqueued).value))]);
  }

  lemma EndGrabTables(s: State, target: nat)
    requires Find(s.m.fwd, target, Enqueued).Some?
    ensures Ending(s, target, true).m.enqueued == s.m.enqueued
  {}

  /** What was queued stays in order while slots move on. */
  lemma StillPending(s: State, t: State)
    requires t.queue <= s.queue && SlotsSucceed(s, t) && DevicesOk(s.m.fwd, s.kinds)
    requires forall k :: 0 <= k < |s.queue| ==> PendingOk(s, s.queue[k])
    ensures forall k :: 0 <= k < |t.queue| ==> PendingOk(t, t.queue[k])
  {
    hide SlotsSucceed, DevicesOk, PendingOk;
    forall k | 0 <= k < |t.queue|
      ensures PendingOk(t, t.queue[k])
    {
      assert t.queue[k] == s.queue[k];
      PendingSucceeds(s, t, s.queue[k]);
    }
  }

  /** Written output moves past an end that was not queued. */
  lemma EndAppliedKept(s: State, next: nat, held: Option<set<nat>>, queue: seq<Action>)
    requires Inv(s) && EndOk(s, next) && queue <= s.queue
    ensures Inv(State(s.m.(fwd := ApplyEndGrab(s.m.fwd, next, held)), queue, s.kinds))
  {
    var t := State(s.m.(fwd := ApplyEndGrab(s.m.fwd, next, held)), queue, s.kinds);
    hide SinkInv, DevicesOk, ApplyEndGrab, EndOk, PendingOk, SlotsSucceed;
    ApplyEndGrabOk(s, next, held);
    ReaderQuiet(s.m.fwd, next, held);
    FwdSwap(s.m, t.m.fwd);
    KeysFit(s.m.fwd, s.kinds);
    ApplyEndGrabMeta(s.m.fwd, next, held);
    MetaSucceeds(s, t);
    StillPending(s, t);
  }

  lemma EndNowKept(s: State, target: nat)
    requires Inv(s) && Find(s.m.fwd, target, Enqueued).Some?
    ensures Inv(Ending(s, target, false))
  {
    var i := Find(s.m.fwd, target, Enqueued).value;
    var next := MakeTarget(s.m.fwd.serial, i);
    EndGrabKept(s, target);
    EndGrabDevices(s, target);
    hide Inv, DevicesOk, EndGrab, ApplyEndGrab, EndOk, SlotsSucceed, MakeTarget, Find;
    EndAppliedKept(Ending(s, target, true), next, Some(s.m.fwd.devices[i].enqueued.source), s.queue);
  }

  lemma CloseKept(s: State, target: nat)
    requires Inv(s) && Find(s.m.fwd, target, Enqueued).Some?
    ensures Inv(Closing(s, target, true))
  {
    var f, t := s.m.fwd, Closing(s, target, true);
    var i := Find(f, target, Enqueued).value;
    assert DeviceOk(f.devices[i], i, f.serial, s.kinds);
    var e := f.devices[i].(enqueued := NO_KEYS, targetE := 0, closing := true);
    SetDeviceKeeps(f, i, e);
    assert MachineInv(t.m) by {
      EpochFree(SetDevice(f, i, e), f.epoch + 1);
      FwdSwap(s.m, t.m.fwd);
    }
    hide MachineInv;
    assert DeviceOk(e, i, f.serial, s.kinds);
    QueueKept(s, t, [CloseOf(target)]);
  }

  lemma EpochFree(f: Forward, epoch: nat)
    requires SinkInv(f)
    ensures SinkInv(f.(epoch := epoch))
  {
    assert forall c :: Wanted(f.(epoch := epoch), c) <==> Wanted(f, c);
  }

  /** The close that a full queue cannot order, from the state after its admission. */
  lemma CloseWritten(q: State, t: State, target: nat)
    requires Inv(q) && t.m == q.m.(fwd := ApplyClose(q.m.fwd, target)) && t.kinds == q.kinds
    requires |t.queue| <= |q.queue| && t.queue == q.queue[..|t.queue|]
    ensures Inv(t)
  {
    hide SinkInv, DevicesOk, ApplyClose, PendingOk, SlotsSucceed;
    ApplyCloseOk(q.m.fwd, q.kinds, target);
    ReaderQuiet(q.m.fwd, target, None);
    FwdSwap(q.m, t.m.fwd);
    KeysFit(q.m.fwd, q.kinds);
    ApplyCloseMeta(q.m.fwd, target);
    MetaSucceeds(q, t);
    forall k | 0 <= k < |t.queue|
      ensures PendingOk(t, t.queue[k])
    {
      PendingSucceeds(q, t, q.queue[k]);
    }
  }

  lemma CloseNowKept(s: State, target: nat)
    requires Inv(s) && Find(s.m.fwd, target, Enqueued).Some?
    ensures Inv(Closing(s, target, false))
  {
    hide Inv, Close, ApplyClose;
    CloseKept(s, target);
    CloseWritten(Closing(s, target, true), Closing(s, target, false), target);
  }

  lemma CollectKept(s: State, i: nat)
    requires Inv(s)
    ensures Inv(Next(s, CollectSlot(i)))
  {
    var f, t := s.m.fwd, Next(s, CollectSlot(i));
    if i < |f.devices| && f.devices[i].retiring {
      assert DeviceOk(f.devices[i], i, f.serial, s.kinds);
      SetDeviceKeeps(f, i, FREE);
      FwdSwap(s.m, t.m.fwd);
      hide MachineInv;
      assert DeviceOk(FREE, i, f.serial, s.kinds);
      QueueKept(s, t, []);
    } else {
      assert t == s;
    }
  }

  lemma QueryKept(s: State)
    requires Inv(s)
    ensures Inv(Next(s, Query))
  {
    var t := Next(s, Query);
    assert MachineInv(t.m) by {
      FwdSwap(s.m, t.m.fwd);
    }
    hide MachineInv;
    SameMetaSucceeds(s, t);
    QueueKept(s, t, []);
  }

  lemma IdleKept(s: State)
    requires Inv(s)
    ensures Inv(Next(s, Idle))
  {
    hide MachineInv, Maintain;
    var t := Next(s, Idle);
    MaintainKeeps(s.m);
    MaintainFrame(s.m);
    SameMetaSucceeds(s, t);
    QueueKept(s, t, []);
  }

  lemma MaintainFrame(m: Machine)
    ensures var g := Maintain(m);
            g.fwd.devices == m.fwd.devices && g.fwd.serial == m.fwd.serial && g.enqueued == m.enqueued
  {
    hide SetApplied;
  }

  lemma StepKept(s: State, step: Step)
    requires Inv(s) && Enabled(s, step)
    ensures Inv(Next(s, step))
  {
    hide Inv, AdmitAction, WriteAction, Opening, Ending, Closing;
    match step
    case OpenSource(keyboard, clone, budget) => OpenKept(s, keyboard, clone, budget);
    case Admit(a) => AdmitKept(s, a);
    case AdmitEnd(target, queued) => if queued { EndGrabKept(s, target); } else { EndNowKept(s, target); }
    case AdmitClose(target, queued) => if queued { CloseKept(s, target); } else { CloseNowKept(s, target); }
    case ApplyNext => ApplyNextKept(s);
    case Query => QueryKept(s);
    case Idle => IdleKept(s);
    case CollectSlot(i) => CollectKept(s, i);
  }

  lemma {:induction false} OneStep(s: State, steps: seq<Step>)
    requires steps != [] && Enabled(s, steps[0]) && Legal(Next(s, steps[0]), steps[1..])
    ensures Legal(s, steps) && Run(s, steps) == Run(Next(s, steps[0]), steps[1..])
  {}

  lemma {:induction false} RunKept(s: State, steps: seq<Step>)
    requires Inv(s) && Legal(s, steps)
    ensures Inv(Run(s, steps))
    decreases |steps|
  {
    hide Inv, Next, Enabled;
    if steps != [] {
      StepKept(s, steps[0]);
      RunKept(Next(s, steps[0]), steps[1..]);
    }
  }

  lemma StartOk(d: Devices, vkTable: map<nat, nat>)
    requires forall v :: v in vkTable ==> vkTable[v] <= KEY_MAX
    ensures Inv(Start(d, vkTable))
  {
    var f := Start(d, vkTable).m.fwd;
    assert f.trace[f.mark..] == [];
    assert forall c :: !Wanted(f, c);
  }

  // ---------------------------------------------------------------- every run

  /** In every reachable state, whatever was refused or failed: a wanted key the sink was
      not missing when attached is down; while its writes are accepted nothing else is; and
      if no source held a key at the attach, the sink holds exactly the wanted keys and its
      history is a well-formed sequence of presses, repeats and releases that explains them. */
  lemma SinkHoldsWhatIsWanted(d: Devices, vkTable: map<nat, nat>, steps: seq<Step>)
    requires forall v :: v in vkTable ==> vkTable[v] <= KEY_MAX
    requires Legal(Start(d, vkTable), steps)
    ensures var f := Run(Start(d, vkTable), steps).m.fwd;
            && (forall c :: Wanted(f, c) && c !in f.orphans ==> c in f.sink.down)
            && (f.sink.Up() ==> forall c :: c in f.sink.down ==> Wanted(f, c))
            && (f.sink.Up() && f.orphans == {} ==>
                  && (forall c :: c in f.sink.down <==> Wanted(f, c))
                  && f.mark <= |f.trace| && WellFormed({}, f.trace[f.mark..])
                  && KeysDown({}, f.trace[f.mark..]) == f.sink.down)
  {
    StartOk(d, vkTable);
    RunKept(Start(d, vkTable), steps);
  }

  /** In every reachable state synthesis wants of the sink exactly the keys an applied
      claim holds, except buttons it holds on the absolute device instead. */
  lemma SynthesisBitsAgreeWithClaims(d: Devices, vkTable: map<nat, nat>, steps: seq<Step>)
    requires forall v :: v in vkTable ==> vkTable[v] <= KEY_MAX
    requires Legal(Start(d, vkTable), steps)
    ensures var m := Run(Start(d, vkTable), steps).m;
            && (forall c :: c in m.fwd.sink.synth <==> Held(m.applied, c) && c !in m.onAbs)
            && (forall c :: c in m.onAbs ==> IsTracked(c) && Held(m.applied, c))
  {
    StartOk(d, vkTable);
    RunKept(Start(d, vkTable), steps);
  }
}
