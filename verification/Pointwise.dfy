/** What each operation does to every source's key sets, whatever path it took
    through the sink and the clones. */
module Pointwise {
  import opened Codes
  import opened Forwarding

  /** d became e: its key sets in one view became k, and its clone may have failed. */
  predicate Became(d: Device, e: Device, view: View, k: Keys) {
    && e == d.With(view, k).(failed := e.failed, budget := e.budget)
    && (!d.failed && d.budget.Endless? ==> !e.failed && e.budget.Endless?)
  }

  predicate OnlySlot(f: Forward, g: Forward, i: nat) {
    |g.devices| == |f.devices| && forall j :: 0 <= j < |f.devices| && j != i ==> g.devices[j] == f.devices[j]
  }

  predicate BecameAt(f: Forward, g: Forward, i: nat, view: View, k: Keys)
    requires i < |f.devices|
  {
    OnlySlot(f, g, i) && Became(f.devices[i], g.devices[i], view, k)
  }

  /** Every recorded code fits the bitmaps, and only held keys are displaced. */
  predicate KeysOk(k: Keys) {
    && (forall c :: c in k.output ==> c <= KEY_MAX)
    && (forall c :: c in k.source ==> c <= KEY_MAX)
    && k.displaced <= k.source
  }

  lemma SetOutputAt(f: Forward, i: nat, view: View, code: nat, held: bool)
    requires i < |f.devices|
    ensures var k := f.devices[i].At(view);
            BecameAt(f, SetOutput(f, i, view, code, held), i, view, k.(output := Toggle(k.output, code, held)))
  {}

  function KeptFrom(k: Keys, keep: set<nat>, code: nat): Keys {
    k.(output := set c | c in k.output && (c < code || c in keep || c > KEY_MAX))
  }

  lemma {:induction false} ReleaseFromAt(f: Forward, i: nat, view: View, keep: set<nat>, code: nat)
    requires i < |f.devices|
    ensures BecameAt(f, ReleaseFrom(f, i, view, keep, code), i, view, KeptFrom(f.devices[i].At(view), keep, code))
    decreases KEY_MAX + 1 - code
  {
    var k := f.devices[i].At(view);
    if code > KEY_MAX {
      assert KeptFrom(k, keep, code) == k;
    } else {
      var drop := code in k.output && code !in keep;
      var g := if drop then SetOutput(f, i, view, code, false) else f;
      if drop {
        SetOutputAt(f, i, view, code, false);
      }
      ReleaseFromAt(g, i, view, keep, code + 1);
      assert KeptFrom(k, keep, code).output == KeptFrom(g.devices[i].At(view), keep, code + 1).output;
    }
  }

  /** Only the holds in keep remain, in output and in displaced. */
  lemma ReleaseOutputsAt(f: Forward, i: nat, view: View, keep: set<nat>)
    requires i < |f.devices| && KeysOk(f.devices[i].At(view))
    ensures var k := f.devices[i].At(view);
            BecameAt(f, ReleaseOutputs(f, i, view, keep), i, view, Keys(k.output * keep, k.source, k.displaced * keep))
  {
    var k := f.devices[i].At(view);
    ReleaseFromAt(f, i, view, keep, 0);
    var kept := KeptFrom(k, keep, 0).output;
    assert kept == k.output * keep;
  }

  /** Ending a grab keeps the holds in keep and restores nothing. */
  lemma EndGrabAtAt(f: Forward, i: nat, view: View, keep: set<nat>, next: nat)
    requires i < |f.devices| && KeysOk(f.devices[i].At(view))
    ensures var d, k, g := f.devices[i], f.devices[i].At(view), EndGrabAt(f, i, view, keep, next);
            OnlySlot(f, g, i) && Became(d.Aim(view, next), g.devices[i], view, Keys(k.output * keep, k.source, {}))
  {
    ReleaseOutputsAt(f, i, view, keep);
    assert forall x: set<nat> :: x * {} == {};
  }

  function ShiftCode(k: Keys, code: nat, restore: bool): Keys {
    if code !in (if restore then k.displaced else k.output) then k
    else Keys(Toggle(k.output, code, restore), k.source, Toggle(k.displaced, code, !restore && code in k.source))
  }

  /** ShiftKey on the key sets of one source. */
  function ShiftKeys(k: Keys, code: nat, restore: bool): Keys {
    var a := ShiftCode(k, code, restore);
    if ButtonAlias(code) != code then ShiftCode(a, ButtonAlias(code), restore) else a
  }

  function ShiftedKeys(d: Device, code: nat, view: View, restore: bool): Keys {
    if d.Live() && code <= KEY_MAX then ShiftKeys(d.At(view), code, restore) else d.At(view)
  }

  /** A shift that finds nothing to move leaves everything alone. */
  lemma {:induction false} NothingShifts(f: Forward, i: nat, code: nat, view: View, restore: bool)
    requires i <= |f.devices| && forall j :: i <= j < |f.devices| ==> !Shifts(f.devices[j], code, view, restore)
    ensures ShiftFrom(f, i, code, view, restore) == f
    decreases |f.devices| - i
  {
    if i < |f.devices| {
      assert !Shifts(f.devices[i], code, view, restore);
      assert ShiftSlot(f, i, code, view, restore) == f;
      NothingShifts(f, i + 1, code, view, restore);
    }
  }

  lemma ShiftOneAt(f: Forward, i: nat, code: nat, view: View, restore: bool)
    requires i < |f.devices|
    ensures BecameAt(f, ShiftOne(f, i, code, view, restore), i, view,
                     if f.devices[i].Live() then ShiftCode(f.devices[i].At(view), code, restore)
                       else f.devices[i].At(view))
  {
    var d := f.devices[i];
    var k := d.At(view);
    var g := SetDevice(f, i, d.With(view, k.(displaced := Toggle(k.displaced, code, !restore && code in k.source))));
    SetOutputAt(g, i, view, code, restore);
  }

  lemma ShiftSlotAt(f: Forward, i: nat, code: nat, view: View, restore: bool)
    requires i < |f.devices| && code <= KEY_MAX
    ensures BecameAt(f, ShiftSlot(f, i, code, view, restore), i, view, ShiftedKeys(f.devices[i], code, view, restore))
  {
    ShiftOneAt(f, i, code, view, restore);
    ShiftOneAt(ShiftOne(f, i, code, view, restore), i, ButtonAlias(code), view, restore);
  }

  lemma {:induction false} ShiftFromAt(f: Forward, i: nat, code: nat, view: View, restore: bool)
    requires i <= |f.devices| && code <= KEY_MAX
    ensures var g := ShiftFrom(f, i, code, view, restore);
            && (forall j :: 0 <= j < i ==> g.devices[j] == f.devices[j])
            && (forall j :: i <= j < |f.devices| ==>
               Became(f.devices[j], g.devices[j], view, ShiftedKeys(f.devices[j], code, view, restore)))
    decreases |f.devices| - i
  {
    if i < |f.devices| {
      ShiftSlotAt(f, i, code, view, restore);
      ShiftFromAt(ShiftSlot(f, i, code, view, restore), i + 1, code, view, restore);
    }
  }

  /** ShiftKey is the same move on every source at once. */
  lemma ShiftKeyAt(f: Forward, code: nat, view: View, restore: bool)
    ensures var g := ShiftKey(f, code, view, restore);
            forall j :: 0 <= j < |f.devices| ==>
              Became(f.devices[j], g.devices[j], view, ShiftedKeys(f.devices[j], code, view, restore))
  {
    if code <= KEY_MAX {
      ShiftFromAt(f, 0, code, view, restore);
    }
  }

  function Emptied(d: Device, view: View): Keys {
    if d.Live() then Keys({}, d.At(view).source, {}) else d.At(view)
  }

  function ReleaseLive(f: Forward, i: nat, view: View): Forward
    requires i < |f.devices|
  {
    if f.devices[i].Live() then ReleaseOutputs(f, i, view, {}) else f
  }

  lemma ReleaseLiveAt(f: Forward, i: nat, view: View)
    requires i < |f.devices| && KeysOk(f.devices[i].At(view))
    ensures BecameAt(f, ReleaseLive(f, i, view), i, view, Emptied(f.devices[i], view))
  {
    ReleaseOutputsAt(f, i, view, {});
    assert forall x: set<nat> :: x * {} == {};
  }

  lemma {:induction false} ReleaseAllAt(f: Forward, i: nat, view: View)
    requires i <= |f.devices| && forall j :: i <= j < |f.devices| ==> KeysOk(f.devices[j].At(view))
    ensures var g := ReleaseAllFrom(f, i, view);
            && (forall j :: 0 <= j < i ==> g.devices[j] == f.devices[j])
            && (forall j :: i <= j < |f.devices| ==>
               Became(f.devices[j], g.devices[j], view, Emptied(f.devices[j], view)))
    decreases |f.devices| - i
  {
    if i < |f.devices| {
      ReleaseLiveAt(f, i, view);
      ReleaseAllAt(ReleaseLive(f, i, view), i + 1, view);
    }
  }

  // ---------------------------------------------------------------- packets

  function Pressed(k: Keys, e: Event): Keys {
    if !e.IsKey() || e.value == 2 then k else k.(output := Toggle(k.output, e.code, e.value != 0))
  }

  /** The key a packet ends with, recorded the simple way. */
  function PacketOutput(k: Keys, p: Packet): Keys {
    if KeyOf(p).Some? then Pressed(k, KeyOf(p).value) else k
  }

  lemma {:induction false} NoteEventsNoKeys(k: Keys, events: seq<Event>, source: bool)
    requires forall i :: 0 <= i < |events| ==> !events[i].IsKey()
    ensures NoteEvents(k, events, source) == k
  {
    if events != [] {
      NoteEventsNoKeys(k, events[..|events| - 1], source);
    }
  }

  /** Admission of a packet records its key, in the source or the output set. */
  lemma NoteKeysAt(f: Forward, p: Packet, view: View, source: bool)
    requires PacketOk(p)
    ensures match Find(f, p.target, view)
            case None => NoteKeys(f, p, view, source) == f
            case Some(i) =>
              var k := f.devices[i].At(view);
              BecameAt(f, NoteKeys(f, p, view, source), i, view,
                       if !source then PacketOutput(k, p) else if KeyOf(p).Some? then NoteEvent(k, KeyOf(p).value, true)
                         else k)
  {
    match Find(f, p.target, view)
    case None =>
    case Some(i) =>
      var k := f.devices[i].At(view);
      if p.events != [] {
        NoteEventsNoKeys(k, p.events[..|p.events| - 1], source);
      }
      if KeyOf(p).Some? && KeyOf(p).value.value != 2 {
        assert p.events[|p.events| - 1].kind == EV_KEY && 0 <= p.events[|p.events| - 1].value <= 1;
      }
  }

  lemma WriteToSinkAt(f: Forward, i: nat, p: Packet)
    requires i < |f.devices|
    ensures BecameAt(f, WriteToSink(f, i, p), i, Applied, PacketOutput(f.devices[i].applied, p))
  {
    var d := f.devices[i];
    match KeyOf(p)
    case None => assert WriteToSink(f, i, p).devices == f.devices;
    case Some(key) =>
      var g := if key.value == 2 then f
               else SetDevice(f, i,
                 d.(applied := d.applied.(output := Toggle(d.applied.output, key.code, key.value != 0))));
      assert WriteToSink(f, i, p).devices == g.devices;
  }

  lemma {:induction false} NoteWrittenLast(keys: set<nat>, events: seq<Event>, ok: bool)
    requires events != [] && forall i :: 0 <= i < |events| - 1 ==> !events[i].IsKey()
    ensures NoteWritten(keys, events, ok) == NoteKey(keys, events[|events| - 1], ok)
  {
    NoteWrittenNone(keys, events[..|events| - 1], ok);
  }

  lemma {:induction false} NoteWrittenNone(keys: set<nat>, events: seq<Event>, ok: bool)
    requires forall i :: 0 <= i < |events| ==> !events[i].IsKey()
    ensures NoteWritten(keys, events, ok) == keys
  {
    if events != [] {
      NoteWrittenNone(keys, events[..|events| - 1], ok);
    }
  }

  /** A clone's write records its key, or only a press if it was refused. */
  lemma WriteToCloneAt(f: Forward, i: nat, p: Packet)
    requires i < |f.devices| && PacketOk(p)
    ensures var d := f.devices[i];
            var e := WriteToClone(f, i, p).devices[i];
            && BecameAt(f, WriteToClone(f, i, p), i, Applied, e.applied)
            && (KeysOk(d.applied) ==> KeysOk(e.applied))
            && (!d.failed && d.budget.Accepts() ==> e.applied == PacketOutput(d.applied, p))
  {
    if p.events != [] {
      NoteWrittenLast(f.devices[i].applied.output, p.events, true);
      NoteWrittenLast(f.devices[i].applied.output, p.events, false);
    }
  }

  /** Whichever branch written output takes, the source's output set is what
      admission recorded, provided its clone accepts writes. */
  lemma WriteAt(f: Forward, p: Packet)
    requires PacketOk(p)
    ensures match Find(f, p.target, Applied)
            case None => Write(f, p) == f
            case Some(i) =>
              var d, e := f.devices[i], Write(f, p).devices[i];
              && BecameAt(f, Write(f, p), i, Applied, e.applied)
              && (KeysOk(d.applied) ==> KeysOk(e.applied))
              && (Suits(d.keyboard, d.clone, p) && !d.failed && d.budget.Endless? ==>
                 e.applied == PacketOutput(d.applied, p))
  {
    hide WriteToSink, WriteToClone, Reconcile;
    match Find(f, p.target, Applied)
    case None =>
    case Some(i) =>
      WriteToSinkAt(f, i, p);
      WriteToCloneAt(f, i, p);
  }
}
