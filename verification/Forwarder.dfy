/** The forwarding table in place: slots in an array, the sink and the counters as
    fields. Each method leaves the state its function in `Forwarding` describes. */
module Forwarders {
  import opened Codes
  import opened Forwarding
  import opened Pointwise
  import opened Synthesis

  lemma ClearSynthStep(f: Forward, code: nat)
    ensures ClearSynth(f, code) ==
            if code > KEY_MAX then f
              else ClearSynth(if code in f.sink.synth then SinkKey(f, code, false) else f, code + 1)
  {}

  class Forwarder {
    const devices: array<Device>
    var serial: nat
    var epoch: nat
    var sink: Sink
    ghost var trace: seq<Out>
    ghost var mark: nat
    ghost var orphans: set<nat>

    ghost function State(): Forward
      reads this, devices
    {
      Forward(devices[..], serial, epoch, sink, trace, mark, orphans)
    }

    constructor ()
      ensures State() == Forward(seq(SLOTS, _ => FREE), 1, 0, Sink(false, false, Left(0), {}, {}), [], 0, {})
              && fresh(devices)
    {
      devices := new Device[SLOTS](_ => FREE);
      serial, epoch := 1, 0;
      sink := Sink(false, false, Left(0), {}, {});
      trace, mark, orphans := [], 0, {};
      new;
      assert devices[..] == seq(SLOTS, _ => FREE);
    }

    method SetSlot(i: nat, d: Device)
      requires i < devices.Length
      modifies devices
      ensures State() == SetDevice(old(State()), i, d)
    {
      devices[i] := d;
      assert devices[..] == old(devices[..])[i := d];
    }

    // -------------------------------------------------------------- the sink

    method FindSlot(target: nat, view: View) returns (r: Option<nat>)
      ensures r == Find(State(), target, view)
    {
      var low := target % 256;
      if low == 0 || low > devices.Length {
        return None;
      }
      r := if devices[low - 1].Target(view) == target && !devices[low - 1].retiring then Some(low - 1) else None;
    }

    method SinkWants(code: nat) returns (r: bool)
      ensures r == Wanted(State(), code)
    {
      if code in sink.synth {
        return true;
      }
      var i := 0;
      while i < devices.Length
        invariant i <= devices.Length
        invariant forall j :: 0 <= j < i ==> !devices[..][j].HoldsOnSink(code)
      {
        if devices[i].Live() && devices[i].OnSink(code) && code in devices[i].applied.output {
          assert devices[..][i].HoldsOnSink(code);
          return true;
        }
        i := i + 1;
      }
      r := false;
    }

    method NoteWrittenKeys(keys: set<nat>, events: seq<Event>, ok: bool) returns (r: set<nat>)
      ensures r == NoteWritten(keys, events, ok)
    {
      r := keys;
      var i := 0;
      while i < |events|
        invariant i <= |events| && r == NoteWritten(keys, events[..i], ok)
      {
        assert events[..i + 1][..i] == events[..i];
        var e := events[i];
        if e.IsKey() && e.value != 2 && (ok || e.value != 0) {
          r := if e.value != 0 then r + {e.code} else r - {e.code};
        }
        i := i + 1;
      }
      assert events[..i] == events;
    }

    method WriteToSinkDevice(events: seq<Event>) returns (ok: bool)
      modifies this
      ensures State() == WriteSink(old(State()), events) && ok == old(sink).Accepts()
    {
      var was := sink;
      ok := was.Up() && was.budget.Accepts();
      if was.Up() {
        sink := sink.(failed := !ok, budget := was.budget.Spend());
      }
      if ok {
        trace := trace + Stamp(old(State()), events);
      }
      var down := NoteWrittenKeys(sink.down, events, ok);
      sink := sink.(down := down);
    }

    method TapKey(code: nat) returns (ok: bool)
      modifies this
      ensures State() == Tap(old(State()), code) && ok == old(sink).Accepts()
    {
      var down := if code in sink.down then 1 else 0;
      ok := WriteToSinkDevice([KeyEvent(code, 1 - down), KeyEvent(code, down)]);
    }

    method ReconcileKey(code: nat) returns (ok: bool)
      modifies this
      ensures State() == Reconcile(old(State()), code) && ok == ReconcileOk(old(State()), code)
    {
      var want := SinkWants(code);
      ok := true;
      if want != (code in sink.down) {
        ok := WriteToSinkDevice([KeyEvent(code, if want then 1 else 0)]);
      }
    }

    method SetSinkKey(code: nat, held: bool) returns (ok: bool)
      modifies this
      ensures State() == SinkKey(old(State()), code, held) && ok == SinkKeyOk(old(State()), code, held)
    {
      ok := true;
      if code <= KEY_MAX {
        sink := sink.(synth := if held then sink.synth + {code} else sink.synth - {code});
        ok := ReconcileKey(code);
      }
    }

    method RepressKey(code: nat)
      modifies this
      ensures State() == Repress(old(State()), code)
    {
      if code <= KEY_MAX && !IsModifierOrLock(code) && IsKeyboardKey(code) && code in sink.down {
        var _ := TapKey(code);
      }
    }

    method ClearSynthKeys()
      modifies this
      ensures State() == ClearSynth(old(State()), 0)
    {
      hide SinkKey, Quiet, ClearSynth;
      var code := 0;
      while code <= KEY_MAX
        invariant code <= KEY_MAX + 1 && ClearSynth(State(), code) == ClearSynth(old(State()), 0)
      {
        ClearSynthStep(State(), code);
        if code in sink.synth {
          var _ := SetSinkKey(code, false);
        }
        code := code + 1;
      }
      ClearSynthStep(State(), code);
    }

    // -------------------------------------------------------------- key sets

    method WriteToCloneDevice(i: nat, events: seq<Event>) returns (ok: bool)
      requires i < devices.Length
      modifies this, devices
      ensures State() == WriteClone(old(State()), i, events)
      ensures ok == (!old(devices[i]).failed && old(devices[i]).budget.Accepts())
    {
      var d := devices[i];
      ok := !d.failed && d.budget.Accepts();
      if ok {
        trace := trace + seq(|events|, k requires 0 <= k < |events| => ToClone(i, events[k]));
        SetSlot(i, d.(budget := d.budget.Spend()));
      } else if !d.failed {
        SetSlot(i, d.(failed := true));
      }
    }

    method SetOutputKey(i: nat, view: View, code: nat, held: bool)
      requires i < devices.Length
      modifies this, devices
      ensures State() == SetOutput(old(State()), i, view, code, held)
    {
      var d := devices[i];
      var k := d.At(view);
      SetSlot(i, d.With(view, k.(output := Toggle(k.output, code, held))));
      if view.Applied? {
        if d.OnSink(code) {
          var _ := ReconcileKey(code);
        } else if d.clone {
          var _ := WriteToCloneDevice(i, [KeyEvent(code, if held then 1 else 0)]);
        }
      }
    }

    /** The loop over a source's output set that lets go of everything outside keep. */
    method ReleaseSlot(i: nat, view: View, keep: set<nat>)
      requires i < devices.Length
      modifies this, devices
      ensures State() == ReleaseOutputs(old(State()), i, view, keep)
    {
      hide SetOutput, Quiet;
      var code := 0;
      while code <= KEY_MAX
        invariant code <= KEY_MAX + 1
        invariant ReleaseFrom(State(), i, view, keep, code) == ReleaseFrom(old(State()), i, view, keep, 0)
      {
        if code in devices[i].At(view).output && code !in keep {
          SetOutputKey(i, view, code, false);
        }
        code := code + 1;
      }
      var k := devices[i].At(view);
      SetSlot(i, devices[i].With(view, k.(displaced := k.displaced * keep)));
    }

    method EndGrabSlot(i: nat, view: View, keep: set<nat>, next: nat)
      requires i < devices.Length
      modifies this, devices
      ensures State() == EndGrabAt(old(State()), i, view, keep, next)
    {
      hide ReleaseOutputs, Quiet;
      ReleaseSlot(i, view, keep);
      var k := devices[i].At(view);
      SetSlot(i, devices[i].With(view, k.(displaced := {})));
      assert k.displaced * {} == {};
      epoch := epoch + 1;
      SetSlot(i, devices[i].Aim(view, next));
    }

    method EndGrabOf(target: nat) returns (next: nat, held: set<nat>)
      modifies this, devices
      ensures State() == EndGrab(old(State()), target)
      ensures match Find(old(State()), target, Enqueued)
              case None => next == target && held == {}
              case Some(i) => next == MakeTarget(old(serial), i) && held == old(devices[i]).enqueued.source
    {
      next, held := target, {};
      var found := FindSlot(target, Enqueued);
      if found.Some? {
        held := devices[found.value].enqueued.source;
        next := MakeTarget(serial, found.value);
        EndGrabSlot(found.value, Enqueued, held, next);
        serial := serial + 1;
      }
    }

    method ApplyEndGrabOf(next: nat, held: Option<set<nat>>)
      modifies this, devices
      ensures State() == ApplyEndGrab(old(State()), next, held)
    {
      hide EndGrabAt;
      var low := next % 256;
      if low != 0 && low <= devices.Length && devices[low - 1].Live() && devices[low - 1].targetA < next {
        EndGrabSlot(low - 1, Applied, if held.Some? then held.value else devices[low - 1].applied.source, next);
      }
    }

    /** A fresh target for a new source, or 0 if every slot is taken. */
    method OpenSlot(keyboard: bool, clone: bool, budget: Budget) returns (target: nat)
      modifies this, devices
      ensures State() == Open(old(State()), keyboard, clone, budget)
      ensures var slot := FirstFree(old(devices[..]), 0);
              target == if slot == devices.Length then 0 else MakeTarget(old(serial), slot)
      ensures target == 0 <==> FirstFree(old(devices[..]), 0) == devices.Length
    {
      var slot := 0;
      while slot < devices.Length && devices[slot].open
        invariant slot <= devices.Length && FirstFree(devices[..], slot) == FirstFree(devices[..], 0)
      {
        slot := slot + 1;
      }
      if slot == devices.Length {
        return 0;
      }
      target := MakeTarget(serial, slot);
      SetSlot(slot, Opened(target, keyboard, clone, budget));
      serial := serial + 1;
    }

    method CloseOf(target: nat)
      modifies this, devices
      ensures State() == Close(old(State()), target)
    {
      var found := FindSlot(target, Enqueued);
      if found.Some? {
        SetSlot(found.value, devices[found.value].(enqueued := NO_KEYS, targetE := 0, closing := true));
        epoch := epoch + 1;
      }
    }

    method ApplyCloseOf(target: nat)
      modifies this, devices
      ensures State() == ApplyClose(old(State()), target)
    {
      hide ReleaseOutputs, Quiet;
      var low := target % 256;
      if low != 0 && low <= devices.Length && devices[low - 1].closing && devices[low - 1].Live() {
        var i := low - 1;
        ReleaseSlot(i, Applied, {});
        SetSlot(i, if devices[i].clone then devices[i].(applied := NO_KEYS, enqueued := NO_KEYS, retiring := true)
          else FREE);
        epoch := epoch + 1;
      }
    }

    /** Frees the slot of a clone whose readers have drained it. */
    method CollectRetired(i: nat)
      modifies devices
      ensures State() == Collect(old(State()), i)
    {
      if i < devices.Length && devices[i].retiring {
        SetSlot(i, FREE);
      }
    }

    /** Replaces the sink. */
    method Attach(attached: bool, budget: Budget)
      modifies this
      ensures State() == AttachSink(old(State()), attached, budget)
    {
      sink := Sink(attached, false, budget, {}, {});
      mark := |trace|;
      orphans := set c | 0 <= c <= KEY_MAX && HeldBySources(devices[..], c);
    }

    method ShiftOneKey(i: nat, code: nat, view: View, restore: bool) returns (shifted: bool)
      requires i < devices.Length
      modifies this, devices
      ensures State() == ShiftOne(old(State()), i, code, view, restore)
      ensures shifted <==>
              old(devices[i]).Live()
                && code in (if restore then old(devices[i]).At(view).displaced else old(devices[i]).At(view).output)
    {
      var d := devices[i];
      var k := d.At(view);
      shifted := d.Live() && code in (if restore then k.displaced else k.output);
      if shifted {
        SetSlot(i, d.With(view, k.(displaced := Toggle(k.displaced, code, !restore && code in k.source))));
        SetOutputKey(i, view, code, restore);
      }
    }

    /** Code and its alias, on one source. */
    method ShiftOneSlot(i: nat, code: nat, view: View, restore: bool) returns (shifted: bool)
      requires i < devices.Length
      modifies this, devices
      ensures State() == ShiftSlot(old(State()), i, code, view, restore)
      ensures shifted <==> Shifts(old(devices[i]), code, view, restore)
      ensures forall j :: 0 <= j < devices.Length && j != i ==> devices[j] == old(devices[j])
    {
      ghost var f := State();
      shifted := ShiftOneKey(i, code, view, restore);
      ShiftOneAt(f, i, code, view, restore);
      if ButtonAlias(code) != code {
        ghost var g := State();
        var again := ShiftOneKey(i, ButtonAlias(code), view, restore);
        ShiftOneAt(g, i, ButtonAlias(code), view, restore);
        shifted := shifted || again;
      }
      hide ShiftOne;
      assert forall j :: 0 <= j < devices.Length && j != i ==> State().devices[j] == f.devices[j];
    }

    /** ShiftKey over the slots in turn; the result tells whether there was anything to shift. */
    method ShiftEverywhere(code: nat, view: View, restore: bool) returns (shifted: bool)
      modifies this, devices
      ensures State() == ShiftKey(old(State()), code, view, restore)
      ensures shifted <==> ShiftsAny(old(State()), code, view, restore)
    {
      shifted := false;
      if code > KEY_MAX {
        return;
      }
      hide ShiftSlot, Quiet;
      var i := 0;
      while i < devices.Length
        invariant i <= devices.Length
        invariant ShiftFrom(State(), i, code, view, restore) == ShiftFrom(old(State()), 0, code, view, restore)
        invariant forall j :: i <= j < devices.Length ==> devices[j] == old(devices[j])
        invariant shifted <==> exists j :: 0 <= j < i && Shifts(old(State()).devices[j], code, view, restore)
      {
        var moved := ShiftOneSlot(i, code, view, restore);
        assert moved <==> Shifts(old(State()).devices[i], code, view, restore);
        shifted := shifted || moved;
        i := i + 1;
      }
    }

    method ReleaseEverything(view: View)
      modifies this, devices
      ensures State() == ReleaseAllFrom(old(State()), 0, view)
    {
      hide ReleaseOutputs, Quiet;
      var i := 0;
      while i < devices.Length
        invariant i <= devices.Length && ReleaseAllFrom(State(), i, view) == ReleaseAllFrom(old(State()), 0, view)
      {
        if devices[i].Live() {
          ReleaseSlot(i, view, {});
        }
        i := i + 1;
      }
    }

    // -------------------------------------------------------------- packets

    method WritePacketToSink(i: nat, p: Packet)
      requires i < devices.Length
      modifies this, devices
      ensures State() == WriteToSink(old(State()), i, p)
    {
      var d := devices[i];
      var key := KeyOf(p);
      if key.None? {
        var _ := WriteToSinkDevice(p.events);
        return;
      }
      var code, value := key.value.code, key.value.value;
      var repress := value == 1 && !IsModifierOrLock(code) && IsKeyboardKey(code) && code in sink.down;
      if value != 2 {
        SetSlot(i, d.(applied := d.applied.(output := Toggle(d.applied.output, code, value != 0))));
      }
      var want := SinkWants(code);
      if !repress && (if value == 2 then code !in sink.down else want == (code in sink.down)) {
        return;
      }
      var ok := true;
      if repress {
        ok := WriteToSinkDevice([KeyEvent(code, 0)]);
      }
      if ok {
        var _ := WriteToSinkDevice(p.events);
      }
    }

    method WritePacketToClone(i: nat, p: Packet)
      requires i < devices.Length
      modifies this, devices
      ensures State() == WriteToClone(old(State()), i, p)
    {
      var ok := WriteToCloneDevice(i, p.events);
      var d := devices[i];
      var output := NoteWrittenKeys(d.applied.output, p.events, ok);
      SetSlot(i, d.(applied := d.applied.(output := output)));
    }

    method WritePacket(p: Packet)
      modifies this, devices
      ensures State() == Write(old(State()), p)
    {
      if |p.events| > 2 {
        return;
      }
      var found := FindSlot(p.target, Applied);
      var key := KeyOf(p);
      if found.None? || !(if p.clone then devices[found.value].clone else devices[found.value].keyboard) {
        return;
      }
      var i := found.value;
      var output := devices[i].applied.output;
      if key.Some? && key.value.value == 0 && key.value.code !in output && ButtonAlias(key.value.code) !in output {
        if !p.clone {
          var _ := ReconcileKey(key.value.code);
        }
      } else if p.clone {
        WritePacketToClone(i, p);
      } else {
        WritePacketToSink(i, p);
      }
    }

    method NotePacketKeys(p: Packet, view: View, source: bool)
      modifies this, devices
      ensures State() == NoteKeys(old(State()), p, view, source)
    {
      if |p.events| > 2
        || !(exists i :: 0 <= i < |p.events| && p.events[i].kind == EV_KEY && 0 <= p.events[i].value <= 1) {
        return;
      }
      var found := FindSlot(p.target, view);
      if found.None? {
        return;
      }
      var d := devices[found.value];
      var keys := d.At(view);
      var i := 0;
      while i < |p.events|
        invariant i <= |p.events| && keys == NoteEvents(d.At(view), p.events[..i], source)
      {
        assert p.events[..i + 1][..i] == p.events[..i];
        keys := NoteEvent(keys, p.events[i], source);
        i := i + 1;
      }
      assert p.events[..i] == p.events;
      SetSlot(found.value, d.With(view, keys));
    }
  }
}
