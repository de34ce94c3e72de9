/** What every operation on the forwarded sources and the sink keeps: the sink holds
    a key exactly while someone wants it, and what was written to it is a well-formed
    history of presses, repeats and releases. */
module SinkInvariant {
  import opened Codes
  import opened Forwarding
  import opened Pointwise

  predicate IsSinkKey(o: Out) { o.ToSink? && o.event.IsKey() }

  function KeysDownOne(down: set<nat>, o: Out): set<nat> {
    if !IsSinkKey(o) || o.event.value == 2 then down
    else if o.event.value == 0 then down - {o.event.code} else down + {o.event.code}
  }

  /** The keys a reader of the sink takes to be down after what was written. */
  function KeysDown(down: set<nat>, trace: seq<Out>): set<nat> {
    if trace == [] then down else KeysDownOne(KeysDown(down, trace[..|trace| - 1]), trace[|trace| - 1])
  }

  /** A press is of a key that is up, a release or repeat of one that is down, and a
      modifier or lock is released only when nobody wants it. */
  predicate WellFormedNext(down: set<nat>, o: Out) {
    IsSinkKey(o) ==>
      && 0 <= o.event.value <= 2
      && (o.event.value == 1 <==> o.event.code !in down)
      && (o.event.value == 0 && IsModifierOrLock(o.event.code) ==> !o.wanted)
  }

  predicate WellFormed(down: set<nat>, trace: seq<Out>) {
    trace == [] || (WellFormed(down, trace[..|trace| - 1])
                    && WellFormedNext(KeysDown(down, trace[..|trace| - 1]), trace[|trace| - 1]))
  }

  ghost predicate TraceOk(f: Forward) {
    f.mark <= |f.trace| && WellFormed({}, f.trace[f.mark..]) && KeysDown({}, f.trace[f.mark..]) == f.sink.down
  }

  /** Wanted keys the sink was not already missing when it was attached are down,
      whatever failed; while no write has failed nothing else is down; and if no source
      held a key at the attach, the history since is well formed and explains the sink. */
  ghost predicate SinkInv(f: Forward) {
    && f.mark <= |f.trace|
    && (forall c :: Wanted(f, c) && c !in f.orphans ==> c in f.sink.down)
    && (f.sink.Up() ==> forall c :: c in f.sink.down ==> Wanted(f, c))
    && (f.sink.Up() && f.orphans == {} ==> TraceOk(f))
  }

  // ---------------------------------------------------------------- frames

  lemma HoldersFrame(a: seq<Device>, b: seq<Device>, code: nat)
    requires |a| == |b|
    requires forall i :: 0 <= i < |a| ==> (a[i].HoldsOnSink(code) <==> b[i].HoldsOnSink(code))
    ensures HeldBySources(a, code) <==> HeldBySources(b, code)
  {
    if HeldBySources(a, code) {
      var i :| 0 <= i < |a| && a[i].HoldsOnSink(code);
      assert b[i].HoldsOnSink(code);
    }
    if HeldBySources(b, code) {
      var i :| 0 <= i < |b| && b[i].HoldsOnSink(code);
      assert a[i].HoldsOnSink(code);
    }
  }

  /** Everything the invariant depends on except who wants code. */
  ghost predicate Perturbs(f: Forward, g: Forward, code: nat) {
    && g.trace == f.trace && g.mark == f.mark && g.orphans == f.orphans
    && g.sink.down == f.sink.down && (g.sink.Up() <==> f.sink.Up())
    && forall c :: c != code ==> (Wanted(g, c) <==> Wanted(f, c))
  }

  lemma SetDevicePerturbs(f: Forward, i: nat, d: Device, code: nat)
    requires i < |f.devices|
    requires forall c :: c != code ==> (d.HoldsOnSink(c) <==> f.devices[i].HoldsOnSink(c))
    ensures Perturbs(f, SetDevice(f, i, d), code)
    ensures (d.HoldsOnSink(code) <==> f.devices[i].HoldsOnSink(code)) ==>
            forall c :: Wanted(SetDevice(f, i, d), c) <==> Wanted(f, c)
    ensures (f.devices[i].HoldsOnSink(code) ==> d.HoldsOnSink(code)) && Wanted(f, code) ==>
            Wanted(SetDevice(f, i, d), code)
    ensures (d.HoldsOnSink(code) ==> f.devices[i].HoldsOnSink(code)) && Wanted(SetDevice(f, i, d), code) ==>
            Wanted(f, code)
  {
    var g := SetDevice(f, i, d);
    if (f.devices[i].HoldsOnSink(code) ==> d.HoldsOnSink(code)) && HeldBySources(f.devices, code) {
      var j :| 0 <= j < |f.devices| && f.devices[j].HoldsOnSink(code);
      assert g.devices[j].HoldsOnSink(code);
    }
    if (d.HoldsOnSink(code) ==> f.devices[i].HoldsOnSink(code)) && HeldBySources(g.devices, code) {
      var j :| 0 <= j < |g.devices| && g.devices[j].HoldsOnSink(code);
      assert f.devices[j].HoldsOnSink(code);
    }
    forall c | d.HoldsOnSink(c) <==> f.devices[i].HoldsOnSink(c)
      ensures HeldBySources(f.devices[i := d], c) <==> HeldBySources(f.devices, c)
    {
      HoldersFrame(f.devices[i := d], f.devices, c);
    }
  }

  /** Changing a device without changing what it holds on the sink keeps the invariant. */
  lemma SetDeviceKeeps(f: Forward, i: nat, d: Device)
    requires i < |f.devices| && SinkInv(f)
    requires forall c :: d.HoldsOnSink(c) <==> f.devices[i].HoldsOnSink(c)
    ensures SinkInv(SetDevice(f, i, d))
  {
    SetDevicePerturbs(f, i, d, 0);
  }

  // ---------------------------------------------------------------- writes

  lemma TraceAppend(f: Forward, out: seq<Out>)
    requires f.mark <= |f.trace|
    ensures (f.trace + out)[f.mark..] == f.trace[f.mark..] + out
  {}

  lemma AppendOne(down: set<nat>, t: seq<Out>, o: Out)
    ensures KeysDown(down, t + [o]) == KeysDownOne(KeysDown(down, t), o)
    ensures WellFormed(down, t + [o]) <==> WellFormed(down, t) && WellFormedNext(KeysDown(down, t), o)
  {
    assert (t + [o])[..|t|] == t;
  }

  lemma AppendTwo(down: set<nat>, t: seq<Out>, o: Out, p: Out)
    ensures KeysDown(down, t + [o, p]) == KeysDownOne(KeysDownOne(KeysDown(down, t), o), p)
    ensures WellFormed(down, t + [o, p]) <==> WellFormed(down, t) && WellFormedNext(KeysDown(down, t), o)
                                              && WellFormedNext(KeysDownOne(KeysDown(down, t), o), p)
  {
    AppendOne(down, t, o);
    AppendOne(down, t + [o], p);
    assert t + [o] + [p] == t + [o, p];
  }

  predicate OnlyLastIsKey(events: seq<Event>) {
    && events != [] && events[|events| - 1].IsKey()
    && forall k :: 0 <= k < |events| - 1 ==> !events[k].IsKey()
  }

  /** What writing a report that ends with a key does to the sink's state. */
  lemma WriteSinkKey(f: Forward, events: seq<Event>)
    requires OnlyLastIsKey(events)
    ensures var e, g := events[|events| - 1], WriteSink(f, events);
            && g.sink.down == NoteKey(f.sink.down, e, f.sink.Accepts())
            && g.mark == f.mark && g.orphans == f.orphans && g.sink.synth == f.sink.synth
            && (g.sink.Up() <==> f.sink.Accepts())
            && |f.trace| <= |g.trace|
  {
    NoteWrittenLast(f.sink.down, events, f.sink.Accepts());
  }

  lemma {:induction false} AppendOtherOuts(down: set<nat>, t: seq<Out>, out: seq<Out>)
    requires forall k :: 0 <= k < |out| ==> !IsSinkKey(out[k])
    ensures KeysDown(down, t + out) == KeysDown(down, t)
    ensures WellFormed(down, t + out) <==> WellFormed(down, t)
  {
    if out == [] {
      assert t + out == t;
    } else {
      var head := out[..|out| - 1];
      AppendOtherOuts(down, t, head);
      AppendOne(down, t + head, out[|out| - 1]);
      assert t + head + [out[|out| - 1]] == t + out;
    }
  }

  /** Events that are not the sink's keys change nothing a reader of the sink sees. */
  lemma AppendOthers(f: Forward, out: seq<Out>)
    requires SinkInv(f) && forall k :: 0 <= k < |out| ==> !IsSinkKey(out[k])
    ensures SinkInv(f.(trace := f.trace + out))
  {
    TraceAppend(f, out);
    AppendOtherOuts({}, f.trace[f.mark..], out);
    assert forall c :: Wanted(f.(trace := f.trace + out), c) <==> Wanted(f, c);
  }

  lemma WriteSinkTrace(f: Forward, events: seq<Event>)
    requires OnlyLastIsKey(events) && f.sink.Accepts() && TraceOk(f)
    requires var e := events[|events| - 1]; WellFormedNext(f.sink.down, ToSink(e, Wanted(f, e.code)))
    ensures TraceOk(WriteSink(f, events))
  {
    var n, t, out := |events| - 1, f.trace[f.mark..], Stamp(f, events);
    WriteSinkKey(f, events);
    TraceAppend(f, out);
    AppendOtherOuts({}, t, out[..n]);
    AppendOne({}, t + out[..n], out[n]);
    assert t + out[..n] + [out[n]] == t + out;
  }

  lemma ReconcileSettles(f: Forward, g: Forward, code: nat)
    requires SinkInv(f) && Perturbs(f, g, code) && code <= KEY_MAX
    ensures SinkInv(Reconcile(g, code))
  {
    var r := Reconcile(g, code);
    if !InLine(g, code) {
      var e := KeyEvent(code, if Wanted(g, code) then 1 else 0);
      WriteSinkKey(g, [e]);
      if r.sink.Up() && f.orphans == {} {
        WriteSinkTrace(g, [e]);
      }
    }
  }

  lemma SinkKeyKeeps(f: Forward, code: nat, held: bool)
    requires SinkInv(f)
    ensures SinkInv(SinkKey(f, code, held))
  {
    if code <= KEY_MAX {
      ReconcileSettles(f, f.(sink := f.sink.(synth := if held then f.sink.synth + {code} else f.sink.synth - {code})),
        code);
    }
  }

  lemma TapKeeps(f: Forward, code: nat)
    requires SinkInv(f) && code <= KEY_MAX && !IsModifierOrLock(code)
    ensures SinkInv(Tap(f, code))
  {
    var down := if code in f.sink.down then 1 else 0;
    var a, b := KeyEvent(code, 1 - down), KeyEvent(code, down);
    var g := Tap(f, code);
    assert [a, b][..1] == [a];
    assert NoteWritten(f.sink.down, [a], f.sink.Accepts()) ==
           NoteKey(NoteWritten(f.sink.down, [], f.sink.Accepts()), a, f.sink.Accepts());
    assert forall c :: Wanted(g, c) <==> Wanted(f, c);
    if g.sink.Up() && f.orphans == {} {
      TraceAppend(f, Stamp(f, [a, b]));
      assert Stamp(f, [a, b]) == [ToSink(a, Wanted(f, code)), ToSink(b, Wanted(f, code))];
      AppendTwo({}, f.trace[f.mark..], ToSink(a, Wanted(f, code)), ToSink(b, Wanted(f, code)));
    }
  }

  lemma RepressKeeps(f: Forward, code: nat)
    requires SinkInv(f)
    ensures SinkInv(Repress(f, code))
  {
    if code <= KEY_MAX && NeedsRepress(f, code) {
      TapKeeps(f, code);
    }
  }

  lemma {:induction false} ClearSynthKeeps(f: Forward, code: nat)
    requires SinkInv(f)
    ensures SinkInv(ClearSynth(f, code))
    decreases KEY_MAX + 1 - code
  {
    if code <= KEY_MAX {
      SinkKeyKeeps(f, code, false);
      ClearSynthKeeps(if code in f.sink.synth then SinkKey(f, code, false) else f, code + 1);
    }
  }

  lemma AttachKeeps(f: Forward, attached: bool, budget: Budget)
    ensures var g := AttachSink(f, attached, budget);
            SinkInv(g) && g.sink.down == {} && forall c :: c in g.orphans <==> Wanted(g, c)
  {
    var g := AttachSink(f, attached, budget);
    assert g.trace[g.mark..] == [];
    forall c: nat | Wanted(g, c)
      ensures c in g.orphans
    {
      assert c <= KEY_MAX;
    }
  }

  // ---------------------------------------------------------------- key sets

  lemma WriteCloneKeeps(f: Forward, i: nat, events: seq<Event>)
    requires SinkInv(f) && i < |f.devices|
    ensures SinkInv(WriteClone(f, i, events))
    ensures forall c :: WriteClone(f, i, events).devices[i].HoldsOnSink(c) <==> f.devices[i].HoldsOnSink(c)
  {
    var d := f.devices[i];
    SetDeviceKeeps(f, i, d.(budget := d.budget.Spend()));
    SetDeviceKeeps(f, i, d.(failed := true));
    AppendOthers(SetDevice(f, i, d.(budget := d.budget.Spend())),
      seq(|events|, k requires 0 <= k < |events| => ToClone(i, events[k])));
  }

  /** Changing a device's record of one key, with its sink hold reconciled. */
  lemma SetOutputKeeps(f: Forward, i: nat, view: View, code: nat, held: bool)
    requires SinkInv(f) && i < |f.devices| && code <= KEY_MAX
    ensures SinkInv(SetOutput(f, i, view, code, held))
  {
    var d := f.devices[i];
    var k := d.At(view);
    var e := d.With(view, k.(output := Toggle(k.output, code, held)));
    var g := SetDevice(f, i, e);
    SetDevicePerturbs(f, i, e, code);
    if view.Applied? && d.OnSink(code) {
      ReconcileSettles(f, g, code);
    } else {
      SetDeviceKeeps(f, i, e);
      WriteCloneKeeps(g, i, [KeyEvent(code, if held then 1 else 0)]);
    }
  }

  lemma {:induction false} ReleaseFromKeeps(f: Forward, i: nat, view: View, keep: set<nat>, code: nat)
    requires SinkInv(f) && i < |f.devices|
    ensures SinkInv(ReleaseFrom(f, i, view, keep, code))
    decreases KEY_MAX + 1 - code
  {
    if code <= KEY_MAX {
      SetOutputKeeps(f, i, view, code, false);
      ReleaseFromKeeps(if code in f.devices[i].At(view).output && code !in keep then SetOutput(f, i, view, code, false)
        else f,
                       i, view, keep, code + 1);
    }
  }

  lemma ReleaseOutputsKeeps(f: Forward, i: nat, view: View, keep: set<nat>)
    requires SinkInv(f) && i < |f.devices|
    ensures SinkInv(ReleaseOutputs(f, i, view, keep))
  {
    ReleaseFromKeeps(f, i, view, keep, 0);
    KeepDisplacedKeeps(ReleaseFrom(f, i, view, keep, 0), i, view, keep);
  }

  lemma KeepDisplacedKeeps(f: Forward, i: nat, view: View, keep: set<nat>)
    requires SinkInv(f) && i < |f.devices|
    ensures SinkInv(KeepDisplaced(f, i, view, keep))
  {
    var k := f.devices[i].At(view);
    SetDeviceKeeps(f, i, f.devices[i].With(view, k.(displaced := k.displaced * keep)));
  }

  lemma EndGrabAtKeeps(f: Forward, i: nat, view: View, keep: set<nat>, next: nat)
    requires SinkInv(f) && i < |f.devices|
    ensures SinkInv(EndGrabAt(f, i, view, keep, next))
  {
    ReleaseOutputsKeeps(f, i, view, keep);
    var h := ReleaseOutputs(f, i, view, keep);
    KeepDisplacedKeeps(h, i, view, {});
    var g := KeepDisplaced(h, i, view, {});
    SetDeviceKeeps(g, i, g.devices[i].Aim(view, next));
  }

  lemma ShiftOneKeeps(f: Forward, i: nat, code: nat, view: View, restore: bool)
    requires SinkInv(f) && i < |f.devices| && code <= KEY_MAX
    ensures SinkInv(ShiftOne(f, i, code, view, restore))
  {
    var d := f.devices[i];
    var k := d.At(view);
    var moved := d.With(view, k.(displaced := Toggle(k.displaced, code, !restore && code in k.source)));
    SetDeviceKeeps(f, i, moved);
    SetOutputKeeps(SetDevice(f, i, moved), i, view, code, restore);
  }

  lemma {:induction false} ShiftFromKeeps(f: Forward, i: nat, code: nat, view: View, restore: bool)
    requires SinkInv(f) && i <= |f.devices| && code <= KEY_MAX
    ensures SinkInv(ShiftFrom(f, i, code, view, restore))
    decreases |f.devices| - i
  {
    if i < |f.devices| {
      ShiftOneKeeps(f, i, code, view, restore);
      ShiftOneKeeps(ShiftOne(f, i, code, view, restore), i, ButtonAlias(code), view, restore);
      ShiftFromKeeps(ShiftSlot(f, i, code, view, restore), i + 1, code, view, restore);
    }
  }

  lemma ShiftKeyKeeps(f: Forward, code: nat, view: View, restore: bool)
    requires SinkInv(f)
    ensures SinkInv(ShiftKey(f, code, view, restore))
  {
    if code <= KEY_MAX {
      ShiftFromKeeps(f, 0, code, view, restore);
    }
  }

  lemma {:induction false} ReleaseAllKeeps(f: Forward, i: nat, view: View)
    requires SinkInv(f) && i <= |f.devices|
    ensures SinkInv(ReleaseAllFrom(f, i, view))
    decreases |f.devices| - i
  {
    if i < |f.devices| {
      ReleaseOutputsKeeps(f, i, view, {});
      ReleaseAllKeeps(if f.devices[i].Live() then ReleaseOutputs(f, i, view, {}) else f, i + 1, view);
    }
  }

  // ---------------------------------------------------------------- packets

  /** A packet for the clone never carries a key its source holds on the sink. */
  predicate ClonePacketOk(f: Forward, p: Packet) {
    p.clone ==> match Find(f, p.target, Applied)
                case None => true
                case Some(i) => KeyOf(p).None? || !f.devices[i].OnSink(KeyOf(p).value.code)
  }

  lemma WriteOthersKeeps(f: Forward, events: seq<Event>)
    requires SinkInv(f) && |events| <= 2 && forall k :: 0 <= k < |events| ==> !events[k].IsKey()
    ensures SinkInv(WriteSink(f, events))
  {
    var g := WriteSink(f, events);
    NoteWrittenNone(f.sink.down, events, f.sink.Accepts());
    assert forall c :: Wanted(g, c) <==> Wanted(f, c);
    if f.sink.Accepts() {
      AppendOthers(f, Stamp(f, events));
    }
  }

  lemma WriteToSinkKeeps(f: Forward, i: nat, p: Packet)
    requires SinkInv(f) && i < |f.devices| && PacketOk(p)
    ensures SinkInv(WriteToSink(f, i, p))
  {
    match KeyOf(p)
    case None => WriteOthersKeeps(f, p.events);
    case Some(key) =>
      var d := f.devices[i];
      var e := d.(applied := d.applied.(output := Toggle(d.applied.output, key.code, key.value != 0)));
      var g := if key.value == 2 then f else SetDevice(f, i, e);
      SetDevicePerturbs(f, i, e, key.code);
      if key.value == 1 && NeedsRepress(f, key.code) {
        RepressedWriteKeeps(f, g, p, key);
      } else if !(if key.value == 2 then key.code !in g.sink.down else InLine(g, key.code)) {
        PlainWriteKeeps(f, g, p, key);
      }
  }

  /** Typing again a key that is down on the sink: a release and a press. */
  lemma RepressedWriteKeeps(f: Forward, g: Forward, p: Packet, key: Event)
    requires SinkInv(f) && PacketOk(p) && KeyOf(p) == Some(key) && key.value == 1
    requires Perturbs(f, g, key.code) && NeedsRepress(f, key.code)
    requires Wanted(f, key.code) ==> Wanted(g, key.code)
    ensures var h := WriteSink(g, [KeyEvent(key.code, 0)]);
            SinkInv(if g.sink.Accepts() then WriteSink(h, p.events) else h)
  {
    var h := WriteSink(g, [KeyEvent(key.code, 0)]);
    WriteSinkKey(g, [KeyEvent(key.code, 0)]);
    WriteSinkKey(h, p.events);
    if g.sink.Accepts() && h.sink.Accepts() && f.orphans == {} {
      WriteSinkTrace(g, [KeyEvent(key.code, 0)]);
      WriteSinkTrace(h, p.events);
    }
  }

  lemma PlainWriteKeeps(f: Forward, g: Forward, p: Packet, key: Event)
    requires SinkInv(f) && PacketOk(p) && KeyOf(p) == Some(key) && Perturbs(f, g, key.code)
    requires key.value == 1 && Wanted(f, key.code) ==> Wanted(g, key.code)
    requires key.value == 0 && Wanted(g, key.code) ==> Wanted(f, key.code)
    requires if key.value == 2 then g == f && key.code in g.sink.down else !InLine(g, key.code)
    ensures SinkInv(WriteSink(g, p.events))
  {
    WriteSinkKey(g, p.events);
    if g.sink.Accepts() && f.orphans == {} {
      WriteSinkTrace(g, p.events);
    }
  }

  lemma WriteKeeps(f: Forward, p: Packet)
    requires SinkInv(f) && PacketOk(p) && ClonePacketOk(f, p)
    ensures SinkInv(Write(f, p))
  {
    match Find(f, p.target, Applied)
    case None =>
    case Some(i) =>
      if KeyOf(p).Some? {
        ReconcileSettles(f, f, KeyOf(p).value.code);
      }
      WriteToSinkKeeps(f, i, p);
      if p.clone {
        WriteCloneKeeps(f, i, p.events);
        var g := WriteClone(f, i, p.events);
        var d := g.devices[i];
        var ok := !f.devices[i].failed && f.devices[i].budget.Accepts();
        if p.events != [] {
          NoteWrittenLast(d.applied.output, p.events, ok);
        }
        SetDeviceKeeps(g, i, d.(applied := d.applied.(output := NoteWritten(d.applied.output, p.events, ok))));
      }
  }
}
