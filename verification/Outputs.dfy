/** What outputs are told: the key events written to an output account for the keys it has
    down, whichever operation wrote them, and packets reach the output they are for. */
module Outputs {
  import opened Codes
  import opened Claims
  import opened Forwarding
  import opened Synthesis
  import opened Broker
  import opened Pointwise
  import opened SinkInvariant
  import opened SynthInvariant
  import opened BrokerInvariant

  datatype Output = CloneOf(slot: nat) | AbsoluteDevice

  function HeardBy(o: Out, w: Output): Option<Event> {
    match o
    case ToClone(i, e) => if w == CloneOf(i) then Some(e) else None
    case ToAbsolute(e) => if w == AbsoluteDevice then Some(e) else None
    case _ => None
  }

  function DownAfter(keys: set<nat>, e: Event): set<nat> {
    if e.kind != 1 || e.code > KEY_MAX || e.value == 2 then keys
    else if e.value == 0 then keys - {e.code} else keys + {e.code}
  }

  /** The keys an output has down that had keys down before these events were written. */
  function Down(keys: set<nat>, outs: seq<Out>, w: Output): set<nat> {
    if outs == [] then keys
    else
      var before := Down(keys, outs[..|outs| - 1], w);
      match HeardBy(outs[|outs| - 1], w)
      case None => before
      case Some(e) => DownAfter(before, e)
  }

  lemma {:induction false} DownConcat(keys: set<nat>, a: seq<Out>, b: seq<Out>, w: Output)
    ensures Down(keys, a + b, w) == Down(Down(keys, a, w), b, w)
    decreases |b|
  {
    if b == [] {
      assert a + b == a;
    } else {
      assert (a + b)[..|a + b| - 1] == a + b[..|b| - 1] && (a + b)[|a + b| - 1] == b[|b| - 1];
      DownConcat(keys, a, b[..|b| - 1], w);
    }
  }

  lemma {:induction false} DownUnheard(keys: set<nat>, outs: seq<Out>, w: Output)
    requires forall k :: 0 <= k < |outs| ==> HeardBy(outs[k], w).None?
    ensures Down(keys, outs, w) == keys
  {
    if outs != [] {
      assert forall k :: 0 <= k < |outs| - 1 ==> outs[..|outs| - 1][k] == outs[k];
      DownUnheard(keys, outs[..|outs| - 1], w);
    }
  }

  // ---------------------------------------------------------------- sources

  /** The source has a clone that has accepted every write. */
  predicate Works(d: Device) { d.open && d.clone && !d.failed }

  /** The keys of the source's output that are its clone's to carry. */
  function Beyond(d: Device): set<nat> { set c | c in d.applied.output && !d.OnSink(c) }

  /** g was reached from f by writing no pointer event, and what it holds of w is what w was told. */
  predicate Follows(f: Forward, g: Forward, w: Output) {
    && f.trace <= g.trace && g.mark == f.mark && |g.devices| == |f.devices|
    && (forall k :: |f.trace| <= k < |g.trace| ==> !g.trace[k].ToPointer? && !g.trace[k].ToAbsolute?)
    && (w.CloneOf? && w.slot < |f.devices| && Works(g.devices[w.slot]) ==>
          && Works(f.devices[w.slot])
          && Beyond(g.devices[w.slot]) == Down(Beyond(f.devices[w.slot]), g.trace[|f.trace|..], w))
  }

  lemma FollowsTrans(f: Forward, g: Forward, h: Forward, w: Output)
    requires Follows(f, g, w) && Follows(g, h, w)
    ensures Follows(f, h, w)
  {
    var a, b := g.trace[|f.trace|..], h.trace[|g.trace|..];
    assert h.trace[|f.trace|..] == a + b;
    if w.CloneOf? && w.slot < |f.devices| && Works(h.devices[w.slot]) {
      DownConcat(Beyond(f.devices[w.slot]), a, b, w);
    }
    forall k | |f.trace| <= k < |h.trace|
      ensures !h.trace[k].ToPointer? && !h.trace[k].ToAbsolute?
    {
      assert k < |g.trace| ==> h.trace[k] == g.trace[k];
    }
    hide Works, Beyond, Down;
  }

  /** Nothing w hears was written, and w's source holds what it held. */
  lemma Unheard(f: Forward, g: Forward, outs: seq<Out>, w: Output)
    requires g.trace == f.trace + outs && g.mark == f.mark && |g.devices| == |f.devices|
    requires forall k :: 0 <= k < |outs| ==> outs[k].ToSink? || (outs[k].ToClone? && w != CloneOf(outs[k].slot))
    requires w.CloneOf? && w.slot < |f.devices| && Works(g.devices[w.slot]) ==>
               Works(f.devices[w.slot]) && Beyond(g.devices[w.slot]) == Beyond(f.devices[w.slot])
    ensures Follows(f, g, w)
  {
    assert g.trace[|f.trace|..] == outs;
    if w.CloneOf? && w.slot < |f.devices| && Works(g.devices[w.slot]) {
      DownUnheard(Beyond(f.devices[w.slot]), outs, w);
    }
    hide Works, Beyond, Down;
  }

  lemma SinkFollows(f: Forward, events: seq<Event>, w: Output)
    ensures Follows(f, WriteSink(f, events), w)
  {
    var g := WriteSink(f, events);
    assert g.trace == f.trace + (if f.sink.Accepts() then Stamp(f, events) else []);
    Unheard(f, g, if f.sink.Accepts() then Stamp(f, events) else [], w);
  }

  lemma ReconcileFollows(f: Forward, code: nat, w: Output)
    ensures Follows(f, Reconcile(f, code), w)
  {
    Unheard(f, f, [], w);
    SinkFollows(f, [KeyEvent(code, if Wanted(f, code) then 1 else 0)], w);
    hide Follows, WriteSink, Wanted;
  }

  /** Changing a source without what it holds beyond the sink. */
  lemma DeviceFollows(f: Forward, i: nat, d: Device, w: Output)
    requires i < |f.devices| && (Works(d) ==> Works(f.devices[i]) && Beyond(d) == Beyond(f.devices[i]))
    ensures Follows(f, SetDevice(f, i, d), w)
  {
    assert f.trace + [] == f.trace;
    Unheard(f, SetDevice(f, i, d), [], w);
  }

  lemma EpochFollows(f: Forward, epoch: nat, serial: nat, w: Output)
    ensures Follows(f, f.(epoch := epoch), w) && Follows(f, f.(serial := serial), w)
  {
    assert f.trace + [] == f.trace;
    Unheard(f, f.(epoch := epoch), [], w);
    Unheard(f, f.(serial := serial), [], w);
  }

  /** A source that holds d once its clone accepts the events, which account for the change. */
  lemma CloneFollows(f: Forward, i: nat, events: seq<Event>, d: Device, w: Output)
    requires i < |f.devices| && d.failed == f.devices[i].failed && d.budget == f.devices[i].budget
    requires Works(d) ==> Works(f.devices[i])
    requires Works(d) ==> Beyond(d) == Down(Beyond(f.devices[i]), CloneOuts(i, events), CloneOf(i))
    ensures var g := WriteClone(SetDevice(f, i, d), i, events);
            Follows(f, g, w) && g.devices[i] == d.(failed := g.devices[i].failed, budget := g.devices[i].budget)
  {
    var h := SetDevice(f, i, d);
    var g := WriteClone(h, i, events);
    assert !d.failed && d.budget.Accepts() ==> g.trace == f.trace + CloneOuts(i, events);
    if Works(g.devices[i]) {
      assert g.trace[|f.trace|..] == CloneOuts(i, events);
      assert Beyond(g.devices[i]) == Beyond(d);
      if w != CloneOf(i) {
        Unheard(f, g, CloneOuts(i, events), w);
      }
    } else if w == CloneOf(i) {
      assert forall k :: |f.trace| <= k < |g.trace| ==> g.trace[k].ToClone?;
    } else {
      Unheard(f, g, g.trace[|f.trace|..], w);
    }
  }

  function CloneOuts(i: nat, events: seq<Event>): seq<Out> {
    seq(|events|, k requires 0 <= k < |events| => ToClone(i, events[k]))
  }

  lemma SetOutputFollows(f: Forward, i: nat, view: View, code: nat, held: bool, w: Output)
    requires i < |f.devices| && code <= KEY_MAX
    ensures Follows(f, SetOutput(f, i, view, code, held), w)
  {
    var d := f.devices[i];
    var k := d.At(view);
    var e := d.With(view, k.(output := Toggle(k.output, code, held)));
    if view.Enqueued? || d.OnSink(code) || !d.clone {
      DeviceFollows(f, i, e, w);
      ReconcileFollows(SetDevice(f, i, e), code, w);
      FollowsTrans(f, SetDevice(f, i, e), Reconcile(SetDevice(f, i, e), code), w);
    } else {
      var v := KeyEvent(code, if held then 1 else 0);
      assert CloneOuts(i, [v]) == [ToClone(i, v)];
      assert Down(Beyond(d), [ToClone(i, v)], CloneOf(i)) == DownAfter(Beyond(d), v) by {
        assert [ToClone(i, v)][..0] == [];
      }
      assert Beyond(e) == DownAfter(Beyond(d), v);
      CloneFollows(f, i, [v], e, w);
    }
    hide Follows, Reconcile;
  }

  lemma {:induction false} ReleaseFromFollows(f: Forward, i: nat, view: View, keep: set<nat>, code: nat, w: Output)
    requires i < |f.devices|
    ensures Follows(f, ReleaseFrom(f, i, view, keep, code), w)
    decreases KEY_MAX + 1 - code
  {
    hide Follows, SetOutput;
    if code > KEY_MAX {
      Stays(f, w);
    } else {
      var drop := code in f.devices[i].At(view).output && code !in keep;
      var g := if drop then SetOutput(f, i, view, code, false) else f;
      Stays(f, w);
      SetOutputFollows(f, i, view, code, false, w);
      ReleaseFromFollows(g, i, view, keep, code + 1, w);
      FollowsTrans(f, g, ReleaseFrom(g, i, view, keep, code + 1), w);
    }
  }

  lemma Stays(f: Forward, w: Output)
    ensures Follows(f, f, w)
  {
    assert f.trace + [] == f.trace;
    Unheard(f, f, [], w);
  }

  lemma KeepDisplacedFollows(f: Forward, i: nat, view: View, keep: set<nat>, w: Output)
    requires i < |f.devices|
    ensures Follows(f, KeepDisplaced(f, i, view, keep), w)
  {
    var k := f.devices[i].At(view);
    DeviceFollows(f, i, f.devices[i].With(view, k.(displaced := k.displaced * keep)), w);
  }

  lemma ReleaseOutputsFollows(f: Forward, i: nat, view: View, keep: set<nat>, w: Output)
    requires i < |f.devices|
    ensures Follows(f, ReleaseOutputs(f, i, view, keep), w)
  {
    hide Follows, ReleaseFrom, KeepDisplaced;
    var g := ReleaseFrom(f, i, view, keep, 0);
    ReleaseFromFollows(f, i, view, keep, 0, w);
    KeepDisplacedFollows(g, i, view, keep, w);
    FollowsTrans(f, g, KeepDisplaced(g, i, view, keep), w);
  }

  lemma EndGrabAtFollows(f: Forward, i: nat, view: View, keep: set<nat>, next: nat, w: Output)
    requires i < |f.devices|
    ensures Follows(f, EndGrabAt(f, i, view, keep, next), w)
  {
    var a := ReleaseOutputs(f, i, view, keep);
    var b := KeepDisplaced(a, i, view, {});
    var c := SetDevice(b, i, b.devices[i].Aim(view, next));
    ReleaseOutputsFollows(f, i, view, keep, w);
    KeepDisplacedFollows(a, i, view, {}, w);
    DeviceFollows(b, i, b.devices[i].Aim(view, next), w);
    EpochFollows(c, b.epoch + 1, 0, w);
    hide Follows, ReleaseOutputs, KeepDisplaced;
    FollowsTrans(f, a, b, w);
    FollowsTrans(f, b, c, w);
    FollowsTrans(f, c, c.(epoch := b.epoch + 1), w);
  }

  lemma EndGrabFollows(f: Forward, target: nat, w: Output)
    ensures Follows(f, EndGrab(f, target), w)
  {
    Stays(f, w);
    var found := Find(f, target, Enqueued);
    if found.Some? {
      var i := found.value;
      var keep, next := f.devices[i].enqueued.source, MakeTarget(f.serial, i);
      var g := EndGrabAt(f, i, Enqueued, keep, next);
      EndGrabAtFollows(f, i, Enqueued, keep, next, w);
      EpochFollows(g, 0, f.serial + 1, w);
      hide Follows, EndGrabAt;
      FollowsTrans(f, g, g.(serial := f.serial + 1), w);
    }
  }

  lemma ApplyEndGrabFollows(f: Forward, next: nat, held: Option<set<nat>>, w: Output)
    ensures Follows(f, ApplyEndGrab(f, next, held), w)
  {
    hide Follows, EndGrabAt;
    Stays(f, w);
    var slot := SlotOf(f, next);
    if slot.Some? {
      var i := slot.value;
      EndGrabAtFollows(f, i, Applied, if held.Some? then held.value else f.devices[i].applied.source, next, w);
    }
  }

  lemma CloseFollows(f: Forward, target: nat, w: Output)
    ensures Follows(f, Close(f, target), w)
  {
    Stays(f, w);
    var found := Find(f, target, Enqueued);
    if found.Some? {
      var i := found.value;
      var d := f.devices[i].(enqueued := NO_KEYS, targetE := 0, closing := true);
      DeviceFollows(f, i, d, w);
      EpochFollows(SetDevice(f, i, d), f.epoch + 1, 0, w);
      FollowsTrans(f, SetDevice(f, i, d), SetDevice(f, i, d).(epoch := f.epoch + 1), w);
    }
    hide Follows;
  }

  lemma ApplyCloseFollows(f: Forward, target: nat, w: Output)
    requires forall j :: 0 <= j < |f.devices| ==> KeysOk(f.devices[j].applied)
    ensures Follows(f, ApplyClose(f, target), w)
  {
    Stays(f, w);
    var slot := SlotOf(f, target);
    if slot.Some? && f.devices[slot.value].closing && f.devices[slot.value].Live() {
      var i := slot.value;
      var g := ReleaseOutputs(f, i, Applied, {});
      var d := g.devices[i];
      var e := if d.clone then d.(applied := NO_KEYS, enqueued := NO_KEYS, retiring := true) else FREE;
      ReleaseOutputsAt(f, i, Applied, {});
      assert d.applied.output == {};
      ReleaseOutputsFollows(f, i, Applied, {}, w);
      DeviceFollows(g, i, e, w);
      EpochFollows(SetDevice(g, i, e), g.epoch + 1, 0, w);
      hide Follows, ReleaseOutputs;
      FollowsTrans(f, g, SetDevice(g, i, e), w);
      FollowsTrans(f, SetDevice(g, i, e), SetDevice(g, i, e).(epoch := g.epoch + 1), w);
    }
    hide Follows;
  }

  lemma CollectFollows(f: Forward, i: nat, w: Output)
    ensures Follows(f, Collect(f, i), w)
  {
    Stays(f, w);
    if i < |f.devices| {
      DeviceFollows(f, i, FREE, w);
    }
    hide Follows;
  }

  lemma ShiftOneFollows(f: Forward, i: nat, code: nat, view: View, restore: bool, w: Output)
    requires i < |f.devices| && code <= KEY_MAX
    ensures Follows(f, ShiftOne(f, i, code, view, restore), w)
  {
    Stays(f, w);
    var d := f.devices[i];
    var k := d.At(view);
    var e := d.With(view, k.(displaced := Toggle(k.displaced, code, !restore && code in k.source)));
    DeviceFollows(f, i, e, w);
    SetOutputFollows(SetDevice(f, i, e), i, view, code, restore, w);
    hide Follows, SetOutput;
    FollowsTrans(f, SetDevice(f, i, e), SetOutput(SetDevice(f, i, e), i, view, code, restore), w);
  }

  lemma {:induction false} ShiftFromFollows(f: Forward, i: nat, code: nat, view: View, restore: bool, w: Output)
    requires i <= |f.devices| && code <= KEY_MAX
    ensures Follows(f, ShiftFrom(f, i, code, view, restore), w)
    decreases |f.devices| - i
  {
    hide Follows, ShiftOne;
    if i == |f.devices| {
      Stays(f, w);
    } else {
      var g := ShiftOne(f, i, code, view, restore);
      ShiftOneFollows(f, i, code, view, restore, w);
      ShiftOneFollows(g, i, ButtonAlias(code), view, restore, w);
      var h := ShiftSlot(f, i, code, view, restore);
      if h != g {
        FollowsTrans(f, g, h, w);
      }
      hide ShiftSlot;
      ShiftFromFollows(h, i + 1, code, view, restore, w);
      FollowsTrans(f, h, ShiftFrom(h, i + 1, code, view, restore), w);
    }
  }

  lemma ShiftKeyFollows(f: Forward, code: nat, view: View, restore: bool, w: Output)
    ensures Follows(f, ShiftKey(f, code, view, restore), w)
  {
    hide Follows, ShiftFrom;
    Stays(f, w);
    if code <= KEY_MAX {
      ShiftFromFollows(f, 0, code, view, restore, w);
    }
  }

  lemma {:induction false} ReleaseAllFollows(f: Forward, i: nat, view: View, w: Output)
    requires i <= |f.devices|
    ensures Follows(f, ReleaseAllFrom(f, i, view), w)
    decreases |f.devices| - i
  {
    hide Follows, ReleaseOutputs;
    Stays(f, w);
    if i < |f.devices| {
      var g := if f.devices[i].Live() then ReleaseOutputs(f, i, view, {}) else f;
      ReleaseOutputsFollows(f, i, view, {}, w);
      ReleaseAllFollows(g, i + 1, view, w);
      FollowsTrans(f, g, ReleaseAllFrom(g, i + 1, view), w);
    }
  }

  // ---------------------------------------------------------------- packets

  /** The sink is sent keyboard keys only. */
  predicate Routed(p: Packet) { !p.clone && KeyOf(p).Some? ==> IsKeyboardKey(KeyOf(p).value.code) }

  lemma SinkPacketFollows(f: Forward, i: nat, p: Packet, w: Output)
    requires i < |f.devices| && f.devices[i].keyboard && !p.clone && Routed(p)
    ensures Follows(f, WriteToSink(f, i, p), w)
  {
    var d := f.devices[i];
    SinkFollows(f, p.events, w);
    if KeyOf(p).Some? {
      var key := KeyOf(p).value;
      var e := d.(applied := d.applied.(output := Toggle(d.applied.output, key.code, key.value != 0)));
      var g := if key.value == 2 then f else SetDevice(f, i, e);
      Stays(f, w);
      assert Beyond(e) == Beyond(d);
      DeviceFollows(f, i, e, w);
      var h := WriteSink(g, [KeyEvent(key.code, 0)]);
      SinkFollows(g, p.events, w);
      SinkFollows(g, [KeyEvent(key.code, 0)], w);
      SinkFollows(h, p.events, w);
      hide Follows, WriteSink;
      FollowsTrans(f, g, h, w);
      FollowsTrans(f, g, WriteSink(g, p.events), w);
      FollowsTrans(f, h, WriteSink(h, p.events), w);
    }
    hide Follows, WriteSink;
  }

  /** A report whose only key is its last event, none of which the sink carries. */
  lemma ReportHeard(d: Device, i: nat, p: Packet)
    requires PacketOk(p) && p.clone && Suits(d.keyboard, d.clone, p)
    ensures var e := d.(applied := d.applied.(output := NoteWritten(d.applied.output, p.events, true)));
            Beyond(e) == Down(Beyond(d), CloneOuts(i, p.events), CloneOf(i))
  {
    var outs := CloneOuts(i, p.events);
    var out, e := d.applied.output, d.(applied := d.applied.(output := NoteWritten(d.applied.output, p.events, true)));
    if |p.events| == 2 {
      assert p.events[..1] == [p.events[0]] && p.events[..1][..0] == [] && outs[..1][..0] == [];
      assert NoteWritten(out, p.events[..1], true) == out && Down(Beyond(d), outs[..1], CloneOf(i)) == Beyond(d);
    } else if |p.events| == 1 {
      assert p.events[..0] == [] && outs[..0] == [];
    }
    if p.events != [] {
      var key := p.events[|p.events| - 1];
      assert NoteWritten(out, p.events, true) == NoteKey(out, key, true);
      assert Down(Beyond(d), outs, CloneOf(i)) == DownAfter(Beyond(d), key);
      assert Beyond(e) == DownAfter(Beyond(d), key);
    }
  }

  lemma ClonePacketFollows(f: Forward, i: nat, p: Packet, w: Output)
    requires i < |f.devices| && PacketOk(p) && p.clone && Suits(f.devices[i].keyboard, f.devices[i].clone, p)
    ensures Follows(f, WriteToClone(f, i, p), w)
  {
    var d := f.devices[i];
    var ok := !d.failed && d.budget.Accepts();
    var e := d.(applied := d.applied.(output := NoteWritten(d.applied.output, p.events, ok)));
    if ok {
      ReportHeard(d, i, p);
      CloneFollows(f, i, p.events, e, w);
      hide NoteWritten;
      assert WriteToClone(f, i, p) == WriteClone(SetDevice(f, i, e), i, p.events);
    } else {
      var g := SetDevice(f, i, e.(failed := true));
      DeviceFollows(f, i, e.(failed := true), w);
      hide NoteWritten;
      assert d.failed ==> d.(failed := true) == d;
      assert WriteToClone(f, i, p) == g;
    }
  }

  lemma WriteFollows(f: Forward, kinds: map<nat, Kind>, p: Packet, w: Output)
    requires DevicesOk(f, kinds) && PacketOk(p) && p.target in kinds && Routed(p)
    requires Suits(kinds[p.target].keyboard, kinds[p.target].clone, p)
    ensures Follows(f, Write(f, p), w)
  {
    Stays(f, w);
    var found := Find(f, p.target, Applied);
    if found.Some? {
      var i := found.value;
      assert DeviceOk(f.devices[i], i, f.serial, kinds);
      hide DevicesOk, Follows, WriteToSink, WriteToClone, Reconcile;
      if KeyOf(p).Some? {
        ReconcileFollows(f, KeyOf(p).value.code, w);
      }
      if p.clone {
        if f.devices[i].clone {
          ClonePacketFollows(f, i, p, w);
        }
      } else if f.devices[i].keyboard {
        SinkPacketFollows(f, i, p, w);
      }
    }
  }

  /** The packet releases a key that its source does not hold downstream. */
  predicate ReleasesNothing(d: Device, p: Packet) {
    && p.events != []
    && var e := p.events[|p.events| - 1];
       && e.kind == 1 && e.code <= KEY_MAX && e.value == 0
       && e.code !in d.applied.output && ButtonAlias(e.code) !in d.applied.output
  }

  /** A report for a clone that accepts it is written there, every event in order, unless it
      releases nothing. */
  lemma ReportsReachTheClone(f: Forward, p: Packet, i: nat)
    requires |p.events| <= 2 && Find(f, p.target, Applied) == Some(i) && p.clone && f.devices[i].clone
    requires !f.devices[i].failed && f.devices[i].budget.Accepts()
    ensures Write(f, p).trace == f.trace + if ReleasesNothing(f.devices[i], p) then [] else CloneOuts(i, p.events)
  {
    var d := f.devices[i];
    assert ReleasesNothing(d, p) <==>
           KeyOf(p).Some? && KeyOf(p).value.value == 0 && KeyOf(p).value.code !in d.applied.output
             && ButtonAlias(KeyOf(p).value.code) !in d.applied.output;
    hide ReleasesNothing, NoteWritten;
    assert f.trace + [] == f.trace;
  }

  /** Someone but slot i wants the key down. */
  predicate WantedElsewhere(f: Forward, i: nat, code: nat) {
    code in f.sink.synth || exists j :: 0 <= j < |f.devices| && j != i && f.devices[j].HoldsOnSink(code)
  }

  /** What a keyboard's packet writes to a sink that accepts it: a keystroke of a key that is
      down is retyped, unless it is a modifier or lock; a repeat passes while the key is
      down; and a release passes when nobody else wants the key. */
  function Expected(f: Forward, i: nat, p: Packet): seq<Event>
    requires i < |f.devices| && PacketOk(p)
  {
    if p.events == [] || !p.events[|p.events| - 1].IsKey() then p.events
    else
      var key := p.events[|p.events| - 1];
      var down := key.code in f.sink.down;
      if key.value == 2 then (if down then p.events else [])
      else if key.value == 1 then
        if !down then p.events else if IsModifierOrLock(key.code) then [] else [KeyEvent(key.code, 0)] + p.events
      else if WantedElsewhere(f, i, key.code) == down then []
      else if ReleasesNothing(f.devices[i], p) then [KeyEvent(key.code, if down then 0 else 1)]
      else p.events
  }

  lemma HeldElsewhere(f: Forward, i: nat, d: Device, code: nat)
    requires i < |f.devices|
    ensures Wanted(SetDevice(f, i, d), code) <==> WantedElsewhere(f, i, code) || d.HoldsOnSink(code)
    ensures Wanted(f, code) <==> WantedElsewhere(f, i, code) || f.devices[i].HoldsOnSink(code)
  {
    var g := SetDevice(f, i, d);
    if d.HoldsOnSink(code) {
      assert g.devices[i].HoldsOnSink(code);
    }
    if exists j :: 0 <= j < |f.devices| && j != i && f.devices[j].HoldsOnSink(code) {
      var j :| 0 <= j < |f.devices| && j != i && f.devices[j].HoldsOnSink(code);
      assert g.devices[j].HoldsOnSink(code);
    }
  }

  /** One trace continues the other with these events on the sink. */
  predicate WroteOnSink(before: seq<Out>, after: seq<Out>, events: seq<Event>) {
    && |after| == |before| + |events| && before <= after
    && forall k :: |before| <= k < |after| ==> after[k].ToSink? && after[k].event == events[k - |before|]
  }

  lemma SinkWrites(f: Forward, events: seq<Event>)
    requires f.sink.Steady()
    ensures WroteOnSink(f.trace, WriteSink(f, events).trace, events)
  {}

  lemma WritesThen(x: seq<Out>, y: seq<Out>, z: seq<Out>, a: seq<Event>, b: seq<Event>)
    requires WroteOnSink(x, y, a) && WroteOnSink(y, z, b)
    ensures WroteOnSink(x, z, a + b)
  {}

  lemma WritesNothing(x: seq<Out>)
    ensures WroteOnSink(x, x, [])
  {}

  lemma PressesWrite(f: Forward, i: nat, p: Packet)
    requires i < |f.devices| && f.devices[i].keyboard && f.devices[i].Live() && f.sink.Steady()
    requires PacketOk(p) && !p.clone && Routed(p) && KeyOf(p).Some? && !ReleasesNothing(f.devices[i], p)
    ensures WroteOnSink(f.trace, WriteToSink(f, i, p).trace, Expected(f, i, p))
  {
    var d, key := f.devices[i], KeyOf(p).value;
    var e := d.(applied := d.applied.(output := Toggle(d.applied.output, key.code, key.value != 0)));
    var g := if key.value == 2 then f else SetDevice(f, i, e);
    var h := WriteSink(g, [KeyEvent(key.code, 0)]);
    HeldElsewhere(f, i, e, key.code);
    SinkWrites(g, p.events);
    SinkWrites(g, [KeyEvent(key.code, 0)]);
    SinkWrites(h, p.events);
    WritesNothing(f.trace);
    WritesThen(g.trace, h.trace, WriteSink(h, p.events).trace, [KeyEvent(key.code, 0)], p.events);
    hide WriteSink, Wanted, WantedElsewhere, ReleasesNothing, WroteOnSink;
  }

  /** A keyboard's packet writes on a steady sink exactly what is expected of it. */
  lemma KeystrokesReachTheSink(f: Forward, p: Packet, i: nat)
    requires Find(f, p.target, Applied) == Some(i) && f.devices[i].Live() && f.devices[i].keyboard && f.sink.Steady()
    requires PacketOk(p) && !p.clone && Routed(p)
    ensures WroteOnSink(f.trace, Write(f, p).trace, Expected(f, i, p))
  {
    var d := f.devices[i];
    WritesNothing(f.trace);
    hide WroteOnSink;
    if KeyOf(p).None? {
      SinkWrites(f, p.events);
    } else {
      var key := KeyOf(p).value;
      HeldElsewhere(f, i, d, key.code);
      if ReleasesNothing(d, p) {
        SinkWrites(f, [KeyEvent(key.code, if Wanted(f, key.code) then 1 else 0)]);
        hide WriteSink, Wanted, WantedElsewhere;
      } else {
        PressesWrite(f, i, p);
        hide WriteToSink, Expected;
      }
    }
  }

  lemma NoteKeysFollows(f: Forward, p: Packet, view: View, source: bool, w: Output)
    requires PacketOk(p) && (view.Applied? ==> source)
    ensures Follows(f, NoteKeys(f, p, view, source), w)
  {
    NoteKeysAt(f, p, view, source);
    var g := NoteKeys(f, p, view, source);
    assert g.trace + [] == f.trace && g.mark == f.mark;
    Stays(f, w);
    match Find(f, p.target, view)
    case None =>
    case Some(i) =>
      hide NoteKeys;
      assert g.devices[i].applied.output == f.devices[i].applied.output;
      Unheard(f, g, [], w);
  }

  // ---------------------------------------------------------------- synthesis on the sink

  lemma SinkKeyFollows(f: Forward, code: nat, held: bool, w: Output)
    ensures Follows(f, SinkKey(f, code, held), w)
  {
    Stays(f, w);
    var g := f.(sink := f.sink.(synth := if held then f.sink.synth + {code} else f.sink.synth - {code}));
    assert f.trace + [] == f.trace;
    Unheard(f, g, [], w);
    ReconcileFollows(g, code, w);
    hide Follows, Reconcile;
    FollowsTrans(f, g, Reconcile(g, code), w);
  }

  lemma RepressFollows(f: Forward, code: nat, w: Output)
    ensures Follows(f, Repress(f, code), w)
  {
    hide Follows, WriteSink;
    Stays(f, w);
    var down := if code in f.sink.down then 1 else 0;
    SinkFollows(f, [KeyEvent(code, 1 - down), KeyEvent(code, down)], w);
  }

  lemma TapFollows(f: Forward, code: nat, w: Output)
    ensures Follows(f, Tap(f, code), w)
  {
    hide Follows, WriteSink;
    var down := if code in f.sink.down then 1 else 0;
    SinkFollows(f, [KeyEvent(code, 1 - down), KeyEvent(code, down)], w);
  }

  lemma {:induction false} TapAllFollows(f: Forward, keys: seq<nat>, w: Output)
    ensures Follows(f, TapAll(f, keys), w)
    decreases |keys|
  {
    hide Follows, Tap;
    Stays(f, w);
    if keys != [] {
      var g := Tap(f, keys[0]);
      TapFollows(f, keys[0], w);
      TapAllFollows(g, keys[1..], w);
      FollowsTrans(f, g, TapAll(g, keys[1..]), w);
    }
  }

  lemma {:induction false} ClearSynthFollows(f: Forward, code: nat, w: Output)
    ensures Follows(f, ClearSynth(f, code), w)
    decreases KEY_MAX + 1 - code
  {
    hide Follows, SinkKey;
    Stays(f, w);
    if code <= KEY_MAX {
      var g := if code in f.sink.synth then SinkKey(f, code, false) else f;
      SinkKeyFollows(f, code, false, w);
      ClearSynthFollows(g, code + 1, w);
      FollowsTrans(f, g, ClearSynth(g, code + 1), w);
    }
  }

  lemma StrikeFollows(f: Forward, w: Output)
    ensures Follows(f, StrikeEntry(f).fwd, w)
  {
    hide Follows, SinkKey, Tap, SinkKeyOk;
    var a := SinkKey(f, KEY_LEFTCTRL, true);
    var b := SinkKey(a, KEY_LEFTSHIFT, true);
    SinkKeyFollows(f, KEY_LEFTCTRL, true, w);
    SinkKeyFollows(a, KEY_LEFTSHIFT, true, w);
    TapFollows(b, KEY_U, w);
    FollowsTrans(f, a, b, w);
    FollowsTrans(f, b, Tap(b, KEY_U), w);
  }
}
