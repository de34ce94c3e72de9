/** What single operations do, stated key by key and event by event, so that what several of
    them share is said somewhere without them. */
module Effects {
  import opened Codes
  import opened Claims
  import opened Forwarding
  import opened Synthesis
  import opened Broker
  import opened Pointwise
  import opened SinkInvariant
  import opened SynthInvariant
  import opened BrokerInvariant
  import opened TwoViews
  import opened Refusals
  import opened Outputs
  import opened OutputRuns
  import opened Holders

  // ---------------------------------------------------------------- sources

  /** A packet is recorded of the source its target names: its last key, if it is pressed or
      released, in the set that was asked for; and letting go of a key forgets it as displaced. */
  lemma KeysAreRecorded(f: Forward, p: Packet, view: View, source: bool, i: nat)
    requires PacketOk(p) && i < |f.devices|
    ensures var d, e := f.devices[i].At(view), NoteKeys(f, p, view, source).devices[i].At(view);
            var named := Find(f, p.target, view) == Some(i) && p.events != [];
            var key := if p.events == [] then Event(0, 0, 0) else p.events[|p.events| - 1];
            var counts := named && key.kind == 1 && key.code <= KEY_MAX && key.value <= 1;
            && (forall c :: c in e.output <==>
                  if counts && !source && c == key.code then key.value == 1 else c in d.output)
            && (forall c :: c in e.source <==>
                  if counts && source && c == key.code then key.value == 1 else c in d.source)
            && (forall c :: c in e.displaced <==>
                  c in d.displaced && !(counts && source && c == key.code && key.value == 0))
  {
    NoteKeysAt(f, p, view, source);
    hide NoteKeys;
  }

  /** Both codes of a button, or the one code of any other key. */
  predicate SameKey(c: nat, code: nat) {
    c == code || (c == 0x113 && code == 0x116) || (c == 0x116 && code == 0x113)
      || (c == 0x114 && code == 0x115) || (c == 0x115 && code == 0x114)
  }

  /** A shift takes a key, under both its codes, from the output of every live source, and
      remembers it as displaced while the source holds it; or it gives back what is displaced.
      Nothing else changes. */
  lemma KeysAreShifted(f: Forward, code: nat, view: View, restore: bool, i: nat)
    requires i < |f.devices| && code <= KEY_MAX
    ensures var d, e := f.devices[i].At(view), ShiftKey(f, code, view, restore).devices[i].At(view);
            && e.source == d.source
            && (forall c :: c in e.output <==>
                  if f.devices[i].Live() && SameKey(c, code) then (restore && (c in d.output || c in d.displaced))
                    else c in d.output)
            && (forall c :: c in e.displaced <==>
                  if f.devices[i].Live() && SameKey(c, code)
                  then !restore && (if c in d.output then c in d.source else c in d.displaced) else c in d.displaced)
  {
    ShiftKeyAt(f, code, view, restore);
    hide ShiftKey;
  }

  lemma ClosedLeaves(f: Forward, kinds: map<nat, Kind>, target: nat)
    requires DevicesOk(f, kinds) && Find(f, target, Enqueued).Some?
    ensures var i, g := Find(f, target, Enqueued).value, ApplyClose(Close(f, target), target);
            |g.devices| == |f.devices| && (g.devices[i].retiring || g.devices[i] == FREE)
  {
    var i := Find(f, target, Enqueued).value;
    assert DeviceOk(f.devices[i], i, f.serial, kinds);
    hide ReleaseOutputs, DevicesOk;
  }

  lemma CollectedIsFree(f: Forward, i: nat)
    requires i < |f.devices| && (f.devices[i].retiring || f.devices[i] == FREE)
    ensures |Collect(f, i).devices| == |f.devices| && Collect(f, i).devices[i] == FREE
  {}

  lemma CloseSteps(s: State, target: nat, i: nat)
    requires s.queue == [] && Find(s.m.fwd, target, Enqueued) == Some(i)
    ensures var steps, g := [AdmitClose(target, true), ApplyNext, CollectSlot(i)], Close(s.m.fwd, target);
            && Legal(s, steps)
            && Run(s, steps).m.fwd == Collect(Maintain(s.m.(fwd := ApplyClose(g, target))).fwd, i)
  {
    var steps := [AdmitClose(target, true), ApplyNext, CollectSlot(i)];
    hide Maintain, Close, ApplyClose, Collect;
    var a := Next(s, steps[0]);
    assert a.queue[0] == CloseOf(target) && a.queue[1..] == [];
    var b := Next(a, steps[1]);
    assert b.m == Maintain(s.m.(fwd := ApplyClose(Close(s.m.fwd, target), target)));
    assert Enabled(b, steps[2]) && Next(b, steps[2]).m.fwd == Collect(b.m.fwd, i);
    hide Next, Enabled;
    assert steps[2..][1..] == [];
    OneStep(b, steps[2..]);
    OneStep(a, steps[1..]);
    OneStep(s, steps);
  }

  /** A source that closes with nothing queued before it leaves its slot free, its clone's once
      the clone's readers are done with it. */
  lemma SlotsComeBack(s: State, target: nat)
    requires Inv(s) && s.queue == [] && Find(s.m.fwd, target, Enqueued).Some?
    ensures var i := Find(s.m.fwd, target, Enqueued).value;
            var steps := [AdmitClose(target, true), ApplyNext, CollectSlot(i)];
            Legal(s, steps) && i < |Run(s, steps).m.fwd.devices| && Run(s, steps).m.fwd.devices[i] == FREE
  {
    var i := Find(s.m.fwd, target, Enqueued).value;
    assert DevicesOk(s.m.fwd, s.kinds);
    hide Inv, DevicesOk, Maintain, Close, ApplyClose, Collect, Legal, Run;
    var n := s.m.(fwd := ApplyClose(Close(s.m.fwd, target), target));
    ClosedLeaves(s.m.fwd, s.kinds, target);
    MaintainFrame(n);
    CollectedIsFree(Maintain(n).fwd, i);
    CloseSteps(s, target, i);
  }

  // ---------------------------------------------------------------- synthesized keys

  /** Recreated devices start over: nothing is held, nothing is down and nothing remains. */
  lemma RecreatedDevicesStartOver(m: Machine, d: Devices)
    requires MachineInv(m)
    ensures var g := Recreate(m, d);
            && g.fwd.sink == Sink(d.attached, false, d.sinkBudget, {}, {}) && g.budget == d.budget
            && g.applied == map[] && g.onAbs == {} && g.wheel == 0 && g.hwheel == 0
            && g.absReady == (d.attached && d.absReady) && g.failed == !d.attached
  {
    ReleaseGenericKeeps(m);
    hide ReleaseGeneric, MachineInv;
  }

  /** A synthesized press of a key that is down, by an owner that does not hold it yet, retypes
      the key before anything else, unless it is a modifier or lock. */
  lemma PressesRetype(m: Machine, key: nat, o: Owner)
    requires m.fwd.sink.Steady() && IsKeyboardKey(key) && !IsModifierOrLock(key)
    requires key in m.fwd.sink.down && !Holds(m.applied, o, key)
    ensures var f, g := m.fwd, SendKeyCode(m, key, true, o).fwd;
            && f.trace <= g.trace && |f.trace| + 2 <= |g.trace|
            && g.trace[|f.trace|].ToSink? && g.trace[|f.trace|].event == Event(1, key, 0)
            && g.trace[|f.trace| + 1].ToSink? && g.trace[|f.trace| + 1].event == Event(1, key, 1)
  {
    var g := m.(fwd := Repress(m.fwd, key));
    assert CanonicalButton(key) == key && key <= KEY_MAX;
    assert g.fwd.trace == m.fwd.trace + Stamp(m.fwd, [KeyEvent(key, 0), KeyEvent(key, 1)]);
    hide Repress, ApplyKey, UpdateGeneric;
    var k := ApplyKey(g.fwd, g.applied, Applied, key, true, true, o);
    var h := g.(fwd := k.fwd, applied := k.table);
    KeyStirs(g, key, true, true, o, AbsoluteDevice);
    UpdateStirs(h, key, AbsoluteDevice);
    hide Fine, HasDown, Down, Unmoving;
    assert g.fwd.trace <= h.fwd.trace <= UpdateGeneric(h, key).m.fwd.trace;
  }

  /** Unless it gives a displaced key back or finds the claims full, a synthesized press leaves
      the key down on the sink. */
  lemma PressesHold(m: Machine, key: nat, o: Owner)
    requires MachineInv(m) && IsKeyboardKey(key) && Fits(m.applied, o) && key !in m.fwd.orphans
    requires !ShiftsAny(m.fwd, key, Applied, true)
    ensures var g := SendKeyCode(m, key, true, o);
            key in g.fwd.sink.down && forall c :: Holds(g.applied, o, c) <==> c == key || Holds(m.applied, o, c)
  {
    var n := if !Holds(m.applied, o, key) then m.(fwd := Repress(m.fwd, key)) else m;
    assert CanonicalButton(key) == key && key <= KEY_MAX;
    assert n.fwd.devices == m.fwd.devices && n.fwd.orphans == m.fwd.orphans;
    SendKeyCodeKeeps(m, key, true, o);
    hide ShiftsAny, ShiftKey, Repress, UpdateGeneric, MachineInv, Hold;
    SameShifts(m.fwd, n.fwd, key);
    var k := ApplyKey(n.fwd, n.applied, Applied, key, true, true, o);
    var g := SendKeyCode(m, key, true, o);
    assert k == Keyed(n.fwd, Hold(m.applied, o, key), true);
    assert g.applied == Hold(m.applied, o, key);
    UpdateOrphans(n, k, key);
    HeldIsDown(g, m.applied, o, key);
  }

  lemma UpdateOrphans(m: Machine, k: Keyed, code: nat)
    ensures UpdateGeneric(m.(fwd := k.fwd, applied := k.table), code).m.fwd.orphans == k.fwd.orphans
  {}

  lemma HeldIsDown(g: Machine, before: Table, o: Owner, key: nat)
    requires MachineInv(g) && g.applied == Hold(before, o, key) && Fits(before, o) && key !in g.fwd.orphans
    requires IsKeyboardKey(key)
    ensures key in g.fwd.sink.down && forall c :: Holds(g.applied, o, c) <==> c == key || Holds(before, o, c)
  {
    hide SinkInv;
    assert Holds(g.applied, o, key);
    assert Held(g.applied, key) && key !in g.onAbs;
    WantedIsDown(g.fwd, key);
  }

  lemma WantedIsDown(f: Forward, c: nat)
    requires SinkInv(f) && Wanted(f, c) && c !in f.orphans
    ensures c in f.sink.down
  {}

  // ---------------------------------------------------------------- clicks

  /** The button a flag presses. */
  function PressOf(f: MouseFlag): nat { if f == LeftDown then 0x110 else if f == RightDown then 0x111 else 0x112 }

  lemma OnePress(i: Input, f: MouseFlag)
    requires i.Mouse? && f in {LeftDown, RightDown, MiddleDown} && f in i.flags && i.flags <= {Move, Absolute, f}
    ensures Transitions(i) == [Transition(Some(PressOf(f)), true)]
  {}

  lemma MoveTrace(m: Machine, i: Input)
    requires Flowing(m) && m.absReady && i.Mouse? && Move in i.flags && Absolute in i.flags
    ensures var s := Motion(m, i);
            && s.ok && s.m == m.(fwd := s.m.fwd) && s.m.fwd == m.fwd.(trace := s.m.fwd.trace)
            && s.m.fwd.trace == m.fwd.trace + [ToAbsolute(Event(3, 0, i.dx)), ToAbsolute(Event(3, 1, i.dy))]
  {}

  lemma PressTrace(m: Machine, b: nat, o: Owner)
    requires Flowing(m) && m.absReady && IsTracked(b) && !Held(m.applied, b) && Fits(m.applied, o)
    ensures RouteButtons(m, [Transition(Some(b), true)], true, o).m.fwd.trace ==
            m.fwd.trace + [ToAbsolute(Event(1, b, 1))]
  {
    HoldHeld(m.applied, o, b);
    hide Hold, Held, Fits, ShiftKey, ShiftsAny;
    var s := RouteButton(m, b, true, true, o);
    assert s.ok && s.m.fwd.trace == m.fwd.trace + [ToAbsolute(Event(1, b, 1))];
    hide RouteButton;
    assert [Transition(Some(b), true)][1..] == [];
  }

  /** A press that comes with an absolute move is written on the absolute device, after the
      move. */
  lemma ClicksLandOnTheMove(m: Machine, i: Input, f: MouseFlag, o: Owner)
    requires Flowing(m) && m.absReady && i.Mouse? && f in {LeftDown, RightDown, MiddleDown}
    requires i.flags == {Move, Absolute, f} && !Held(m.applied, PressOf(f)) && Fits(m.applied, o)
    ensures SendMouse(m, i, false, o).m.fwd.trace == m.fwd.trace +
            [ToAbsolute(Event(3, 0, i.dx)), ToAbsolute(Event(3, 1, i.dy)), ToAbsolute(Event(1, PressOf(f), 1))]
  {
    hide Motion, Transitions, RouteButtons, Held, Fits;
    OnePress(i, f);
    MoveTrace(m, i);
    PressTrace(Motion(m, i).m, PressOf(f), o);
  }

  lemma RelativeTrace(m: Machine, i: Input)
    requires Flowing(m) && i.Mouse? && Move in i.flags && Absolute !in i.flags
    ensures var s := Motion(m, i);
            && s.ok && s.m == m.(fwd := s.m.fwd) && s.m.fwd == m.fwd.(trace := s.m.fwd.trace)
            && s.m.fwd.trace == m.fwd.trace + (if i.dx == 0 then [] else [ToPointer(Event(2, 0, i.dx))])
               + if i.dy == 0 then [] else [ToPointer(Event(2, 1, i.dy))]
  {}

  lemma SameShifts(f: Forward, g: Forward, code: nat)
    requires g.devices == f.devices
    ensures ShiftsAny(g, code, Applied, true) == ShiftsAny(f, code, Applied, true)
  {}

  lemma SinkPressTrace(m: Machine, b: nat, o: Owner)
    requires Flowing(m) && b <= KEY_MAX && b !in m.onAbs && b !in m.fwd.sink.down && Fits(m.applied, o)
    requires !ShiftsAny(m.fwd, b, Applied, true)
    ensures RouteButtons(m, [Transition(Some(b), true)], false, o).m.fwd.trace ==
            m.fwd.trace + [ToSink(Event(1, b, 1), true)]
  {
    HoldHeld(m.applied, o, b);
    var g := m.(applied := Hold(m.applied, o, b));
    hide Hold, Held, Fits, ShiftKey, ShiftsAny;
    assert RouteButton(m, b, true, false, o) == UpdateGeneric(g, b);
    SinkUpdateTrace(g, b);
    hide RouteButton, UpdateGeneric;
    assert [Transition(Some(b), true)][1..] == [];
  }

  lemma SinkUpdateTrace(m: Machine, b: nat)
    requires Flowing(m) && b <= KEY_MAX && b !in m.onAbs && b !in m.fwd.sink.down && Held(m.applied, b)
    ensures var s := UpdateGeneric(m, b); s.ok && s.m.fwd.trace == m.fwd.trace + [ToSink(Event(1, b, 1), true)]
  {
    hide Held;
    var f := m.fwd.(sink := m.fwd.sink.(synth := m.fwd.sink.synth + {b}));
    assert Wanted(f, b) && Stamp(f, [KeyEvent(b, 1)]) == [ToSink(KeyEvent(b, 1), true)];
  }

  /** A press that comes with a relative move, and gives no displaced button back, is written
      on the sink, after the move. */
  lemma ClicksGoToTheSink(m: Machine, i: Input, f: MouseFlag, o: Owner)
    requires Flowing(m) && i.Mouse? && f in {LeftDown, RightDown, MiddleDown} && i.flags == {Move, f}
    requires PressOf(f) !in m.onAbs && PressOf(f) !in m.fwd.sink.down && Fits(m.applied, o)
    requires !ShiftsAny(m.fwd, PressOf(f), Applied, true)
    ensures SendMouse(m, i, false, o).m.fwd.trace ==
            m.fwd.trace + (if i.dx == 0 then [] else [ToPointer(Event(2, 0, i.dx))])
            + (if i.dy == 0 then [] else [ToPointer(Event(2, 1, i.dy))]) + [ToSink(Event(1, PressOf(f), 1), true)]
  {
    hide Motion, Transitions, RouteButtons, Fits, ShiftsAny;
    OnePress(i, f);
    RelativeTrace(m, i);
    var a := Motion(m, i).m;
    SameShifts(m.fwd, a.fwd, PressOf(f));
    SinkPressTrace(a, PressOf(f), o);
    assert !MovesAbsolutely(i);
  }

  // ---------------------------------------------------------------- flags

  /** The input presses the button, by the flags of the hook interface. */
  predicate PressedBy(i: Input, b: nat)
    requires i.Mouse?
  {
    || (LeftDown in i.flags && b == 0x110) || (RightDown in i.flags && b == 0x111)
    || (MiddleDown in i.flags && b == 0x112) || (XDown in i.flags && i.data / 0x10000 == 1 && b == 0x113)
    || (XDown in i.flags && i.data / 0x10000 == 2 && b == 0x114)
  }

  predicate ReleasedBy(i: Input, b: nat)
    requires i.Mouse?
  {
    || (LeftUp in i.flags && b == 0x110) || (RightUp in i.flags && b == 0x111)
    || (MiddleUp in i.flags && b == 0x112) || (XUp in i.flags && i.data / 0x10000 == 1 && b == 0x113)
    || (XUp in i.flags && i.data / 0x10000 == 2 && b == 0x114)
  }

  lemma FlagsAreTransitions(i: Input, b: nat)
    requires i.Mouse?
    ensures Presses(Transitions(i), b) <==> PressedBy(i, b)
    ensures Releases(Transitions(i), b) <==> ReleasedBy(i, b)
  {
    var l := PressAndRelease(i.flags, LeftDown, LeftUp, Some(BTN_LEFT));
    var r := PressAndRelease(i.flags, RightDown, RightUp, Some(BTN_RIGHT));
    var c := PressAndRelease(i.flags, MiddleDown, MiddleUp, Some(BTN_MIDDLE));
    var x := PressAndRelease(i.flags, XDown, XUp, XButton(i.data));
    assert Transitions(i) == l + r + c + x;
    hide Transitions;
    assert forall t :: t in l + r + c + x <==> t in l || t in r || t in c || t in x;
    PairHas(i.flags, LeftDown, LeftUp, Some(BTN_LEFT));
    PairHas(i.flags, RightDown, RightUp, Some(BTN_RIGHT));
    PairHas(i.flags, MiddleDown, MiddleUp, Some(BTN_MIDDLE));
    PairHas(i.flags, XDown, XUp, XButton(i.data));
    hide PressAndRelease;
  }

  lemma PairHas(flags: set<MouseFlag>, press: MouseFlag, release: MouseFlag, button: Option<nat>)
    requires button.Some? ==> BTN_LEFT <= button.value <= BTN_EXTRA
    ensures forall t :: t in PressAndRelease(flags, press, release, button) <==>
              t.button == button && (if t.down then press in flags else release in flags)
  {
    forall t
      ensures t in PressAndRelease(flags, press, release, button) <==>
              t.button == button && (if t.down then press in flags else release in flags)
    {
      assert t == Transition(t.button, t.down);
    }
  }

  /** The transitions of one input, none of which gives a displaced button back. */
  lemma {:induction false} NotedHolds(f: Forward, t: Table, ts: seq<Transition>, o: Owner, b: nat)
    requires Paired(ts) && Room(t, o)
    ensures Holds(NoteButtons(f, t, ts, true, o).table, o, b) <==>
            !Releases(ts, b) && (Presses(ts, b) || Holds(t, o, b))
    decreases |ts|
  {
    if ts != [] {
      var x, rest := ts[0], ts[1..];
      assert forall k :: 0 <= k < |rest| ==> rest[k] == ts[k + 1];
      assert forall y :: y in ts <==> y == x || y in rest;
      hide ApplyKey;
      if x.button.None? {
        NotedHolds(f, t, rest, o, b);
      } else {
        var k := ApplyKey(f, t, Enqueued, x.button.value, x.down, false, o);
        RoomKept(f, t, Enqueued, x.button.value, x.down, false, o);
        TransitionHolds(f, t, Enqueued, x.button.value, x.down, false, o);
        hide Room, Holds;
        NotedHolds(k.fwd, k.table, rest, o, b);
        assert forall y :: y in rest && y.button == x.button ==> x.down && !y.down;
      }
    }
  }

  /** After an input that follows an absolute move its owner holds exactly the buttons it does
      not release and either presses or held before. */
  lemma ButtonsAreHeldAsFlagged(vk: map<nat, nat>, f: Forward, t: Table, i: Input, o: Owner)
    requires i.Mouse? && Room(t, o)
    ensures forall b :: Holds(NoteInput(vk, f, t, i, true, o).table, o, b) <==>
              !ReleasedBy(i, b) && (PressedBy(i, b) || Holds(t, o, b))
  {
    TransitionsPaired(i);
    hide Transitions, NoteButtons, Paired, Room;
    forall b
      ensures Holds(NoteInput(vk, f, t, i, true, o).table, o, b) <==>
              !ReleasedBy(i, b) && (PressedBy(i, b) || Holds(t, o, b))
    {
      NotedHolds(f, t, Transitions(i), o, b);
      FlagsAreTransitions(i, b);
    }
  }

  // ---------------------------------------------------------------- dead owners

  /** An owner that names a grab lives exactly as long as its slot is that grab's in the view,
      is not retiring and has a clone that works. */
  lemma OwnersLiveWithTheirGrab(f: Forward, o: Owner, view: View)
    ensures !IsDead(f, o, view) <==>
            || o.target == 0
            || exists i :: && 0 <= i < |f.devices| && i + 1 == o.target % 256 && !f.devices[i].retiring
                           && !f.devices[i].failed
                           && o.target == if view.Applied? then f.devices[i].targetA else f.devices[i].targetE
  {}

  /** The key-up of a key, or the release of a button. */
  predicate LetsGo(vk: map<nat, nat>, i: Input, b: nat) {
    if i.Mouse? then ReleasedBy(i, b)
    else Up in i.keyFlags && Resolve(vk, i).Some? && Resolve(vk, i).value <= KEY_MAX
           && b == CanonicalButton(Resolve(vk, i).value)
  }

  ghost predicate Shrinks(t: Table, u: Table) { forall p, c :: Holds(u, p, c) ==> Holds(t, p, c) }

  lemma {:induction false} ReleasesShrink(f: Forward, t: Table, ts: seq<Transition>, moved: bool, o: Owner, b: nat)
    requires forall x :: x in ts ==> !x.down
    ensures var u := NoteButtons(f, t, ts, moved, o).table; Shrinks(t, u) && (Releases(ts, b) ==> !Holds(u, o, b))
    decreases |ts|
  {
    if ts != [] {
      var x, rest := ts[0], ts[1..];
      assert x in ts && forall y :: y in ts <==> y == x || y in rest;
      hide ApplyKey;
      if x.button.None? {
        ReleasesShrink(f, t, rest, moved, o, b);
      } else {
        var k := ApplyKey(f, t, Enqueued, x.button.value, false, !moved, o);
        TransitionHolds(f, t, Enqueued, x.button.value, false, !moved, o);
        hide Holds;
        ReleasesShrink(k.fwd, k.table, rest, moved, o, b);
      }
    }
  }

  lemma DeadInputShrinks(vk: map<nat, nat>, f: Forward, t: Table, i: Input, moved: bool, o: Owner, b: nat)
    requires Played(i, true).Some?
    ensures var u := NoteInput(vk, f, t, Played(i, true).value, moved, o).table;
            Shrinks(t, u) && (LetsGo(vk, i, b) ==> !Holds(u, o, b))
  {
    var k := Played(i, true).value;
    if i.Mouse? {
      FlagsAreTransitions(k, b);
      NoPresses(k);
      hide Transitions, NoteButtons, Holds;
      ReleasesShrink(f, t, Transitions(k), moved || MovesAbsolutely(k), o, b);
    } else {
      hide ApplyKey, Resolve;
      if Resolve(vk, i).Some? && Resolve(vk, i).value <= KEY_MAX {
        TransitionHolds(f, t, Enqueued, CanonicalButton(Resolve(vk, i).value), false, true, o);
      }
    }
  }

  lemma NoPresses(i: Input)
    requires i.Mouse? && i.flags !! {LeftDown, RightDown, MiddleDown, XDown}
    ensures forall x :: x in Transitions(i) ==> !x.down
  {
    var l := PressAndRelease(i.flags, LeftDown, LeftUp, Some(BTN_LEFT));
    var r := PressAndRelease(i.flags, RightDown, RightUp, Some(BTN_RIGHT));
    var c := PressAndRelease(i.flags, MiddleDown, MiddleUp, Some(BTN_MIDDLE));
    var x := PressAndRelease(i.flags, XDown, XUp, XButton(i.data));
    assert Transitions(i) == l + r + c + x;
    assert LeftDown !in i.flags && RightDown !in i.flags && MiddleDown !in i.flags && XDown !in i.flags;
  }

  /** What a dead owner sends gives nobody a hold, and still ends its own holds of whatever it
      lets go of. */
  lemma {:induction false} DeadOwnersOnlyRelease(vk: map<nat, nat>, f: Forward, t: Table, inputs: seq<Input>,
                                                 moved: bool, o: Owner, b: nat)
    ensures var u := NoteInputs(vk, f, t, inputs, true, moved, o).table;
            && Shrinks(t, u)
            && ((exists k :: 0 <= k < |inputs| && LetsGo(vk, inputs[k], b)) ==> !Holds(u, o, b))
    decreases |inputs|
  {
    if inputs != [] {
      var i, rest := inputs[0], inputs[1..];
      var played := Played(i, true);
      assert forall k :: 0 <= k < |rest| ==> rest[k] == inputs[k + 1];
      if played.None? {
        NothingLetGo(vk, i, b);
        hide LetsGo, Holds;
        DeadOwnersOnlyRelease(vk, f, t, rest, moved, o, b);
      } else {
        DeadInputShrinks(vk, f, t, i, moved, o, b);
        hide NoteInput, LetsGo, Holds, Played;
        var k := NoteInput(vk, f, t, played.value, moved, o);
        DeadOwnersOnlyRelease(vk, k.fwd, k.table, rest, moved || MovesAbsolutely(played.value), o, b);
      }
    }
  }

  lemma NothingLetGo(vk: map<nat, nat>, i: Input, b: nat)
    requires Played(i, true).None?
    ensures !LetsGo(vk, i, b)
  {
    if i.Mouse? {
      assert i.flags * {LeftUp, RightUp, MiddleUp, XUp} == {};
      assert forall f :: f in {LeftUp, RightUp, MiddleUp, XUp} && f in i.flags ==>
               f in i.flags * {LeftUp, RightUp, MiddleUp, XUp};
    }
  }

  // ---------------------------------------------------------------- scan codes

  /** The scan code that set 1 sends, after its prefix, for an extended key. */
  function ExtendedCode(key: nat): nat {
    if key == 96 then 0x1C else if key == 97 then 0x1D else if key == 98 then 0x35 else if key == 99 then 0x37
    else if key == 100 then 0x38 else if 102 <= key <= 104 then 0x47 + (key - 102)
    else if key == 105 then 0x4B else if key == 106 then 0x4D else if 107 <= key <= 111 then 0x4F + (key - 107)
    else if 125 <= key <= 127 then 0x5B + (key - 125) else 0
  }

  /** A keyboard input names its key by its scan code, if it asks for that and the code is
      known; otherwise by its virtual key; and a unit of text names none. */
  lemma InputsNameTheirKey(vk: map<nat, nat>, i: Input, key: nat)
    requires i.Keyboard? && Unicode !in i.keyFlags
    ensures ScanCode in i.keyFlags && Extended in i.keyFlags && i.scan == ExtendedCode(key) != 0 ==>
              Resolve(vk, i) == Some(key)
    ensures ScanCode in i.keyFlags && Extended !in i.keyFlags && 0 < i.scan <= KEY_MAX ==>
              Resolve(vk, i) == Some(i.scan)
    ensures ScanCode !in i.keyFlags && !(i.vk == 0x0D && Extended in i.keyFlags) ==>
              Resolve(vk, i) == if i.vk in vk then Some(vk[i.vk]) else None
    ensures ScanCode !in i.keyFlags && i.vk == 0x0D && Extended in i.keyFlags ==> Resolve(vk, i) == Some(96)
    ensures (ScanCode in i.keyFlags && Extended in i.keyFlags && i.vk != 0x0D && Resolve(map[], i) == Some(key)) ==>
              ExtendedCode(key) == i.scan
  {}
}
