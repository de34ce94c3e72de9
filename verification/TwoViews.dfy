/** The two bookkeepings have one meaning: mirroring what is still queued on top of the
    written view gives the admitted view, in every state of every FIFO run. */
module TwoViews {
  import opened Codes
  import opened Claims
  import opened Forwarding
  import opened Synthesis
  import opened Broker
  import opened Pointwise
  import opened ViewModel
  import opened BrokerInvariant

  // ---------------------------------------------------------------- sources

  lemma LocateFind(f: Forward, kinds: map<nat, Kind>, target: nat, view: View)
    requires DevicesOk(f, kinds) && target != 0
    ensures Locate(SlotsAt(f, view), target) == Find(f, target, view)
  {
    var slot := SlotOf(f, target);
    if slot.Some? {
      assert DeviceOk(f.devices[slot.value], slot.value, f.serial, kinds);
    }
  }

  function Other(view: View): View { if view.Applied? then Enqueued else Applied }

  /** No clone has failed or will refuse a write. */
  predicate Healthy(f: Forward) {
    forall j :: 0 <= j < |f.devices| ==> !f.devices[j].failed && f.devices[j].budget.Endless?
  }

  /** What happens in one view happens in that view alone. */
  predicate Apart(f: Forward, g: Forward, view: View) {
    SlotsAt(g, Other(view)) == SlotsAt(f, Other(view)) && (Healthy(f) ==> Healthy(g))
  }

  lemma BecameApart(f: Forward, g: Forward, view: View)
    requires |g.devices| == |f.devices|
    requires forall j :: 0 <= j < |f.devices| ==> Became(f.devices[j], g.devices[j], view, g.devices[j].At(view))
    ensures Apart(f, g, view)
  {
    forall j | 0 <= j < |f.devices|
      ensures SlotsAt(g, Other(view))[j] == SlotsAt(f, Other(view))[j]
    {
      assert Became(f.devices[j], g.devices[j], view, g.devices[j].At(view));
    }
    if Healthy(f) {
      forall j | 0 <= j < |g.devices|
        ensures !g.devices[j].failed && g.devices[j].budget.Endless?
      {
        assert Became(f.devices[j], g.devices[j], view, g.devices[j].At(view));
      }
    }
  }

  lemma BecameAtApart(f: Forward, g: Forward, i: nat, view: View, k: Keys)
    requires i < |f.devices| && BecameAt(f, g, i, view, k)
    ensures Apart(f, g, view)
  {
    BecameApart(f, g, view);
  }

  /** One slot's view becomes k. */
  lemma SlotBecame(f: Forward, g: Forward, i: nat, view: View, k: Keys)
    requires i < |f.devices| && BecameAt(f, g, i, view, k) && SlotAt(f.devices[i], view).Some?
    ensures SlotsAt(g, view) == SetKeys(SlotsAt(f, view), i, k)
  {
    var a, b := SlotsAt(g, view), SetKeys(SlotsAt(f, view), i, k);
    forall j | 0 <= j < |a|
      ensures a[j] == b[j]
    {
      if j == i {
        assert a[i] == Some(SlotAt(f.devices[i], view).value.(keys := k));
      }
    }
  }

  lemma NotedView(f: Forward, kinds: map<nat, Kind>, p: Packet, view: View, source: bool)
    requires DevicesOk(f, kinds) && PacketOk(p) && p.target != 0
    ensures SlotsAt(NoteKeys(f, p, view, source), view) == NotePacket(SlotsAt(f, view), p, source)
    ensures Apart(f, NoteKeys(f, p, view, source), view)
  {
    LocateFind(f, kinds, p.target, view);
    NoteKeysAt(f, p, view, source);
    match Find(f, p.target, view)
    case None =>
    case Some(i) =>
      var k := f.devices[i].At(view);
      SlotBecame(f, NoteKeys(f, p, view, source), i, view, if source then NoteSource(k, p) else PacketOutput(k, p));
      BecameAtApart(f, NoteKeys(f, p, view, source), i, view, if source then NoteSource(k, p) else PacketOutput(k, p));
  }

  lemma WrittenPacketView(f: Forward, kinds: map<nat, Kind>, p: Packet)
    requires DevicesOk(f, kinds) && PacketOk(p) && p.target in kinds && p.target != 0
    requires Suits(kinds[p.target].keyboard, kinds[p.target].clone, p)
    requires Healthy(f)
    ensures SlotsAt(Write(f, p), Applied) == NotePacket(SlotsAt(f, Applied), p, false)
    ensures Apart(f, Write(f, p), Applied)
  {
    LocateFind(f, kinds, p.target, Applied);
    WriteAt(f, p);
    hide Write;
    match Find(f, p.target, Applied)
    case None =>
    case Some(i) =>
      assert DeviceOk(f.devices[i], i, f.serial, kinds);
      SlotBecame(f, Write(f, p), i, Applied, PacketOutput(f.devices[i].applied, p));
      BecameAtApart(f, Write(f, p), i, Applied, PacketOutput(f.devices[i].applied, p));
  }

  lemma ShiftedView(f: Forward, kinds: map<nat, Kind>, code: nat, view: View, restore: bool)
    requires DevicesOk(f, kinds)
    ensures SlotsAt(ShiftKey(f, code, view, restore), view) == ShiftAll(SlotsAt(f, view), code, restore)
    ensures Apart(f, ShiftKey(f, code, view, restore), view)
  {
    ShiftKeyAt(f, code, view, restore);
    hide ShiftKey;
    var g := ShiftKey(f, code, view, restore);
    forall j | 0 <= j < |f.devices|
      ensures SlotsAt(g, view)[j] == ShiftAll(SlotsAt(f, view), code, restore)[j]
    {
      assert Became(f.devices[j], g.devices[j], view, ShiftedKeys(f.devices[j], code, view, restore));
    }
    BecameApart(f, g, view);
  }

  lemma ShiftsAnyView(f: Forward, kinds: map<nat, Kind>, code: nat, view: View)
    requires DevicesOk(f, kinds)
    ensures ShiftsAny(f, code, view, true) <==> Restorable(SlotsAt(f, view), code)
  {
    forall j | 0 <= j < |f.devices|
      ensures Shifts(f.devices[j], code, view, true) <==> HasDisplaced(SlotsAt(f, view)[j], code)
    {
      assert DeviceOk(f.devices[j], j, f.serial, kinds);
    }
    if ShiftsAny(f, code, view, true) {
      var j :| 0 <= j < |f.devices| && Shifts(f.devices[j], code, view, true);
      assert HasDisplaced(SlotsAt(f, view)[j], code);
    }
    if Restorable(SlotsAt(f, view), code) {
      var j :| 0 <= j < |f.devices| && HasDisplaced(SlotsAt(f, view)[j], code);
      assert Shifts(f.devices[j], code, view, true);
    }
  }

  /** A key transition means the same in either view, whatever it wrote. */
  lemma KeyedView(f: Forward, kinds: map<nat, Kind>, t: Table, view: View, code: nat, down: bool, restore: bool,
                  o: Owner)
    requires DevicesOk(f, kinds)
    ensures var k := ApplyKey(f, t, view, code, down, restore, o);
            && ViewState(SlotsAt(k.fwd, view), k.table) ==
               PressOrRelease(ViewState(SlotsAt(f, view), t), code, down, restore, o)
            && Apart(f, k.fwd, view)
  {
    ShiftsAnyView(f, kinds, code, view);
    ShiftedView(f, kinds, code, view, down);
    hide ShiftKey, ShiftsAny, Restorable, SlotsAt, ShiftAll;
  }

  lemma EmptiedView(f: Forward, kinds: map<nat, Kind>, view: View)
    requires DevicesOk(f, kinds)
    ensures SlotsAt(ReleaseAllFrom(f, 0, view), view) == EmptyAll(SlotsAt(f, view))
    ensures Apart(f, ReleaseAllFrom(f, 0, view), view)
  {
    KeysFit(f, kinds);
    ReleaseAllAt(f, 0, view);
    hide ReleaseAllFrom;
    var g := ReleaseAllFrom(f, 0, view);
    forall j | 0 <= j < |f.devices|
      ensures SlotsAt(g, view)[j] == EmptyAll(SlotsAt(f, view))[j]
    {
      assert Became(f.devices[j], g.devices[j], view, Emptied(f.devices[j], view));
    }
    BecameApart(f, g, view);
  }

  // ---------------------------------------------------------------- admitted batches

  lemma {:induction false} NoteButtonsView(f: Forward, kinds: map<nat, Kind>, t: Table, ts: seq<Transition>,
                                           moved: bool, o: Owner)
    requires DevicesOk(f, kinds)
    ensures var k := NoteButtons(f, t, ts, moved, o);
            && ViewState(SlotsAt(k.fwd, Enqueued), k.table) == Buttons(ViewState(SlotsAt(f, Enqueued), t), ts, moved, o)
            && DevicesOk(k.fwd, kinds) && Apart(f, k.fwd, Enqueued)
    decreases |ts|
  {
    hide ApplyKey, DevicesOk, SlotsAt, PressOrRelease, Healthy;
    if ts != [] {
      if ts[0].button.None? {
        NoteButtonsView(f, kinds, t, ts[1..], moved, o);
      } else {
        var k := ApplyKey(f, t, Enqueued, ts[0].button.value, ts[0].down, !moved, o);
        KeyedView(f, kinds, t, Enqueued, ts[0].button.value, ts[0].down, !moved, o);
        ApplyKeyOk(f, kinds, t, Enqueued, ts[0].button.value, ts[0].down, !moved, o);
        NoteButtonsView(k.fwd, kinds, k.table, ts[1..], moved, o);
      }
    }
  }

  lemma NoteInputView(vkTable: map<nat, nat>, f: Forward, kinds: map<nat, Kind>, t: Table, i: Input, moved: bool,
                      o: Owner)
    requires DevicesOk(f, kinds) && forall v :: v in vkTable ==> vkTable[v] <= KEY_MAX
    ensures var k := NoteInput(vkTable, f, t, i, moved, o);
            && ViewState(SlotsAt(k.fwd, Enqueued), k.table) ==
               OneInput(vkTable, ViewState(SlotsAt(f, Enqueued), t), i, moved, o)
            && DevicesOk(k.fwd, kinds) && Apart(f, k.fwd, Enqueued)
  {
    hide ApplyKey, DevicesOk, SlotsAt, PressOrRelease, Healthy, NoteButtons, Buttons, Transitions;
    if i.Mouse? {
      NoteButtonsView(f, kinds, t, Transitions(i), moved || MovesAbsolutely(i), o);
    } else if Resolve(vkTable, i).Some? {
      var code := Resolve(vkTable, i).value;
      KeyedView(f, kinds, t, Enqueued, CanonicalButton(code), Up !in i.keyFlags, true, o);
      ApplyKeyOk(f, kinds, t, Enqueued, CanonicalButton(code), Up !in i.keyFlags, true, o);
    }
  }

  lemma {:induction false} NoteInputsView(vkTable: map<nat, nat>, f: Forward, kinds: map<nat, Kind>, t: Table,
                                          inputs: seq<Input>, dead: bool, moved: bool, o: Owner)
    requires DevicesOk(f, kinds) && forall v :: v in vkTable ==> vkTable[v] <= KEY_MAX
    ensures var k := NoteInputs(vkTable, f, t, inputs, dead, moved, o);
            && ViewState(SlotsAt(k.fwd, Enqueued), k.table) ==
               AllInputs(vkTable, ViewState(SlotsAt(f, Enqueued), t), inputs, dead, moved, o)
            && Apart(f, k.fwd, Enqueued)
    decreases |inputs|
  {
    hide DevicesOk, SlotsAt, Healthy, NoteInput, OneInput, Played;
    if inputs != [] {
      match Played(inputs[0], dead)
      case None => NoteInputsView(vkTable, f, kinds, t, inputs[1..], dead, moved, o);
      case Some(i) =>
        NoteInputView(vkTable, f, kinds, t, i, moved, o);
        var k := NoteInput(vkTable, f, t, i, moved, o);
        NoteInputsView(vkTable, k.fwd, kinds, k.table, inputs[1..], dead, moved || MovesAbsolutely(i), o);
    }
  }

  // ---------------------------------------------------------------- written batches

  /** Room for the owner's claim, now and however the batch goes on. */
  predicate Room(t: Table, o: Owner) { |t| <= CAPACITY && Fits(t, o) }

  lemma {:induction false} SubsetSize<T>(a: set<T>, b: set<T>)
    requires a <= b
    ensures |a| <= |b| && (a != b ==> |a| < |b|)
  {
    if a != b {
      var x :| x in b && x !in a;
      if a != b - {x} {
        SubsetSize(a, b - {x});
      }
    }
  }

  lemma RoomShrinks(t: Table, u: Table, o: Owner)
    requires Room(t, o) && u.Keys <= t.Keys
    ensures Room(u, o)
  {
    SubsetSize(u.Keys, t.Keys);
    assert |u| == |u.Keys| && |t| == |t.Keys|;
  }

  lemma RoomKept(f: Forward, t: Table, view: View, code: nat, down: bool, restore: bool, o: Owner)
    requires Room(t, o)
    ensures var k := ApplyKey(f, t, view, code, down, restore, o); Room(k.table, o) && k.ok
  {
    hide ShiftKey, ShiftsAny;
    if down {
      assert |Hold(t, o, code)| == |Hold(t, o, code).Keys| && |t| == |t.Keys|;
      assert Hold(t, o, code).Keys == t.Keys + {o};
    } else if Holds(t, o, code) {
      assert DropKey(t, o, code).Keys <= t.Keys;
      RoomShrinks(t, DropKey(t, o, code), o);
    } else {
      assert ReleaseCode(t, code).Keys <= t.Keys;
      RoomShrinks(t, ReleaseCode(t, code), o);
    }
  }

  /** Everything accepts writes. */
  ghost predicate AllFlow(m: Machine) {
    Flowing(m) && Healthy(m.fwd)
  }

  /** A batch in progress: sources sound, everything flowing, room for its owner. */
  ghost predicate Going(m: Machine, kinds: map<nat, Kind>, o: Owner) {
    DevicesOk(m.fwd, kinds) && AllFlow(m) && Room(m.applied, o)
      && forall v :: v in m.vkTable ==> m.vkTable[v] <= KEY_MAX
  }

  lemma RoutedView(m: Machine, kinds: map<nat, Kind>, button: nat, down: bool, moved: bool, o: Owner)
    requires Going(m, kinds, o)
    ensures var s := RouteButton(m, button, down, moved, o);
            && s.ok && Going(s.m, kinds, o) && Written(s.m) == PressOrRelease(Written(m), button, down, !moved, o)
            && Admitted(s.m) == Admitted(m)
  {
    var k := ApplyKey(m.fwd, m.applied, Applied, button, down, !moved, o);
    var g := m.(fwd := k.fwd, applied := k.table);
    KeyedView(m.fwd, kinds, m.applied, Applied, button, down, !moved, o);
    RoomKept(m.fwd, m.applied, Applied, button, down, !moved, o);
    ApplyKeyOk(m.fwd, kinds, m.applied, Applied, button, down, !moved, o);
    RouteButtonOk(m, kinds, button, down, moved, o);
    UpdateOk(g, button);
    hide ApplyKey, DevicesOk, PressOrRelease, UpdateGeneric, Room;
  }

  lemma UpdateOk(m: Machine, code: nat)
    requires Flowing(m)
    ensures UpdateGeneric(m, code).ok
  {}

  /** Once a transition names no button, neither do the rest. */
  predicate NamelessLast(ts: seq<Transition>) {
    forall a, b :: 0 <= a < b < |ts| && ts[a].button.None? ==> ts[b].button.None?
  }

  lemma TransitionsNamelessLast(i: Input)
    requires i.Mouse?
    ensures NamelessLast(Transitions(i))
  {
    var a := PressAndRelease(i.flags, LeftDown, LeftUp, Some(BTN_LEFT));
    var b := PressAndRelease(i.flags, RightDown, RightUp, Some(BTN_RIGHT));
    var c := PressAndRelease(i.flags, MiddleDown, MiddleUp, Some(BTN_MIDDLE));
    var x := PressAndRelease(i.flags, XDown, XUp, XButton(i.data));
    assert Transitions(i) == a + b + c + x;
    assert forall k :: 0 <= k < |a| ==> a[k].button.Some?;
    assert forall k :: 0 <= k < |b| ==> b[k].button.Some?;
    assert forall k :: 0 <= k < |c| ==> c[k].button.Some?;
    assert forall k :: 0 <= k < |x| ==> x[k].button == XButton(i.data);
    hide Transitions, PressAndRelease;
  }

  lemma {:induction false} NamelessButtons(v: ViewState, ts: seq<Transition>, moved: bool, o: Owner)
    requires forall k :: 0 <= k < |ts| ==> ts[k].button.None?
    ensures Buttons(v, ts, moved, o) == v
    decreases |ts|
  {
    if ts != [] {
      NamelessButtons(v, ts[1..], moved, o);
    }
  }

  lemma {:induction false} RoutedAllView(m: Machine, kinds: map<nat, Kind>, ts: seq<Transition>, moved: bool, o: Owner)
    requires Going(m, kinds, o) && NamelessLast(ts)
    ensures var g := RouteButtons(m, ts, moved, o).m;
            Going(g, kinds, o) && Written(g) == Buttons(Written(m), ts, moved, o) && Admitted(g) == Admitted(m)
    decreases |ts|
  {
    hide Going, RouteButton, PressOrRelease, Written, Admitted;
    if ts != [] {
      if ts[0].button.None? {
        NamelessButtons(Written(m), ts, moved, o);
      } else {
        RoutedView(m, kinds, ts[0].button.value, ts[0].down, moved, o);
        RoutedAllView(RouteButton(m, ts[0].button.value, ts[0].down, moved, o).m, kinds, ts[1..], moved, o);
      }
    }
  }

  lemma PointerGoes(m: Machine, g: Machine, kinds: map<nat, Kind>, o: Owner)
    requires Going(m, kinds, o) && PointerOnly(m, g)
    ensures Going(g, kinds, o) && Written(g) == Written(m) && Admitted(g) == Admitted(m)
  {}

  lemma PointerOk(m: Machine, i: Input)
    requires Flowing(m) && i.Mouse?
    ensures Motion(m, i).ok && VerticalWheel(m, i).ok && SidewaysWheel(m, i).ok
  {}

  lemma SentMouseView(m: Machine, kinds: map<nat, Kind>, i: Input, moved: bool, o: Owner)
    requires Going(m, kinds, o) && i.Mouse?
    ensures var g := SendMouse(m, i, moved, o).m;
            && Going(g, kinds, o) && Written(g) == Buttons(Written(m), Transitions(i), moved || MovesAbsolutely(i), o)
            && g.vkTable == m.vkTable && Admitted(g) == Admitted(m)
  {
    var a := Motion(m, i).m;
    PointerOk(m, i);
    PointerGoes(m, a, kinds, o);
    var b := VerticalWheel(a, i).m;
    PointerOk(a, i);
    PointerGoes(a, b, kinds, o);
    var c := SidewaysWheel(b, i).m;
    PointerOk(b, i);
    PointerGoes(b, c, kinds, o);
    TransitionsNamelessLast(i);
    RouteButtonsOk(c, kinds, Transitions(i), moved || MovesAbsolutely(i), o);
    RoutedAllView(c, kinds, Transitions(i), moved || MovesAbsolutely(i), o);
    hide Going, Motion, VerticalWheel, SidewaysWheel, RouteButtons, Buttons, Transitions, Written, Admitted;
  }

  lemma RepressedView(m: Machine, kinds: map<nat, Kind>, code: nat, o: Owner)
    requires Going(m, kinds, o)
    ensures var g := m.(fwd := Repress(m.fwd, code));
            Going(g, kinds, o) && Written(g) == Written(m) && Admitted(g) == Admitted(m)
  {
    hide Repress;
  }

  /** A key transition whose sink update comes after it, whatever the sink then writes. */
  lemma KeyAppliedView(g: Machine, kinds: map<nat, Kind>, code: nat, down: bool, o: Owner)
    requires Going(g, kinds, o)
    ensures var k := ApplyKey(g.fwd, g.applied, Applied, code, down, true, o);
            var r := UpdateGeneric(g.(fwd := k.fwd, applied := k.table), code).m;
            && k.ok && Going(r, kinds, o) && Written(r) == PressOrRelease(Written(g), code, down, true, o)
            && r.vkTable == g.vkTable && Admitted(r) == Admitted(g)
  {
    var k := ApplyKey(g.fwd, g.applied, Applied, code, down, true, o);
    KeyedView(g.fwd, kinds, g.applied, Applied, code, down, true, o);
    RoomKept(g.fwd, g.applied, Applied, code, down, true, o);
    ApplyKeyOk(g.fwd, kinds, g.applied, Applied, code, down, true, o);
    hide ApplyKey, PressOrRelease, UpdateGeneric, Room;
    SameDevicesOk(k.fwd, UpdateGeneric(g.(fwd := k.fwd, applied := k.table), code).m.fwd, kinds);
    hide DevicesOk;
  }

  lemma SentKeyView(m: Machine, kinds: map<nat, Kind>, key: nat, down: bool, o: Owner)
    requires Going(m, kinds, o)
    ensures var g := SendKeyCode(m, key, down, o);
            && Going(g, kinds, o) && Written(g) == PressOrRelease(Written(m), CanonicalButton(key), down, true, o)
            && g.vkTable == m.vkTable && Admitted(g) == Admitted(m)
  {
    hide Going, Written, Admitted, ApplyKey, PressOrRelease, UpdateGeneric, Repress;
    var code := CanonicalButton(key);
    var g := if down && !Holds(m.applied, o, code) then m.(fwd := Repress(m.fwd, code)) else m;
    RepressedView(m, kinds, code, o);
    KeyAppliedView(g, kinds, code, down, o);
  }

  lemma SentOneView(m: Machine, kinds: map<nat, Kind>, i: Input, moved: bool, o: Owner)
    requires Going(m, kinds, o)
    ensures var g := SendOne(m, i, moved, o);
            && Going(g, kinds, o) && Written(g) == OneInput(m.vkTable, Written(m), i, moved, o)
            && g.vkTable == m.vkTable && Admitted(g) == Admitted(m)
  {
    if i.Mouse? {
      SentMouseView(m, kinds, i, moved, o);
    } else if Unicode in i.keyFlags {
      hide SendUnit;
    } else if Resolve(m.vkTable, i).Some? {
      SentKeyView(m, kinds, Resolve(m.vkTable, i).value, Up !in i.keyFlags, o);
    }
    hide SendMouse, SendKeyCode, PressOrRelease, Buttons, Transitions;
  }

  lemma {:induction false} SentAllView(m: Machine, kinds: map<nat, Kind>, inputs: seq<Input>, dead: bool, moved: bool,
                                       o: Owner)
    requires Going(m, kinds, o)
    ensures var g := SendInputs(m, inputs, dead, moved, o);
            && Going(g, kinds, o) && Written(g) == AllInputs(m.vkTable, Written(m), inputs, dead, moved, o)
            && Admitted(g) == Admitted(m)
    decreases |inputs|
  {
    hide Going, SendOne, OneInput, Written, Admitted, Played;
    if inputs != [] {
      match Played(inputs[0], dead)
      case None => SentAllView(m, kinds, inputs[1..], dead, moved, o);
      case Some(i) =>
        SentOneView(m, kinds, i, moved, o);
        SentAllView(SendOne(m, i, moved, o), kinds, inputs[1..], dead, moved || MovesAbsolutely(i), o);
    }
  }
}
