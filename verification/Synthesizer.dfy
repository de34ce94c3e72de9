/** The synthesis side in place: two claim tables and the generic devices' state around
    one forwarding table. Each method leaves the state its function in `Synthesis` describes. */
module Synthesizers {
  import opened Codes
  import opened Claims
  import opened Forwarding
  import opened Synthesis
  import opened Pointwise
  import opened Forwarders
  import opened ClaimTables
  import opened KeyBits

  lemma Unshifted(f: Forward, code: nat, view: View, restore: bool)
    ensures !ShiftsAny(f, code, view, restore) ==> ShiftKey(f, code, view, restore) == f
  {
    if !ShiftsAny(f, code, view, restore) && code <= KEY_MAX {
      NothingShifts(f, 0, code, view, restore);
    }
  }

  class Synthesizer {
    const forwarder: Forwarder
    const applied: ClaimTable
    const enqueued: ClaimTable
    const vkTable: map<nat, nat>
    var appliedEpoch: nat
    var enqueuedEpoch: nat
    var onAbs: set<nat>
    var absReady: bool
    var failed: bool
    var budget: Budget
    var pendingHigh: nat
    var wheel: int
    var hwheel: int

    ghost const Repr: set<object> :=
      {this, forwarder, forwarder.devices, applied, applied.claims, applied.holders, enqueued, enqueued.claims,
        enqueued.holders}

    ghost predicate Valid()
      reads Repr
    {
      && applied.Valid() && enqueued.Valid() && applied != enqueued
      && applied.claims != enqueued.claims && applied.holders != enqueued.holders
      && forall v :: v in vkTable ==> vkTable[v] <= KEY_MAX
    }

    ghost function State(): Machine
      reads Repr
    {
      Machine(forwarder.State(), applied.table, appliedEpoch, enqueued.table, enqueuedEpoch, onAbs, absReady, failed,
              budget, pendingHigh, wheel, hwheel, vkTable)
    }

    constructor (f: Forwarder, keys: map<nat, nat>)
      requires forall v :: v in keys ==> keys[v] <= KEY_MAX
      ensures Valid() && forwarder == f && fresh(Repr - {f, f.devices})
      ensures State() == Machine(f.State(), map[], 0, map[], 0, {}, false, true, Left(0), 0, 0, 0, keys)
    {
      forwarder := f;
      vkTable := keys;
      applied := new ClaimTable();
      enqueued := new ClaimTable();
      appliedEpoch, enqueuedEpoch, onAbs, absReady, failed := 0, 0, {}, false, true;
      budget, pendingHigh, wheel, hwheel := Left(0), 0, 0, 0;
    }

    /** What is known of the generic devices once they are created. */
    method NoteDevices(d: Devices)
      requires Valid()
      modifies this
      ensures Valid()
      ensures State() == old(State()).(absReady := d.attached && d.absReady, failed := !d.attached, budget := d.budget)
    {
      hide ClaimTable.Valid;
      absReady, failed, budget := d.attached && d.absReady, !d.attached, d.budget;
    }

    // -------------------------------------------------------------- holds

    /** One key transition on the claims of a view. */
    method HoldOrRelease(table: ClaimTable, view: View, code: nat, down: bool, restore: bool,
                         o: Owner) returns (ok: bool)
      requires table.Valid() && code <= KEY_MAX
      modifies forwarder, forwarder.devices, table, table.claims, table.holders
      ensures table.Valid()
      ensures var k := ApplyKey(old(forwarder.State()), old(table.table), view, code, down, restore, o);
              forwarder.State() == k.fwd && table.table == k.table && ok == k.ok
    {
      hide ShiftKey, ShiftsAny, Consistent;
      ok := true;
      if down {
        var restored := false;
        if restore {
          ghost var f := forwarder.State();
          restored := forwarder.ShiftEverywhere(code, view, true);
          assert !restored ==> forwarder.State() == f by { Unshifted(f, code, view, true); }
        }
        if !restored {
          ok := table.HoldKey(o, code);
        }
      } else {
        var i := table.FindClaim(o);
        if i < table.used && code in table.claims[i].keys {
          table.DropHold(i, code);
        } else {
          var _ := forwarder.ShiftEverywhere(code, view, false);
          table.ReleaseKey(code);
        }
      }
    }

    method ApplyKeyNow(code: nat, down: bool, restore: bool, o: Owner) returns (ok: bool)
      requires Valid() && code <= KEY_MAX
      modifies Repr
      ensures Valid()
      ensures var m, k := old(State()),
              ApplyKey(old(forwarder.State()), old(applied.table), Applied, code, down, restore, o);
              State() == m.(fwd := k.fwd, applied := k.table) && ok == k.ok
    {
      hide ApplyKey, Consistent;
      ok := HoldOrRelease(applied, Applied, code, down, restore, o);
    }

    method NoteKey(code: nat, down: bool, restore: bool, o: Owner)
      requires Valid() && code <= KEY_MAX
      modifies Repr
      ensures Valid()
      ensures var m, k := old(State()),
              ApplyKey(old(forwarder.State()), old(enqueued.table), Enqueued, code, down, restore, o);
              State() == m.(fwd := k.fwd, enqueued := k.table)
    {
      hide ApplyKey, Consistent;
      var _ := HoldOrRelease(enqueued, Enqueued, code, down, restore, o);
    }

    method OwnerIsDead(o: Owner, view: View) returns (dead: bool)
      ensures dead == IsDead(forwarder.State(), o, view)
    {
      if o.target == 0 {
        return false;
      }
      var found := forwarder.FindSlot(o.target, view);
      dead := found.None? || forwarder.devices[found.value].failed;
    }

    /** The dead owners among those that have a claim. */
    method DeadOwners(table: ClaimTable, view: View) returns (dead: set<Owner>)
      requires table.Valid()
      ensures forall o :: o in table.table ==> (o in dead <==> IsDead(forwarder.State(), o, view))
    {
      hide IsDead, Consistent;
      dead := {};
      var i := 0;
      while i < table.used
        invariant i <= table.used
        invariant forall o :: o in dead ==> IsDead(forwarder.State(), o, view)
        invariant forall j :: 0 <= j < i ==> IsDead(forwarder.State(), table.claims[j].owner, view) ==>
                  table.claims[j].owner in dead
      {
        var o := table.claims[i].owner;
        var gone := OwnerIsDead(o, view);
        if gone {
          dead := dead + {o};
        }
        i := i + 1;
      }
      OwnersListed(table);
    }

    lemma OwnersListed(table: ClaimTable)
      requires table.Valid()
      ensures forall o :: o in table.table ==> exists j :: 0 <= j < table.used && table.claims[j].owner == o
    {
      ghost var s := table.claims[..table.used];
      forall o | o in table.table
        ensures exists j :: 0 <= j < table.used && table.claims[j].owner == o
      {
        var j :| 0 <= j < |s| && s[j].owner == o;
        assert table.claims[j].owner == o;
      }
    }

    /** Sweep, on a claim table. */
    method DropDead(table: ClaimTable, view: View) returns (released: set<nat>)
      requires table.Valid()
      modifies table, table.claims, table.holders
      ensures table.Valid() && table.table == Sweep(forwarder.State(), old(table.table), view)
      ensures released == Released(old(table.table), table.table)
    {
      hide IsDead, Consistent;
      var dead := DeadOwners(table, view);
      released := table.DropClaims(o => o in dead);
    }

    // -------------------------------------------------------------- the generic devices

    method EmitEvent(o: Out) returns (ok: bool)
      requires Valid()
      modifies Repr
      ensures Valid() && Sent(State(), ok) == Emit(old(State()), o)
    {
      ok := !failed && budget.Accepts();
      if ok {
        budget := budget.Spend();
        forwarder.trace := forwarder.trace + [o];
      } else {
        failed := true;
      }
    }

    method UpdateGenericKey(code: nat) returns (ok: bool)
      requires Valid()
      modifies Repr
      ensures Valid() && Sent(State(), ok) == UpdateGeneric(old(State()), code)
    {
      hide Consistent, SinkKey, SinkKeyOk;
      var held := applied.IsHeld(code);
      ok := true;
      if code !in onAbs {
        ok := forwarder.SetSinkKey(code, held);
      } else if !held {
        onAbs := onAbs - {code};
        if absReady {
          ok := EmitEvent(ToAbsolute(KeyEvent(code, 0)));
        }
      }
    }

    method RouteMouseButton(button: nat, down: bool, moved: bool, o: Owner) returns (ok: bool)
      requires Valid() && button <= KEY_MAX
      modifies Repr
      ensures Valid() && Sent(State(), ok) == RouteButton(old(State()), button, down, moved, o)
    {
      hide ApplyKey, UpdateGeneric, Consistent, Emit;
      var wasHeld := applied.IsHeld(button);
      ok := ApplyKeyNow(button, down, !moved, o);
      if !ok {
        return;
      }
      var held := applied.IsHeld(button);
      if !wasHeld && held && moved && absReady && IsTracked(button) {
        onAbs := onAbs + {button};
        ok := EmitEvent(ToAbsolute(KeyEvent(button, 1)));
      } else {
        ok := UpdateGenericKey(button);
      }
    }

    /** Buttons until one is unsupported or refused. */
    method RouteMouseButtons(ts: seq<Transition>, moved: bool, o: Owner) returns (ok: bool)
      requires Valid() && forall t :: t in ts ==> IsMouseButton(t)
      modifies Repr
      ensures Valid() && Sent(State(), ok) == RouteButtons(old(State()), ts, moved, o)
    {
      hide RouteButton, Consistent;
      ok := true;
      var i := 0;
      while i < |ts|
        invariant i <= |ts| && Valid() && ok
        invariant RouteButtons(State(), ts[i..], moved, o) == RouteButtons(old(State()), ts, moved, o)
      {
        var t := ts[i];
        assert t in ts && ts[i..][0] == t && ts[i..][1..] == ts[i + 1..];
        if t.button.None? {
          return false;
        }
        ok := RouteMouseButton(t.button.value, t.down, moved, o);
        if !ok {
          return;
        }
        i := i + 1;
      }
    }

    // -------------------------------------------------------------- pointer input

    method MovePointer(i: Input) returns (ok: bool)
      requires Valid() && i.Mouse?
      modifies Repr
      ensures Valid() && Sent(State(), ok) == Motion(old(State()), i)
    {
      hide Emit;
      ok := true;
      if Move !in i.flags {
        return;
      }
      if Absolute in i.flags {
        if absReady {
          ok := EmitEvent(ToAbsolute(Event(EV_ABS, 0, i.dx)));
          if ok {
            ok := EmitEvent(ToAbsolute(Event(EV_ABS, 1, i.dy)));
          }
        }
      } else {
        if i.dx != 0 {
          ok := EmitEvent(ToPointer(Event(EV_REL, 0, i.dx)));
        }
        if ok && i.dy != 0 {
          ok := EmitEvent(ToPointer(Event(EV_REL, 1, i.dy)));
        }
      }
    }

    method ScrollWheel(delta: int, total: int, hiRes: nat, detent: nat) returns (ok: bool)
      requires Valid()
      modifies Repr
      ensures Valid() && Sent(State(), ok) == Scroll(old(State()), delta, total, hiRes, detent)
    {
      hide Emit;
      ok := EmitEvent(ToPointer(Event(EV_REL, hiRes, delta)));
      if ok && TruncatedDiv(total, 120) != 0 {
        ok := EmitEvent(ToPointer(Event(EV_REL, detent, TruncatedDiv(total, 120))));
      }
    }

    method ScrollVertically(i: Input) returns (ok: bool)
      requires Valid() && i.Mouse?
      modifies Repr
      ensures Valid() && Sent(State(), ok) == VerticalWheel(old(State()), i)
    {
      hide Scroll, TruncatedDiv;
      ok := true;
      if Wheel in i.flags {
        var total := Int32(i.data) + wheel;
        wheel := total - 120 * TruncatedDiv(total, 120);
        ok := ScrollWheel(Int32(i.data), total, REL_WHEEL_HI_RES, REL_WHEEL);
      }
    }

    method ScrollSideways(i: Input) returns (ok: bool)
      requires Valid() && i.Mouse?
      modifies Repr
      ensures Valid() && Sent(State(), ok) == SidewaysWheel(old(State()), i)
    {
      hide Scroll, TruncatedDiv;
      ok := true;
      if HorizontalWheel in i.flags {
        var total := Int32(i.data) + hwheel;
        hwheel := total - 120 * TruncatedDiv(total, 120);
        ok := ScrollWheel(Int32(i.data), total, REL_HWHEEL_HI_RES, REL_HWHEEL);
      }
    }

    method SendMouseInput(i: Input, moved: bool, o: Owner) returns (ok: bool)
      requires Valid() && i.Mouse?
      modifies Repr
      ensures Valid() && Sent(State(), ok) == SendMouse(old(State()), i, moved, o)
    {
      hide Motion, VerticalWheel, SidewaysWheel, RouteButtons, Transitions;
      ok := MovePointer(i);
      if ok {
        ok := ScrollVertically(i);
      }
      if ok {
        ok := ScrollSideways(i);
      }
      if ok {
        ok := RouteMouseButtons(Transitions(i), moved || MovesAbsolutely(i), o);
      }
    }

    // -------------------------------------------------------------- keyboard input

    method SendKey(key: nat, down: bool, o: Owner)
      requires Valid() && key <= KEY_MAX
      modifies Repr
      ensures Valid() && State() == SendKeyCode(old(State()), key, down, o)
    {
      hide ApplyKey, UpdateGeneric, Repress, Consistent;
      var code := CanonicalButton(key);
      if down {
        var i := applied.FindClaim(o);
        if !(i < applied.used && code in applied.claims[i].keys) {
          forwarder.RepressKey(code);
        }
      }
      var ok := ApplyKeyNow(code, down, true, o);
      if ok {
        var _ := UpdateGenericKey(code);
      }
    }

    /** The entry chord, then the two modifiers. */
    method StartEntrySequence() returns (ok: bool)
      requires Valid()
      modifies Repr
      ensures Valid() && Sent(State(), ok) == StartEntry(old(State()))
    {
      hide UpdateGeneric, SinkKey, SinkKeyOk, Tap;
      ok := forwarder.SetSinkKey(KEY_LEFTCTRL, true);
      if ok {
        ok := forwarder.SetSinkKey(KEY_LEFTSHIFT, true);
      }
      if ok {
        ok := forwarder.TapKey(KEY_U);
      }
      var shift := UpdateGenericKey(KEY_LEFTSHIFT);
      var ctrl := UpdateGenericKey(KEY_LEFTCTRL);
      ok := ok && shift && ctrl;
    }

    method TapKeys(keys: seq<nat>)
      requires Valid()
      modifies Repr
      ensures Valid() && State() == old(State()).(fwd := TapAll(old(forwarder.State()), keys))
    {
      hide Tap;
      var i := 0;
      while i < |keys|
        invariant i <= |keys| && Valid() && State() == old(State()).(fwd := forwarder.State())
        invariant TapAll(forwarder.State(), keys[i..]) == TapAll(old(forwarder.State()), keys)
      {
        assert keys[i..][0] == keys[i] && keys[i..][1..] == keys[i + 1..];
        var ok := forwarder.TapKey(keys[i]);
        if !ok {
          return;
        }
        i := i + 1;
      }
    }

    method SendCodePoint(codepoint: nat)
      requires Valid()
      modifies Repr
      ensures Valid() && State() == SendCodepoint(old(State()), codepoint)
    {
      hide StartEntry, TapAll, TypedKeys;
      if codepoint == 0 || codepoint > 0x10FFFF {
        return;
      }
      var ok := StartEntrySequence();
      if ok {
        TapKeys(TypedKeys(codepoint) + [KEY_SPACE]);
      }
    }

    method SendKeyboardInput(i: Input, o: Owner)
      requires Valid() && i.Keyboard?
      modifies Repr
      ensures Valid() && State() == SendKeyboard(old(State()), i, o)
    {
      hide SendCodepoint, SendKeyCode, Consistent;
      if Unicode in i.keyFlags {
        if Up in i.keyFlags {
          return;
        }
        var u := DecodeUnit(pendingHigh, i.scan);
        pendingHigh := u.pending;
        if u.codepoint.Some? {
          SendCodePoint(u.codepoint.value);
        }
        return;
      }
      var code := Resolve(vkTable, i);
      if code.Some? {
        SendKey(code.value, Up !in i.keyFlags, o);
      }
    }

    /** Writes an admitted batch. */
    method SendInput(inputs: seq<Input>, continues: bool, o: Owner)
      requires Valid()
      modifies Repr
      ensures Valid() && State() == SendBatch(old(State()), inputs, continues, o)
    {
      hide SendOne, Played, IsDead, Consistent;
      if !forwarder.sink.attached {
        return;
      }
      if !continues {
        pendingHigh := 0;
      }
      var dead := OwnerIsDead(o, Applied);
      ghost var start := State();
      var moved, k := false, 0;
      while k < |inputs|
        invariant k <= |inputs| && Valid()
        invariant SendInputs(State(), inputs[k..], dead, moved, o) == SendInputs(start, inputs, dead, false, o)
      {
        assert inputs[k..][0] == inputs[k] && inputs[k..][1..] == inputs[k + 1..];
        var played := Played(inputs[k], dead);
        if played.Some? {
          SendOneInput(played.value, moved, o);
          moved := moved || MovesAbsolutely(played.value);
        }
        k := k + 1;
      }
    }

    method SendOneInput(i: Input, moved: bool, o: Owner)
      requires Valid()
      modifies Repr
      ensures Valid() && State() == SendOne(old(State()), i, moved, o)
    {
      hide SendMouse, SendKeyboard, Consistent;
      if i.Keyboard? {
        SendKeyboardInput(i, o);
      } else {
        var _ := SendMouseInput(i, moved, o);
      }
    }

    // -------------------------------------------------------------- admission

    method NoteMouseButtons(ts: seq<Transition>, moved: bool, o: Owner)
      requires Valid() && forall t :: t in ts ==> IsMouseButton(t)
      modifies Repr
      ensures Valid()
      ensures var k := NoteButtons(old(forwarder.State()), old(enqueued.table), ts, moved, o);
              State() == old(State()).(fwd := k.fwd, enqueued := k.table)
    {
      hide ApplyKey, Consistent;
      var i := 0;
      while i < |ts|
        invariant i <= |ts| && Valid() && State() == old(State()).(fwd := forwarder.State(), enqueued := enqueued.table)
        invariant var k := NoteButtons(forwarder.State(), enqueued.table, ts[i..], moved, o);
                  var n := NoteButtons(old(forwarder.State()), old(enqueued.table), ts, moved, o);
                  k.fwd == n.fwd && k.table == n.table
      {
        var t := ts[i];
        assert t in ts && ts[i..][0] == t && ts[i..][1..] == ts[i + 1..];
        if t.button.Some? {
          NoteKey(t.button.value, t.down, !moved, o);
        }
        i := i + 1;
      }
    }

    method NoteOneInput(i: Input, moved: bool, o: Owner)
      requires Valid()
      modifies Repr
      ensures Valid()
      ensures var k := NoteInput(vkTable, old(forwarder.State()), old(enqueued.table), i, moved, o);
              State() == old(State()).(fwd := k.fwd, enqueued := k.table)
    {
      hide NoteButtons, Transitions, ApplyKey, Consistent;
      if i.Mouse? {
        NoteMouseButtons(Transitions(i), moved || MovesAbsolutely(i), o);
      } else {
        var code := Resolve(vkTable, i);
        if code.Some? && code.value <= KEY_MAX {
          NoteKey(CanonicalButton(code.value), Up !in i.keyFlags, true, o);
        }
      }
    }

    /** Drops the admitted claims of ended grabs, if any grab ended since the last time. */
    method SweepAdmitted()
      requires Valid()
      modifies Repr
      ensures Valid() && State() == SweepEnqueued(old(State()))
    {
      if enqueuedEpoch != forwarder.epoch {
        enqueuedEpoch := forwarder.epoch;
        var _ := DropDead(enqueued, Enqueued);
      }
    }

    /** The admission of a batch. */
    method NoteEnqueuedSynth(inputs: seq<Input>, o: Owner)
      requires Valid()
      modifies Repr
      ensures Valid() && State() == NoteSynth(old(State()), inputs, o)
    {
      hide NoteInput, Played, IsDead, Consistent;
      SweepAdmitted();
      var dead := OwnerIsDead(o, Enqueued);
      ghost var start := State();
      var moved, i := false, 0;
      while i < |inputs|
        invariant i <= |inputs| && Valid() && State() == start.(fwd := forwarder.State(), enqueued := enqueued.table)
        invariant var k := NoteInputs(vkTable, forwarder.State(), enqueued.table, inputs[i..], dead, moved, o);
                  var n := NoteInputs(vkTable, start.fwd, start.enqueued, inputs, dead, false, o);
                  k.fwd == n.fwd && k.table == n.table
      {
        assert inputs[i..][0] == inputs[i] && inputs[i..][1..] == inputs[i + 1..];
        var played := Played(inputs[i], dead);
        if played.Some? {
          NoteOneInput(played.value, moved, o);
          moved := moved || MovesAbsolutely(played.value);
        }
        i := i + 1;
      }
    }

    // -------------------------------------------------------------- releases

    /** Brings the devices in line with the released keys nobody holds, in code order. */
    method ReleaseUnheldKeys(released: set<nat>)
      requires Valid()
      modifies Repr
      ensures Valid() && State() == ReleaseUnheld(old(State()), released, 0)
    {
      hide UpdateGeneric, Consistent, Kept;
      var code := 0;
      while code <= KEY_MAX
        invariant code <= KEY_MAX + 1 && Valid()
                  && ReleaseUnheld(State(), released, code) == ReleaseUnheld(old(State()), released, 0)
      {
        var held := applied.IsHeld(code);
        if code in released && !held {
          var _ := UpdateGenericKey(code);
        }
        code := code + 1;
      }
    }

    method ReleaseAppliedOwner(filter: Owner)
      requires Valid()
      modifies Repr
      ensures Valid() && State() == SetApplied(old(State()), DropMatching(old(applied.table), filter))
    {
      hide ReleaseUnheld, Consistent;
      var released := applied.DropOwners(filter);
      ReleaseUnheldKeys(released);
    }

    method ReleaseEnqueuedOwner(filter: Owner)
      requires Valid()
      modifies Repr
      ensures Valid() && State() == old(State()).(enqueued := DropMatching(old(enqueued.table), filter))
    {
      hide Consistent;
      var _ := enqueued.DropOwners(filter);
    }

    /** Releases the holds of grabs that ended since the last time. */
    method MaintainOutput()
      requires Valid()
      modifies Repr
      ensures Valid() && State() == Maintain(old(State()))
    {
      hide ReleaseUnheld, Consistent, IsDead;
      if appliedEpoch == forwarder.epoch {
        return;
      }
      appliedEpoch := forwarder.epoch;
      var released := DropDead(applied, Applied);
      ReleaseUnheldKeys(released);
    }

    /** Ends every synthetic hold: first the buttons on the absolute device, then the sink's. */
    method ReleaseAllGeneric()
      requires Valid()
      modifies Repr
      ensures Valid() && State() == ReleaseGeneric(old(State()))
    {
      hide UpdateGeneric, ClearSynth, Consistent, Kept;
      applied.Clear();
      ghost var cleared := State();
      var code := BTN_LEFT;
      while code < BTN_LEFT + 8
        invariant BTN_LEFT <= code <= BTN_LEFT + 8 && Valid()
                  && AbsReleasesFrom(State(), code) == AbsReleasesFrom(cleared, BTN_LEFT)
      {
        if code in onAbs {
          var _ := UpdateGenericKey(code);
        }
        code := code + 1;
      }
      forwarder.ClearSynthKeys();
    }

    /** What one event of a packet releases, with the keys it leaves without a holder. */
    method ReleaseForEvent(table: ClaimTable, p: Packet, e: Event, before: set<nat>) returns (released: set<nat>)
      requires table.Valid()
      modifies table, table.claims, table.holders
      ensures table.Valid() && table.table == ReleaseByEvent(old(table.table), p, e)
      ensures forall c: nat :: c <= KEY_MAX && !Held(table.table, c) ==>
                (c in released <==> c in before || Held(old(table.table), c))
    {
      hide Consistent, Bits;
      released := before;
      if !e.IsKey() || e.value != 0 {
        return;
      }
      ghost var t := table.table;
      if p.target != 0 {
        var dropped := table.DropOwners(DerivedFrom(p.target, e.code));
        released := released + dropped;
      }
      ghost var u := table.table;
      DropMatchingHeld(t, DerivedFrom(p.target, e.code));
      if !p.suppressed {
        var code := CanonicalButton(e.code);
        var held := table.IsHeld(code);
        if held {
          released := released + {code};
        }
        table.ReleaseKey(code);
        ReleaseCodeHeld(u, code);
      }
      hide Held;
    }

    /** A physical key-up, on the admitted claims. */
    method NotePhysicalRelease(p: Packet)
      requires Valid()
      modifies Repr
      ensures Valid() && State() == old(State()).(enqueued := ReleaseByPacket(old(enqueued.table), p, |p.events|))
    {
      hide ReleaseByEvent, Consistent, Bits, Held;
      var i := 0;
      while i < |p.events|
        invariant i <= |p.events| && Valid() && enqueued.table == ReleaseByPacket(old(enqueued.table), p, i)
        invariant State() == old(State()).(enqueued := enqueued.table)
      {
        var _ := ReleaseForEvent(enqueued, p, p.events[i], {});
        i := i + 1;
      }
    }

    /** Forgets every admitted claim. */
    method ForgetAdmitted()
      requires Valid()
      modifies Repr
      ensures Valid() && State() == old(State()).(enqueued := map[])
    {
      hide Consistent, Bits;
      enqueued.Clear();
    }

    /** Replaces the devices: everything synthetic ends on the old ones first. */
    method RecreateDevices(d: Devices)
      requires Valid()
      modifies Repr
      ensures Valid() && State() == Recreate(old(State()), d)
    {
      hide ClaimTable.Valid, ReleaseGeneric, AttachSink, Kept;
      ReleaseAllGeneric();
      forwarder.Attach(false, Left(0));
      forwarder.Attach(d.attached, d.sinkBudget);
      NoteDevices(d);
      wheel, hwheel := 0, 0;
    }

    /** A physical key-up, on the written claims. */
    method PhysicalRelease(p: Packet)
      requires Valid()
      modifies Repr
      ensures Valid() && State() == SetApplied(old(State()), ReleaseByPacket(old(applied.table), p, |p.events|))
    {
      hide ReleaseByEvent, ReleaseUnheld, Consistent, Held;
      var released: set<nat> := {};
      var i := 0;
      while i < |p.events|
        invariant i <= |p.events| && Valid() && applied.table == ReleaseByPacket(old(applied.table), p, i)
        invariant State() == old(State()).(applied := applied.table)
        invariant forall c: nat :: Held(applied.table, c) ==> Held(old(applied.table), c)
        invariant forall c: nat :: c <= KEY_MAX && !Held(applied.table, c) ==>
                    (c in released <==> Held(old(applied.table), c))
      {
        ghost var t := applied.table;
        released := ReleaseForEvent(applied, p, p.events[i], released);
        EventShrinks(t, p, p.events[i]);
        i := i + 1;
      }
      ghost var after := applied.table;
      UnheldAgree(State(), released, Released(old(applied.table), after), 0);
      ReleaseUnheldKeys(released);
    }
  }

  lemma EventShrinks(t: Table, p: Packet, e: Event)
    ensures forall c :: Held(ReleaseByEvent(t, p, e), c) ==> Held(t, c)
  {
    var u := if p.target != 0 then DropMatching(t, DerivedFrom(p.target, e.code)) else t;
    DropMatchingHeld(t, DerivedFrom(p.target, e.code));
    ReleaseCodeHeld(u, CanonicalButton(e.code));
    hide Held, DropMatching, ReleaseCode;
  }

  /** Only the keys nobody holds matter to the update. */
  lemma {:induction false} UnheldAgree(m: Machine, a: set<nat>, b: set<nat>, code: nat)
    requires forall c: nat :: code <= c <= KEY_MAX && !Held(m.applied, c) ==> (c in a <==> c in b)
    ensures ReleaseUnheld(m, a, code) == ReleaseUnheld(m, b, code)
    decreases KEY_MAX + 1 - code
  {
    hide UpdateGeneric, Held;
    if code <= KEY_MAX {
      UnheldAgree(if code in a && !Held(m.applied, code) then UpdateGeneric(m, code).m else m, a, b, code + 1);
    }
  }
}
