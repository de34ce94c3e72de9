/** What every synthesis entry point keeps: the sink's synthesis bits are exactly the
    keys some applied claim holds that are not on the absolute device. */
module SynthInvariant {
  import opened Codes
  import opened Claims
  import opened Forwarding
  import opened Synthesis
  import opened SinkInvariant

  // ---------------------------------------------------------------- claims

  /** A key transition touches the claims of its own code only. */
  lemma ApplyKeyHeld(f: Forward, t: Table, view: View, code: nat, down: bool, restore: bool, o: Owner)
    requires TableOk(t) && code <= KEY_MAX
    ensures var k := ApplyKey(f, t, view, code, down, restore, o);
            && (forall c :: c != code ==> (Held(k.table, c) <==> Held(t, c)))
            && TableOk(k.table) && Quiet(f, k.fwd) && (!k.ok ==> k.table == t && k.fwd == f)
            && (SinkInv(f) ==> SinkInv(k.fwd))
  {
    hide SinkInv, ShiftKey, ShiftsAny;
    HoldHeld(t, o, code);
    if Holds(t, o, code) {
      DropKeyHeld(t, o, code);
    }
    ReleaseCodeHeld(t, code);
    if SinkInv(f) {
      ShiftKeyKeeps(f, code, view, down);
    }
  }

  // ---------------------------------------------------------------- agreement

  /** Agreement for every code outside s, whose codes are on the absolute device at most. */
  ghost predicate AgreeExcept(m: Machine, s: set<nat>) {
    && (forall c :: c !in s ==> (c in m.fwd.sink.synth <==> Held(m.applied, c) && c !in m.onAbs))
    && (forall c :: c in m.onAbs ==> IsTracked(c) && c !in m.fwd.sink.synth && (c !in s ==> Held(m.applied, c)))
  }

  ghost predicate Agree(m: Machine) { AgreeExcept(m, {}) }

  ghost predicate MachineInv(m: Machine) {
    && SinkInv(m.fwd) && Agree(m) && TableOk(m.applied)
    && forall v :: v in m.vkTable ==> m.vkTable[v] <= KEY_MAX
  }

  lemma EmitKeeps(m: Machine, o: Out)
    requires SinkInv(m.fwd) && !o.ToSink?
    ensures var g := Emit(m, o).m;
            SinkInv(g.fwd) && g.fwd.sink == m.fwd.sink && g.applied == m.applied && g.onAbs == m.onAbs
              && g.vkTable == m.vkTable
  {
    AppendOthers(m.fwd, [o]);
  }

  lemma UpdateGenericSettles(m: Machine, code: nat, s: set<nat>)
    requires SinkInv(m.fwd) && AgreeExcept(m, s) && code <= KEY_MAX
    ensures var g := UpdateGeneric(m, code).m;
            SinkInv(g.fwd) && AgreeExcept(g, s - {code}) && g.applied == m.applied && g.vkTable == m.vkTable
  {
    hide SinkInv;
    SinkKeyKeeps(m.fwd, code, Held(m.applied, code));
    EmitKeeps(m.(onAbs := m.onAbs - {code}), ToAbsolute(KeyEvent(code, 0)));
  }

  lemma {:induction false} ReleaseUnheldSettles(m: Machine, released: set<nat>, code: nat)
    requires SinkInv(m.fwd) && forall c :: c in released ==> c <= KEY_MAX && !Held(m.applied, c)
    requires AgreeExcept(m, set c | c in released && code <= c)
    ensures var g := ReleaseUnheld(m, released, code);
            SinkInv(g.fwd) && Agree(g) && g.applied == m.applied && g.vkTable == m.vkTable
    decreases KEY_MAX + 1 - code
  {
    hide SinkInv, UpdateGeneric;
    if code <= KEY_MAX {
      var s := set c | c in released && code <= c;
      var g := if code in released && !Held(m.applied, code) then UpdateGeneric(m, code).m else m;
      UpdateGenericSettles(m, code, s);
      assert s - {code} == set c | c in released && code + 1 <= c;
      ReleaseUnheldSettles(g, released, code + 1);
    }
  }

  /** Ending claims and updating the keys left without a holder keeps agreement. */
  lemma SetAppliedKeeps(m: Machine, after: Table)
    requires MachineInv(m) && TableOk(after) && forall c :: Held(after, c) ==> Held(m.applied, c)
    ensures MachineInv(SetApplied(m, after))
  {
    hide SinkInv, ReleaseUnheld;
    var released := Released(m.applied, after);
    forall c | Held(m.applied, c) && !Held(after, c)
      ensures c in released
    {
      var o :| o in m.applied && c in m.applied[o];
    }
    assert released == set c | c in released && 0 <= c;
    ReleaseUnheldSettles(m.(applied := after), released, 0);
  }

  /** All but agreement on code. */
  ghost predicate AlmostInv(m: Machine, code: nat) {
    && SinkInv(m.fwd) && AgreeExcept(m, {code}) && TableOk(m.applied)
    && forall v :: v in m.vkTable ==> m.vkTable[v] <= KEY_MAX
  }

  lemma AfterKey(m: Machine, code: nat, down: bool, restore: bool, o: Owner)
    requires MachineInv(m) && code <= KEY_MAX
    ensures var k := ApplyKey(m.fwd, m.applied, Applied, code, down, restore, o);
            AlmostInv(m.(fwd := k.fwd, applied := k.table), code) && (!k.ok ==> k.table == m.applied && k.fwd == m.fwd)
  {
    hide SinkInv, ApplyKey;
    ApplyKeyHeld(m.fwd, m.applied, Applied, code, down, restore, o);
  }

  lemma Settle(m: Machine, code: nat)
    requires AlmostInv(m, code) && code <= KEY_MAX
    ensures MachineInv(UpdateGeneric(m, code).m)
  {
    hide SinkInv, UpdateGeneric;
    UpdateGenericSettles(m, code, {code});
    assert {code} - {code} == {};
  }

  lemma SendKeyCodeKeeps(m: Machine, key: nat, down: bool, o: Owner)
    requires MachineInv(m) && key <= KEY_MAX
    ensures MachineInv(SendKeyCode(m, key, down, o))
  {
    var code := CanonicalButton(key);
    var g := if down && !Holds(m.applied, o, code) then m.(fwd := Repress(m.fwd, code)) else m;
    assert MachineInv(g) by {
      hide SinkInv, Repress;
      RepressKeeps(m.fwd, code);
    }
    hide MachineInv, ApplyKey, UpdateGeneric, AlmostInv;
    AfterKey(g, code, down, true, o);
    var k := ApplyKey(g.fwd, g.applied, Applied, code, down, true, o);
    if k.ok {
      Settle(g.(fwd := k.fwd, applied := k.table), code);
    }
  }

  lemma {:induction false} TapAllKeeps(f: Forward, keys: seq<nat>)
    requires SinkInv(f) && forall k :: k in keys ==> k <= KEY_MAX && !IsModifierOrLock(k)
    ensures SinkInv(TapAll(f, keys)) && TapAll(f, keys).sink.synth == f.sink.synth
    decreases |keys|
  {
    if keys != [] {
      assert keys[0] in keys;
      TapKeeps(f, keys[0]);
      assert forall k :: k in keys[1..] ==> k in keys;
      TapAllKeeps(Tap(f, keys[0]), keys[1..]);
    }
  }

  lemma StrikeEntryKeeps(f: Forward)
    requires SinkInv(f)
    ensures var g := StrikeEntry(f).fwd;
            && SinkInv(g)
            && forall c :: c != KEY_LEFTCTRL && c != KEY_LEFTSHIFT ==> (c in g.sink.synth <==> c in f.sink.synth)
  {
    var a := SinkKey(f, KEY_LEFTCTRL, true);
    SinkKeyKeeps(f, KEY_LEFTCTRL, true);
    var b := SinkKey(a, KEY_LEFTSHIFT, true);
    SinkKeyKeeps(a, KEY_LEFTSHIFT, true);
    TapKeeps(b, KEY_U);
  }

  /** The modifiers of the entry are never on the absolute device. */
  lemma OffAbs(m: Machine)
    requires MachineInv(m)
    ensures StartEntry(m).m.onAbs == m.onAbs
  {
    hide SinkInv, Held, SinkKey, SinkKeyOk, StrikeEntry;
    assert KEY_LEFTCTRL !in m.onAbs && KEY_LEFTSHIFT !in m.onAbs;
  }

  lemma SameBits(m: Machine, g: Machine)
    requires Agree(m) && Agree(g) && g.applied == m.applied && g.onAbs == m.onAbs
    ensures g.fwd.sink.synth == m.fwd.sink.synth
  {
    hide Held;
  }

  lemma StartEntryKeeps(m: Machine)
    requires MachineInv(m)
    ensures var g := StartEntry(m).m; MachineInv(g) && g.applied == m.applied && g.onAbs == m.onAbs
  {
    hide SinkInv, UpdateGeneric, StrikeEntry, Held, Kept, TableOk;
    StrikeEntryKeeps(m.fwd);
    OffAbs(m);
    var g := m.(fwd := StrikeEntry(m.fwd).fwd);
    var s := {KEY_LEFTCTRL, KEY_LEFTSHIFT};
    UpdateGenericSettles(g, KEY_LEFTSHIFT, s);
    var d := UpdateGeneric(g, KEY_LEFTSHIFT).m;
    UpdateGenericSettles(d, KEY_LEFTCTRL, s - {KEY_LEFTSHIFT});
    assert s - {KEY_LEFTSHIFT} - {KEY_LEFTCTRL} == {};
  }

  lemma DigitsKeep(f: Forward, codepoint: nat)
    requires SinkInv(f)
    ensures var g := TapAll(f, TypedKeys(codepoint) + [KEY_SPACE]); SinkInv(g) && g.sink.synth == f.sink.synth
  {
    hide SinkInv, TapAll;
    TapAllKeeps(f, TypedKeys(codepoint) + [KEY_SPACE]);
  }

  /** Typing a code point changes no claim and no synthesis bit. */
  lemma SendCodepointKeeps(m: Machine, codepoint: nat)
    requires MachineInv(m)
    ensures var g := SendCodepoint(m, codepoint);
            MachineInv(g) && g.applied == m.applied && g.onAbs == m.onAbs && g.fwd.sink.synth == m.fwd.sink.synth
  {
    hide SinkInv, StartEntry, TapAll, Held, TypedKeys, Kept, TableOk;
    if 0 < codepoint <= 0x10FFFF {
      var e := StartEntry(m).m;
      StartEntryKeeps(m);
      SameBits(m, e);
      DigitsKeep(e.fwd, codepoint);
    }
  }

  lemma SendKeyboardKeeps(m: Machine, i: Input, o: Owner)
    requires MachineInv(m) && i.Keyboard?
    ensures MachineInv(SendKeyboard(m, i, o))
  {
    if Unicode in i.keyFlags {
      var u := DecodeUnit(m.pendingHigh, i.scan);
      if u.codepoint.Some? {
        SendCodepointKeeps(m.(pendingHigh := u.pending), u.codepoint.value);
      }
    } else if Resolve(m.vkTable, i).Some? {
      SendKeyCodeKeeps(m, Resolve(m.vkTable, i).value, Up !in i.keyFlags, o);
    }
  }

  /** A button newly held on the absolute device. */
  lemma OntoAbs(m: Machine, button: nat)
    requires AlmostInv(m, button) && IsTracked(button) && Held(m.applied, button) && button !in m.fwd.sink.synth
    ensures MachineInv(Emit(m.(onAbs := m.onAbs + {button}), ToAbsolute(KeyEvent(button, 1))).m)
  {
    hide SinkInv, Emit;
    EmitKeeps(m.(onAbs := m.onAbs + {button}), ToAbsolute(KeyEvent(button, 1)));
  }

  lemma RouteButtonKeeps(m: Machine, button: nat, down: bool, moved: bool, o: Owner)
    requires MachineInv(m) && button <= KEY_MAX
    ensures MachineInv(RouteButton(m, button, down, moved, o).m)
  {
    var k := ApplyKey(m.fwd, m.applied, Applied, button, down, !moved, o);
    var g := m.(fwd := k.fwd, applied := k.table);
    assert !Held(m.applied, button) ==> button !in g.fwd.sink.synth by {
      hide SinkInv;
      assert Quiet(m.fwd, k.fwd);
    }
    hide MachineInv, ApplyKey, UpdateGeneric, AlmostInv, Emit;
    AfterKey(m, button, down, !moved, o);
    if !k.ok {
      assert g == m;
    } else if !Held(m.applied, button) && Held(g.applied, button) && moved && m.absReady && IsTracked(button) {
      OntoAbs(g, button);
    } else {
      Settle(g, button);
    }
  }

  lemma {:induction false} RouteButtonsKeeps(m: Machine, ts: seq<Transition>, moved: bool, o: Owner)
    requires MachineInv(m) && forall t :: t in ts ==> IsMouseButton(t)
    ensures MachineInv(RouteButtons(m, ts, moved, o).m)
    decreases |ts|
  {
    if ts != [] && ts[0].button.Some? {
      assert ts[0] in ts && forall t :: t in ts[1..] ==> t in ts;
      RouteButtonKeeps(m, ts[0].button.value, ts[0].down, moved, o);
      RouteButtonsKeeps(RouteButton(m, ts[0].button.value, ts[0].down, moved, o).m, ts[1..], moved, o);
    }
  }

  lemma PointerOnlyKeeps(m: Machine, g: Machine)
    requires MachineInv(m) && PointerOnly(m, g)
    ensures MachineInv(g)
  {
    var out := g.fwd.trace[|m.fwd.trace|..];
    assert g.fwd.trace == m.fwd.trace + out;
    AppendOthers(m.fwd, out);
  }

  lemma SendMouseKeeps(m: Machine, i: Input, moved: bool, o: Owner)
    requires MachineInv(m) && i.Mouse?
    ensures MachineInv(SendMouse(m, i, moved, o).m)
  {
    var a := Motion(m, i).m;
    PointerOnlyKeeps(m, a);
    var b := VerticalWheel(a, i).m;
    PointerOnlyKeeps(a, b);
    var c := SidewaysWheel(b, i).m;
    PointerOnlyKeeps(b, c);
    RouteButtonsKeeps(c, Transitions(i), moved || MovesAbsolutely(i), o);
  }

  lemma {:induction false} SendInputsKeeps(m: Machine, inputs: seq<Input>, dead: bool, moved: bool, o: Owner)
    requires MachineInv(m)
    ensures MachineInv(SendInputs(m, inputs, dead, moved, o))
    decreases |inputs|
  {
    if inputs != [] {
      match Played(inputs[0], dead)
      case None => SendInputsKeeps(m, inputs[1..], dead, moved, o);
      case Some(i) =>
        if i.Keyboard? {
          SendKeyboardKeeps(m, i, o);
        } else {
          SendMouseKeeps(m, i, moved, o);
        }
        SendInputsKeeps(SendOne(m, i, moved, o), inputs[1..], dead, moved || MovesAbsolutely(i), o);
    }
  }

  lemma SendBatchKeeps(m: Machine, inputs: seq<Input>, continues: bool, o: Owner)
    requires MachineInv(m)
    ensures MachineInv(SendBatch(m, inputs, continues, o))
  {
    if m.fwd.sink.attached {
      SendInputsKeeps(if continues then m else m.(pendingHigh := 0), inputs, IsDead(m.fwd, o, Applied), false, o);
    }
  }

  // ---------------------------------------------------------------- releases

  lemma {:induction false} ReleaseByPacketShrinks(t: Table, p: Packet, n: nat)
    requires TableOk(t) && n <= |p.events|
    ensures TableOk(ReleaseByPacket(t, p, n)) && forall c :: Held(ReleaseByPacket(t, p, n), c) ==> Held(t, c)
  {
    if n > 0 {
      ReleaseByPacketShrinks(t, p, n - 1);
      var u, e := ReleaseByPacket(t, p, n - 1), p.events[n - 1];
      ReleaseCodeHeld(DropMatching(u, DerivedFrom(p.target, e.code)), CanonicalButton(e.code));
      ReleaseCodeHeld(u, CanonicalButton(e.code));
    }
  }

  lemma {:induction false} AbsReleasesKeeps(m: Machine, code: nat)
    requires BTN_LEFT <= code <= BTN_LEFT + 8 && SinkInv(m.fwd) && m.applied == map[]
    requires forall c :: c in m.onAbs ==> IsTracked(c) && c !in m.fwd.sink.synth && code <= c
    ensures var g := AbsReleasesFrom(m, code);
            SinkInv(g.fwd) && g.onAbs == {} && g.applied == map[] && g.vkTable == m.vkTable
    decreases BTN_LEFT + 8 - code
  {
    if code < BTN_LEFT + 8 {
      EmitKeeps(m.(onAbs := m.onAbs - {code}), ToAbsolute(KeyEvent(code, 0)));
      AbsReleasesKeeps(if code in m.onAbs then UpdateGeneric(m, code).m else m, code + 1);
    }
  }

  lemma {:induction false} ClearSynthEmpties(f: Forward, code: nat)
    requires forall c :: c in f.sink.synth ==> code <= c <= KEY_MAX
    ensures ClearSynth(f, code).sink.synth == {}
    decreases KEY_MAX + 1 - code
  {
    if code <= KEY_MAX {
      ClearSynthEmpties(if code in f.sink.synth then SinkKey(f, code, false) else f, code + 1);
    }
  }

  lemma {:induction false} AbsReleasesQuiet(m: Machine, code: nat)
    requires BTN_LEFT <= code <= BTN_LEFT + 8 && m.applied == map[]
    ensures AbsReleasesFrom(m, code).fwd.sink.synth == m.fwd.sink.synth
    decreases BTN_LEFT + 8 - code
  {
    if code < BTN_LEFT + 8 {
      AbsReleasesQuiet(if code in m.onAbs then UpdateGeneric(m, code).m else m, code + 1);
    }
  }

  lemma SynthBitsFit(m: Machine)
    requires MachineInv(m)
    ensures forall c :: c in m.fwd.sink.synth ==> c <= KEY_MAX
  {
    forall c | c in m.fwd.sink.synth
      ensures c <= KEY_MAX
    {
      assert Held(m.applied, c);
      var o :| o in m.applied && c in m.applied[o];
    }
  }

  lemma ClearSynthAgrees(m: Machine)
    requires SinkInv(m.fwd) && m.onAbs == {} && m.applied == map[] && forall c :: c in m.fwd.sink.synth ==> c <= KEY_MAX
    ensures var g := m.(fwd := ClearSynth(m.fwd, 0)); SinkInv(g.fwd) && Agree(g)
  {
    hide ClearSynth, SinkInv;
    ClearSynthKeeps(m.fwd, 0);
    ClearSynthEmpties(m.fwd, 0);
  }

  lemma ReleaseGenericKeeps(m: Machine)
    requires MachineInv(m)
    ensures var g := ReleaseGeneric(m); MachineInv(g) && g.applied == map[] && g.onAbs == {} && g.fwd.sink.synth == {}
  {
    hide ClearSynth, AbsReleasesFrom, SinkInv;
    var g := m.(applied := map[]);
    AbsReleasesKeeps(g, BTN_LEFT);
    AbsReleasesQuiet(g, BTN_LEFT);
    SynthBitsFit(m);
    ClearSynthAgrees(AbsReleasesFrom(g, BTN_LEFT));
  }

  lemma RecreateKeeps(m: Machine, d: Devices)
    requires MachineInv(m)
    ensures MachineInv(Recreate(m, d))
  {
    ReleaseGenericKeeps(m);
    AttachKeeps(AttachSink(ReleaseGeneric(m).fwd, false, Left(0)), d.attached, d.sinkBudget);
  }

  lemma MaintainKeeps(m: Machine)
    requires MachineInv(m)
    ensures MachineInv(Maintain(m))
  {
    var after := Sweep(m.fwd, m.applied, Applied);
    forall c | Held(after, c)
      ensures Held(m.applied, c)
    {
      var o :| o in after && c in after[o];
      assert o in m.applied && c in m.applied[o];
    }
    SetAppliedKeeps(m.(appliedEpoch := m.fwd.epoch), after);
  }
}
