/** What the clones and the absolute device were told over whole runs of the broker. */
module OutputRuns {
  import opened Codes
  import opened Claims
  import opened Forwarding
  import opened Synthesis
  import opened Broker
  import opened SinkInvariant
  import opened SynthInvariant
  import opened BrokerInvariant
  import opened Outputs

  // ---------------------------------------------------------------- the machine

  predicate Fine(m: Machine, w: Output) {
    match w
    case CloneOf(i) => i < |m.fwd.devices| && Works(m.fwd.devices[i])
    case AbsoluteDevice => m.absReady && !m.failed
  }

  function HasDown(m: Machine, w: Output): set<nat> {
    match w
    case CloneOf(i) => if i < |m.fwd.devices| then Beyond(m.fwd.devices[i]) else {}
    case AbsoluteDevice => m.onAbs
  }

  /** While w accepts what it is told, what it is told accounts for what it has down. */
  predicate Tells(m: Machine, g: Machine, w: Output) {
    && m.fwd.trace <= g.fwd.trace && g.fwd.mark == m.fwd.mark
    && (Fine(g, w) ==>
          Fine(m, w) && HasDown(g, w) == Down(HasDown(m, w), g.fwd.trace[|m.fwd.trace|..], w))
  }

  /** An event that moves neither the pointer nor a wheel. */
  predicate Unmoving(o: Out) { !o.ToPointer? && (o.ToAbsolute? ==> o.event.kind == 1) }

  /** The pointer devices refuse no write. */
  predicate PointerUp(m: Machine) { !m.failed && m.budget.Endless? }

  predicate Still(m: Machine, g: Machine) {
    && m.fwd.trace <= g.fwd.trace && g.wheel == m.wheel && g.hwheel == m.hwheel
    && g.absReady == m.absReady && (PointerUp(m) ==> PointerUp(g))
    && forall k :: |m.fwd.trace| <= k < |g.fwd.trace| ==> Unmoving(g.fwd.trace[k])
  }

  predicate Stirs(m: Machine, g: Machine, w: Output) { Tells(m, g, w) && Still(m, g) }

  lemma TellsTrans(m: Machine, g: Machine, h: Machine, w: Output)
    requires Tells(m, g, w) && Tells(g, h, w)
    ensures Tells(m, h, w)
  {
    var a, b := g.fwd.trace[|m.fwd.trace|..], h.fwd.trace[|g.fwd.trace|..];
    assert h.fwd.trace[|m.fwd.trace|..] == a + b;
    DownConcat(HasDown(m, w), a, b, w);
    hide Fine, HasDown, Down;
  }

  lemma StillTrans(m: Machine, g: Machine, h: Machine)
    requires Still(m, g) && Still(g, h)
    ensures Still(m, h)
  {
    hide Unmoving;
    forall k | |m.fwd.trace| <= k < |h.fwd.trace|
      ensures Unmoving(h.fwd.trace[k])
    {
      assert k < |g.fwd.trace| ==> h.fwd.trace[k] == g.fwd.trace[k];
    }
  }

  lemma StirsTrans(m: Machine, g: Machine, h: Machine, w: Output)
    requires Stirs(m, g, w) && Stirs(g, h, w)
    ensures Stirs(m, h, w)
  {
    hide Tells, Still;
    TellsTrans(m, g, h, w);
    StillTrans(m, g, h);
  }

  lemma FwdStirs(m: Machine, f: Forward, w: Output)
    requires Follows(m.fwd, f, w)
    ensures Stirs(m, m.(fwd := f), w)
  {
    if w.AbsoluteDevice? {
      var outs := f.trace[|m.fwd.trace|..];
      assert forall k :: 0 <= k < |outs| ==> outs[k] == f.trace[|m.fwd.trace| + k];
      DownUnheard(m.onAbs, outs, w);
    }
    hide Works, Beyond, Down;
  }

  /** Nothing was written, and w has down what it had. */
  lemma Unstirred(m: Machine, g: Machine, w: Output)
    requires g.fwd == m.fwd && g.wheel == m.wheel && g.hwheel == m.hwheel
    requires g.absReady == m.absReady && g.failed == m.failed && g.budget == m.budget
    requires w.AbsoluteDevice? && Fine(g, w) ==> g.onAbs == m.onAbs
    ensures Stirs(m, g, w)
  {
    assert m.fwd.trace[|m.fwd.trace|..] == [];
  }

  /** A button told to the absolute device. */
  lemma ButtonStirs(m: Machine, onAbs: set<nat>, code: nat, down: bool, w: Output)
    requires code <= KEY_MAX && onAbs == if down then m.onAbs + {code} else m.onAbs - {code}
    ensures Stirs(m, Emit(m.(onAbs := onAbs), ToAbsolute(KeyEvent(code, if down then 1 else 0))).m, w)
  {
    var o := ToAbsolute(KeyEvent(code, if down then 1 else 0));
    var g := Emit(m.(onAbs := onAbs), o).m;
    if !m.failed && m.budget.Accepts() {
      assert g.fwd.trace[|m.fwd.trace|..] == [o] && [o][..0] == [];
      assert Down(HasDown(m, w), [o], w) == if w.AbsoluteDevice? then DownAfter(m.onAbs, o.event) else HasDown(m, w);
    } else {
      assert g.fwd.trace[|m.fwd.trace|..] == [];
    }
  }

  lemma UpdateStirs(m: Machine, code: nat, w: Output)
    requires code <= KEY_MAX
    ensures Stirs(m, UpdateGeneric(m, code).m, w)
  {
    var held := Held(m.applied, code);
    SinkKeyFollows(m.fwd, code, held, w);
    FwdStirs(m, SinkKey(m.fwd, code, held), w);
    Unstirred(m, m, w);
    if !m.absReady {
      Unstirred(m, m.(onAbs := m.onAbs - {code}), w);
    }
    ButtonStirs(m, m.onAbs - {code}, code, false, w);
    hide Stirs, Follows, SinkKey, SinkKeyOk, Held;
  }

  lemma {:induction false} ReleaseUnheldStirs(m: Machine, released: set<nat>, code: nat, w: Output)
    ensures Stirs(m, ReleaseUnheld(m, released, code), w)
    decreases KEY_MAX + 1 - code
  {
    Unstirred(m, m, w);
    hide Stirs, UpdateGeneric, Held;
    if code <= KEY_MAX {
      var g := if code in released && !Held(m.applied, code) then UpdateGeneric(m, code).m else m;
      UpdateStirs(m, code, w);
      ReleaseUnheldStirs(g, released, code + 1, w);
      StirsTrans(m, g, ReleaseUnheld(g, released, code + 1), w);
    }
  }

  lemma SetAppliedStirs(m: Machine, after: Table, w: Output)
    ensures Stirs(m, SetApplied(m, after), w)
  {
    var g := m.(applied := after);
    Unstirred(m, g, w);
    hide Stirs, ReleaseUnheld, Released;
    ReleaseUnheldStirs(g, Released(m.applied, after), 0, w);
    StirsTrans(m, g, ReleaseUnheld(g, Released(m.applied, after), 0), w);
  }

  lemma KeyStirs(m: Machine, code: nat, down: bool, restore: bool, o: Owner, w: Output)
    ensures var k := ApplyKey(m.fwd, m.applied, Applied, code, down, restore, o);
            Stirs(m, m.(fwd := k.fwd, applied := k.table), w)
  {
    var k := ApplyKey(m.fwd, m.applied, Applied, code, down, restore, o);
    Stays(m.fwd, w);
    ShiftKeyFollows(m.fwd, code, Applied, true, w);
    ShiftKeyFollows(m.fwd, code, Applied, false, w);
    hide ShiftKey, ShiftsAny, Follows, Hold, DropKey, ReleaseCode;
    FwdStirs(m, k.fwd, w);
    Unstirred(m.(fwd := k.fwd), m.(fwd := k.fwd, applied := k.table), w);
    hide Stirs;
    StirsTrans(m, m.(fwd := k.fwd), m.(fwd := k.fwd, applied := k.table), w);
  }

  lemma SendKeyStirs(m: Machine, key: nat, down: bool, o: Owner, w: Output)
    requires key <= KEY_MAX
    ensures Stirs(m, SendKeyCode(m, key, down, o), w)
  {
    var code := CanonicalButton(key);
    var g := if down && !Holds(m.applied, o, code) then m.(fwd := Repress(m.fwd, code)) else m;
    Unstirred(m, m, w);
    RepressFollows(m.fwd, code, w);
    FwdStirs(m, Repress(m.fwd, code), w);
    hide Stirs, Follows, Repress, ApplyKey, UpdateGeneric;
    var k := ApplyKey(g.fwd, g.applied, Applied, code, down, true, o);
    var h := g.(fwd := k.fwd, applied := k.table);
    KeyStirs(g, code, down, true, o, w);
    StirsTrans(m, g, h, w);
    UpdateStirs(h, code, w);
    StirsTrans(m, h, UpdateGeneric(h, code).m, w);
  }

  lemma StartEntryStirs(m: Machine, w: Output)
    ensures Stirs(m, StartEntry(m).m, w)
  {
    var k := StrikeEntry(m.fwd);
    var n := m.(fwd := k.fwd);
    StrikeFollows(m.fwd, w);
    FwdStirs(m, k.fwd, w);
    hide Stirs, Follows, StrikeEntry, UpdateGeneric;
    var d := UpdateGeneric(n, KEY_LEFTSHIFT);
    UpdateStirs(n, KEY_LEFTSHIFT, w);
    UpdateStirs(d.m, KEY_LEFTCTRL, w);
    StirsTrans(m, n, d.m, w);
    StirsTrans(m, d.m, UpdateGeneric(d.m, KEY_LEFTCTRL).m, w);
  }

  lemma CodepointStirs(m: Machine, codepoint: nat, w: Output)
    ensures Stirs(m, SendCodepoint(m, codepoint), w)
  {
    Unstirred(m, m, w);
    StartEntryStirs(m, w);
    hide StartEntry, TapAll, TypedKeys;
    var e := StartEntry(m);
    TapAllFollows(e.m.fwd, TypedKeys(codepoint) + [KEY_SPACE], w);
    FwdStirs(e.m, TapAll(e.m.fwd, TypedKeys(codepoint) + [KEY_SPACE]), w);
    hide Stirs, Follows;
    StirsTrans(m, e.m, e.m.(fwd := TapAll(e.m.fwd, TypedKeys(codepoint) + [KEY_SPACE])), w);
  }

  lemma UnitStirs(m: Machine, unit: nat, w: Output)
    ensures Stirs(m, SendUnit(m, unit), w)
  {
    var u := DecodeUnit(m.pendingHigh, unit);
    var g := m.(pendingHigh := u.pending);
    Unstirred(m, g, w);
    hide Stirs, SendCodepoint, DecodeUnit;
    if u.codepoint.Some? {
      CodepointStirs(g, u.codepoint.value, w);
      StirsTrans(m, g, SendCodepoint(g, u.codepoint.value), w);
    }
  }

  lemma ResolvedFits(vk: map<nat, nat>, i: Input)
    requires i.Keyboard? && forall v :: v in vk ==> vk[v] <= KEY_MAX
    ensures Resolve(vk, i).Some? ==> Resolve(vk, i).value <= KEY_MAX
  {}

  lemma KeyboardStirs(m: Machine, i: Input, o: Owner, w: Output)
    requires i.Keyboard? && forall v :: v in m.vkTable ==> m.vkTable[v] <= KEY_MAX
    ensures Stirs(m, SendKeyboard(m, i, o), w)
  {
    Unstirred(m, m, w);
    UnitStirs(m, i.scan, w);
    ResolvedFits(m.vkTable, i);
    hide Stirs, SendUnit, SendKeyCode, Resolve;
    var code := Resolve(m.vkTable, i);
    if code.Some? {
      SendKeyStirs(m, code.value, Up !in i.keyFlags, o, w);
    }
  }

  lemma RouteStirs(m: Machine, button: nat, down: bool, moved: bool, o: Owner, w: Output)
    requires button <= KEY_MAX
    ensures Stirs(m, RouteButton(m, button, down, moved, o).m, w)
  {
    var k := ApplyKey(m.fwd, m.applied, Applied, button, down, !moved, o);
    var g := m.(fwd := k.fwd, applied := k.table);
    KeyStirs(m, button, down, !moved, o, w);
    UpdateStirs(g, button, w);
    ButtonStirs(g, g.onAbs + {button}, button, true, w);
    hide Stirs, ApplyKey, UpdateGeneric, Held, Emit;
    StirsTrans(m, g, UpdateGeneric(g, button).m, w);
    StirsTrans(m, g, Emit(g.(onAbs := g.onAbs + {button}), ToAbsolute(KeyEvent(button, 1))).m, w);
  }

  lemma {:induction false} RoutesStir(m: Machine, ts: seq<Transition>, moved: bool, o: Owner, w: Output)
    requires forall t :: t in ts ==> IsMouseButton(t)
    ensures Stirs(m, RouteButtons(m, ts, moved, o).m, w)
    decreases |ts|
  {
    Unstirred(m, m, w);
    hide Stirs, RouteButton;
    if ts != [] && ts[0].button.Some? {
      assert IsMouseButton(ts[0]);
      var s := RouteButton(m, ts[0].button.value, ts[0].down, moved, o);
      RouteStirs(m, ts[0].button.value, ts[0].down, moved, o, w);
      if s.ok {
        RoutesStir(s.m, ts[1..], moved, o, w);
        StirsTrans(m, s.m, RouteButtons(s.m, ts[1..], moved, o).m, w);
      }
    }
  }

  // ---------------------------------------------------------------- batches

  lemma EmitTells(m: Machine, o: Out, w: Output)
    requires o.ToPointer? || (o.ToAbsolute? && o.event.kind != 1)
    ensures Tells(m, Emit(m, o).m, w)
  {
    var g := Emit(m, o).m;
    if !m.failed && m.budget.Accepts() {
      assert g.fwd.trace[|m.fwd.trace|..] == [o] && [o][..0] == [];
      assert Down(HasDown(m, w), [o], w) == HasDown(m, w);
    } else {
      assert g.fwd.trace[|m.fwd.trace|..] == [];
    }
  }

  lemma SameTells(m: Machine, g: Machine, w: Output)
    requires g.fwd == m.fwd && g.onAbs == m.onAbs && g.absReady == m.absReady && g.failed == m.failed
    ensures Tells(m, g, w)
  {
    assert m.fwd.trace[|m.fwd.trace|..] == [];
  }

  lemma MotionTells(m: Machine, i: Input, w: Output)
    requires i.Mouse?
    ensures Tells(m, Motion(m, i).m, w)
  {
    SameTells(m, m, w);
    hide Tells, Emit;
    if Absolute in i.flags {
      var x := Emit(m, ToAbsolute(Event(EV_ABS, 0, i.dx)));
      EmitTells(m, ToAbsolute(Event(EV_ABS, 0, i.dx)), w);
      EmitTells(x.m, ToAbsolute(Event(EV_ABS, 1, i.dy)), w);
      TellsTrans(m, x.m, Emit(x.m, ToAbsolute(Event(EV_ABS, 1, i.dy))).m, w);
    } else {
      var x := if i.dx != 0 then Emit(m, ToPointer(Event(EV_REL, 0, i.dx))) else Sent(m, true);
      EmitTells(m, ToPointer(Event(EV_REL, 0, i.dx)), w);
      EmitTells(x.m, ToPointer(Event(EV_REL, 1, i.dy)), w);
      TellsTrans(m, x.m, Emit(x.m, ToPointer(Event(EV_REL, 1, i.dy))).m, w);
    }
  }

  lemma ScrollTells(m: Machine, delta: int, total: int, hiRes: nat, detent: nat, w: Output)
    ensures Tells(m, Scroll(m, delta, total, hiRes, detent).m, w)
  {
    var o, n := ToPointer(Event(EV_REL, hiRes, delta)), ToPointer(Event(EV_REL, detent, TruncatedDiv(total, 120)));
    hide Tells, Emit, TruncatedDiv;
    EmitTells(m, o, w);
    EmitTells(Emit(m, o).m, n, w);
    TellsTrans(m, Emit(m, o).m, Emit(Emit(m, o).m, n).m, w);
  }

  lemma ScrolledTells(m: Machine, n: Machine, delta: int, total: int, hiRes: nat, detent: nat, w: Output)
    requires n == m.(wheel := n.wheel, hwheel := n.hwheel)
    ensures Tells(m, Scroll(n, delta, total, hiRes, detent).m, w)
  {
    SameTells(m, n, w);
    hide Tells, Scroll;
    ScrollTells(n, delta, total, hiRes, detent, w);
    TellsTrans(m, n, Scroll(n, delta, total, hiRes, detent).m, w);
  }

  lemma VerticalTells(m: Machine, i: Input, w: Output)
    requires i.Mouse?
    ensures Tells(m, VerticalWheel(m, i).m, w)
  {
    hide Tells, Scroll, TruncatedDiv, Int32, PointerOnly;
    SameTells(m, m, w);
    if Wheel in i.flags {
      var a := Int32(i.data) + m.wheel;
      var n := m.(wheel := a - 120 * TruncatedDiv(a, 120));
      ScrolledTells(m, n, Int32(i.data), a, REL_WHEEL_HI_RES, REL_WHEEL, w);
    }
  }

  lemma SidewaysTells(m: Machine, i: Input, w: Output)
    requires i.Mouse?
    ensures Tells(m, SidewaysWheel(m, i).m, w)
  {
    hide Tells, Scroll, TruncatedDiv, Int32, PointerOnly;
    SameTells(m, m, w);
    if HorizontalWheel in i.flags {
      var a := Int32(i.data) + m.hwheel;
      var n := m.(hwheel := a - 120 * TruncatedDiv(a, 120));
      ScrolledTells(m, n, Int32(i.data), a, REL_HWHEEL_HI_RES, REL_HWHEEL, w);
    }
  }

  lemma MouseTells(m: Machine, i: Input, moved: bool, o: Owner, w: Output)
    requires i.Mouse?
    ensures Tells(m, SendMouse(m, i, moved, o).m, w)
  {
    hide Tells, Motion, VerticalWheel, SidewaysWheel, RouteButtons, Transitions;
    var a := Motion(m, i).m;
    var b := VerticalWheel(a, i).m;
    var c := SidewaysWheel(b, i).m;
    var d := RouteButtons(c, Transitions(i), moved || MovesAbsolutely(i), o).m;
    MotionTells(m, i, w);
    VerticalTells(a, i, w);
    SidewaysTells(b, i, w);
    RoutesStir(c, Transitions(i), moved || MovesAbsolutely(i), o, w);
    TellsTrans(m, a, b, w);
    TellsTrans(m, b, c, w);
    TellsTrans(m, c, d, w);
  }

  lemma {:induction false} InputsTell(m: Machine, inputs: seq<Input>, dead: bool, moved: bool, o: Owner, w: Output)
    requires MachineInv(m)
    ensures Tells(m, SendInputs(m, inputs, dead, moved, o), w)
    decreases |inputs|
  {
    SameTells(m, m, w);
    if inputs != [] {
      var played := Played(inputs[0], dead);
      if played.None? {
        InputsTell(m, inputs[1..], dead, moved, o, w);
      } else {
        var i := played.value;
        var g := SendOne(m, i, moved, o);
        if i.Keyboard? {
          SendKeyboardKeeps(m, i, o);
          KeyboardStirs(m, i, o, w);
        } else {
          SendMouseKeeps(m, i, moved, o);
          MouseTells(m, i, moved, o, w);
        }
        hide Tells, SendKeyboard, SendMouse, MachineInv;
        InputsTell(g, inputs[1..], dead, moved || MovesAbsolutely(i), o, w);
        TellsTrans(m, g, SendInputs(g, inputs[1..], dead, moved || MovesAbsolutely(i), o), w);
      }
    }
  }

  lemma BatchTells(m: Machine, inputs: seq<Input>, continues: bool, o: Owner, w: Output)
    requires MachineInv(m)
    ensures Tells(m, SendBatch(m, inputs, continues, o), w)
  {
    SameTells(m, m, w);
    var n := if continues then m else m.(pendingHigh := 0);
    SameTells(m, n, w);
    hide Tells, SendInputs, IsDead;
    InputsTell(n, inputs, IsDead(m.fwd, o, Applied), false, o, w);
    TellsTrans(m, n, SendInputs(n, inputs, IsDead(m.fwd, o, Applied), false, o), w);
  }

  // ---------------------------------------------------------------- releases

  lemma {:induction false} AbsReleasesTell(m: Machine, code: nat, w: Output)
    requires BTN_LEFT <= code <= BTN_LEFT + 8
    ensures Tells(m, AbsReleasesFrom(m, code), w)
    decreases BTN_LEFT + 8 - code
  {
    SameTells(m, m, w);
    hide Tells, UpdateGeneric;
    if code < BTN_LEFT + 8 {
      var g := if code in m.onAbs then UpdateGeneric(m, code).m else m;
      UpdateStirs(m, code, w);
      AbsReleasesTell(g, code + 1, w);
      TellsTrans(m, g, AbsReleasesFrom(g, code + 1), w);
    }
  }

  lemma ReleaseGenericTells(m: Machine, w: Output)
    ensures Tells(m, ReleaseGeneric(m), w)
  {
    var n := m.(applied := map[]);
    SameTells(m, n, w);
    hide Tells, AbsReleasesFrom, ClearSynth;
    var g := AbsReleasesFrom(n, BTN_LEFT);
    AbsReleasesTell(n, BTN_LEFT, w);
    ClearSynthFollows(g.fwd, 0, w);
    FwdStirs(g, ClearSynth(g.fwd, 0), w);
    TellsTrans(m, n, g, w);
    TellsTrans(m, g, g.(fwd := ClearSynth(g.fwd, 0)), w);
  }

  lemma MaintainTells(m: Machine, w: Output)
    ensures Tells(m, Maintain(m), w)
  {
    SameTells(m, m, w);
    var n := m.(appliedEpoch := m.fwd.epoch);
    SameTells(m, n, w);
    hide Tells, SetApplied, Sweep;
    SetAppliedStirs(n, Sweep(m.fwd, m.applied, Applied), w);
    TellsTrans(m, n, SetApplied(n, Sweep(m.fwd, m.applied, Applied)), w);
  }

  // ---------------------------------------------------------------- admission

  lemma {:induction false} NoteButtonsFollows(f: Forward, t: Table, ts: seq<Transition>, moved: bool, o: Owner,
                                              w: Output)
    ensures Follows(f, NoteButtons(f, t, ts, moved, o).fwd, w)
    decreases |ts|
  {
    Stays(f, w);
    hide Follows, ApplyKey;
    if ts != [] {
      if ts[0].button.None? {
        NoteButtonsFollows(f, t, ts[1..], moved, o, w);
      } else {
        var k := ApplyKey(f, t, Enqueued, ts[0].button.value, ts[0].down, !moved, o);
        KeyFollows(f, t, Enqueued, ts[0].button.value, ts[0].down, !moved, o, w);
        NoteButtonsFollows(k.fwd, k.table, ts[1..], moved, o, w);
        FollowsTrans(f, k.fwd, NoteButtons(k.fwd, k.table, ts[1..], moved, o).fwd, w);
      }
    }
  }

  lemma KeyFollows(f: Forward, t: Table, view: View, code: nat, down: bool, restore: bool, o: Owner, w: Output)
    ensures Follows(f, ApplyKey(f, t, view, code, down, restore, o).fwd, w)
  {
    Stays(f, w);
    ShiftKeyFollows(f, code, view, true, w);
    ShiftKeyFollows(f, code, view, false, w);
    hide Follows, ShiftKey, ShiftsAny;
  }

  lemma {:induction false} NoteInputsFollows(vk: map<nat, nat>, f: Forward, t: Table, inputs: seq<Input>, dead: bool,
                                             moved: bool, o: Owner, w: Output)
    ensures Follows(f, NoteInputs(vk, f, t, inputs, dead, moved, o).fwd, w)
    decreases |inputs|
  {
    Stays(f, w);
    hide Follows, ApplyKey, NoteButtons;
    if inputs != [] {
      match Played(inputs[0], dead)
      case None => NoteInputsFollows(vk, f, t, inputs[1..], dead, moved, o, w);
      case Some(i) =>
        var k := NoteInput(vk, f, t, i, moved, o);
        if i.Mouse? {
          NoteButtonsFollows(f, t, Transitions(i), moved || MovesAbsolutely(i), o, w);
        } else if Resolve(vk, i).Some? {
          KeyFollows(f, t, Enqueued, CanonicalButton(Resolve(vk, i).value), Up !in i.keyFlags, true, o, w);
        }
        hide NoteInput;
        var more := moved || MovesAbsolutely(i);
        NoteInputsFollows(vk, k.fwd, k.table, inputs[1..], dead, more, o, w);
        FollowsTrans(f, k.fwd, NoteInputs(vk, k.fwd, k.table, inputs[1..], dead, more, o).fwd, w);
    }
  }

  lemma AdmitTells(m: Machine, a: Action, w: Output)
    requires (a.SourceState? || a.Replay?) ==> PacketOk(a.p)
    ensures Tells(m, AdmitAction(m, a), w)
  {
    hide NoteKeys, NoteInputs, ReleaseAllFrom, ReleaseByPacket, DropMatching, IsDead, Sweep;
    var g := AdmitAction(m, a);
    SweepSame(m);
    Stays(m.fwd, w);
    match a {
      case SourceState(p) => NoteKeysFollows(m.fwd, p, Enqueued, true, w);
      case Replay(p) => NoteKeysFollows(m.fwd, p, Enqueued, false, w);
      case Synth(inputs, _, o) =>
        var s := SweepEnqueued(m);
        NoteInputsFollows(s.vkTable, s.fwd, s.enqueued, inputs, IsDead(s.fwd, o, Enqueued), false, o, w);
      case ReleaseAll => ReleaseAllFollows(m.fwd, 0, Enqueued, w);
      case _ =>
    }
    hide Follows;
    FwdStirs(m, g.fwd, w);
    SameTells(m.(fwd := g.fwd), g, w);
    TellsTrans(m, m.(fwd := g.fwd), g, w);
  }

  lemma SweepSame(m: Machine)
    ensures var s := SweepEnqueued(m); s == m.(enqueued := s.enqueued, enqueuedEpoch := s.enqueuedEpoch)
  {}

  // ---------------------------------------------------------------- the broker

  /** The packets an action carries to the sink are of keyboard keys. */
  predicate Proper(a: Action) { a.Replay? ==> Routed(a.p) }

  lemma WriteTells(s: State, a: Action, w: Output)
    requires MachineInv(s.m) && DevicesOk(s.m.fwd, s.kinds) && PendingOk(s, a) && Proper(a) && !a.RecreateSynth?
    ensures Tells(s.m, WriteAction(s.m, a), w)
  {
    hide MachineInv, DevicesOk, NoteKeys, Write, SetApplied, SendBatch, ReleaseGeneric, ReleaseAllFrom, ApplyEndGrab,
         ApplyClose, ReleaseByPacket, DropMatching;
    var m := s.m;
    match a
    case SourceState(p) => NoteKeysFollows(m.fwd, p, Applied, true, w); FwdStirs(m, WriteAction(m, a).fwd, w);
    case Replay(p) => ReplayTells(s, p, w);
    case Synth(inputs, continues, o) => BatchTells(m, inputs, continues, o, w);
    case ReleaseOwner(filter) => SetAppliedStirs(m, DropMatching(m.applied, filter), w);
    case ReleaseAll =>
      var g := ReleaseGeneric(m);
      ReleaseGenericTells(m, w);
      ReleaseAllFollows(g.fwd, 0, Applied, w);
      FwdStirs(g, ReleaseAllFrom(g.fwd, 0, Applied), w);
      TellsTrans(m, g, WriteAction(m, a), w);
    case ReleaseSynth => ReleaseGenericTells(m, w);
    case EndOf(next) => ApplyEndGrabFollows(m.fwd, next, None, w); FwdStirs(m, WriteAction(m, a).fwd, w);
    case CloseOf(target) =>
      KeysFit(m.fwd, s.kinds);
      ApplyCloseFollows(m.fwd, target, w);
      FwdStirs(m, WriteAction(m, a).fwd, w);
  }

  lemma ReplayTells(s: State, p: Packet, w: Output)
    requires DevicesOk(s.m.fwd, s.kinds) && PacketAllowed(s, p) && Routed(p)
    ensures Tells(s.m, WriteAction(s.m, Replay(p)), w)
  {
    hide DevicesOk, Write, SetApplied, ReleaseByPacket, Routed;
    var g, after := s.m.(fwd := Write(s.m.fwd, p)), ReleaseByPacket(s.m.applied, p, |p.events|);
    WriteFollows(s.m.fwd, s.kinds, p, w);
    FwdStirs(s.m, g.fwd, w);
    SetAppliedStirs(g, after, w);
    TellsTrans(s.m, g, SetApplied(g, after), w);
  }

  /** The step opens a source in slot i. */
  predicate Opens(s: State, step: Step, i: nat) { step.OpenSource? && FirstFree(s.m.fwd.devices, 0) == i }

  lemma EndingTells(s: State, target: nat, queued: bool, w: Output)
    requires Find(s.m.fwd, target, Enqueued).Some?
    ensures Tells(s.m, Ending(s, target, queued).m, w)
  {
    hide EndGrab, ApplyEndGrab, Find;
    var f := s.m.fwd;
    var i := Find(f, target, Enqueued).value;
    var g := EndGrab(f, target);
    var held, next := Some(f.devices[i].enqueued.source), MakeTarget(f.serial, i);
    EndGrabFollows(f, target, w);
    ApplyEndGrabFollows(g, next, held, w);
    FollowsTrans(f, g, ApplyEndGrab(g, next, held), w);
    hide Follows;
    FwdStirs(s.m, Ending(s, target, queued).m.fwd, w);
  }

  lemma ClosingTells(s: State, target: nat, queued: bool, w: Output)
    requires DevicesOk(s.m.fwd, s.kinds)
    ensures Tells(s.m, Closing(s, target, queued).m, w)
  {
    var f := s.m.fwd;
    var g := Close(f, target);
    KeysFit(f, s.kinds);
    assert forall j :: 0 <= j < |g.devices| ==> g.devices[j].applied == f.devices[j].applied;
    hide Close, ApplyClose, DevicesOk;
    CloseFollows(f, target, w);
    ApplyCloseFollows(g, target, w);
    FollowsTrans(f, g, ApplyClose(g, target), w);
    hide Follows;
    FwdStirs(s.m, Closing(s, target, queued).m.fwd, w);
  }

  lemma OpeningTells(s: State, step: Step, w: Output)
    requires step.OpenSource? && !(w.CloneOf? && Opens(s, step, w.slot))
    ensures Tells(s.m, Next(s, step).m, w)
  {
    var f, g := s.m.fwd, Next(s, step).m.fwd;
    assert f.trace + [] == f.trace;
    assert w.CloneOf? && w.slot < |f.devices| ==> g.devices[w.slot] == f.devices[w.slot];
    Unheard(f, g, [], w);
    FwdStirs(s.m, g, w);
  }

  /** Every step tells an output what it makes it have down, unless the step replaces it. */
  lemma StepTells(s: State, step: Step, w: Output)
    requires Inv(s) && Enabled(s, step) && (step.ApplyNext? ==> Proper(s.queue[0]) && !s.queue[0].RecreateSynth?)
    requires !(w.CloneOf? && Opens(s, step, w.slot))
    ensures Tells(s.m, Next(s, step).m, w)
  {
    hide MachineInv, DevicesOk, AdmitAction, WriteAction, Maintain, Ending, Closing, Opening, SweepEnqueued, Collect,
         Tells, Opens;
    match step
    case OpenSource(_, _, _) => OpeningTells(s, step, w);
    case Admit(a) => AdmitTells(s.m, a, w);
    case AdmitEnd(target, queued) => EndingTells(s, target, queued, w);
    case AdmitClose(target, queued) => ClosingTells(s, target, queued, w);
    case ApplyNext =>
      assert PendingOk(s, s.queue[0]);
      var g := WriteAction(s.m, s.queue[0]);
      WriteTells(s, s.queue[0], w);
      MaintainTells(g, w);
      TellsTrans(s.m, g, Maintain(g), w);
    case Query => SweepSame(s.m); SameTells(s.m, SweepEnqueued(s.m), w);
    case Idle => MaintainTells(s.m, w);
    case CollectSlot(i) => CollectFollows(s.m.fwd, i, w); FwdStirs(s.m, Collect(s.m.fwd, i), w);
  }

  lemma RecreateTells(m: Machine, d: Devices, i: nat)
    ensures var g := Recreate(m, d);
            && m.fwd.trace <= g.fwd.trace
            && (Fine(g, CloneOf(i)) ==>
                  && Fine(m, CloneOf(i))
                  && HasDown(g, CloneOf(i)) == Down(HasDown(m, CloneOf(i)), g.fwd.trace[|m.fwd.trace|..], CloneOf(i)))
  {
    hide ReleaseGeneric, Works, Beyond, Down;
    ReleaseGenericTells(m, CloneOf(i));
  }

  // ---------------------------------------------------------------- runs

  /** What has been written since position from accounts for what slot i's clone has down. */
  predicate CloneTold(f: Forward, i: nat, from: nat) {
    && from <= |f.trace|
    && (i < |f.devices| && Works(f.devices[i]) ==> Beyond(f.devices[i]) == Down({}, f.trace[from..], CloneOf(i)))
  }

  /** What has been written since the devices came up accounts for what the absolute device
      has down. */
  predicate AbsTold(m: Machine) {
    m.fwd.mark <= |m.fwd.trace| && (m.absReady && !m.failed ==>
                                      m.onAbs == Down({}, m.fwd.trace[m.fwd.mark..], AbsoluteDevice))
  }

  lemma ToldOn(a: seq<Out>, b: seq<Out>, from: nat, w: Output)
    requires a <= b && from <= |a|
    ensures Down({}, b[from..], w) == Down(Down({}, a[from..], w), b[|a|..], w)
  {
    assert b[from..] == a[from..] + b[|a|..];
    DownConcat({}, a[from..], b[|a|..], w);
  }

  lemma OpenCloneTold(s: State, step: Step, i: nat)
    requires Opens(s, step, i)
    ensures CloneTold(Next(s, step).m.fwd, i, |s.m.fwd.trace|) && s.m.fwd.trace == Next(s, step).m.fwd.trace
  {
    var f, g := s.m.fwd, Next(s, step).m.fwd;
    assert g.trace[|f.trace|..] == [];
    assert i < |f.devices| ==> Beyond(g.devices[i]) == {};
  }

  lemma RecreateCloneTold(m: Machine, d: Devices, i: nat, from: nat)
    requires CloneTold(m.fwd, i, from)
    ensures CloneTold(Maintain(Recreate(m, d)).fwd, i, from) && m.fwd.trace <= Maintain(Recreate(m, d)).fwd.trace
  {
    hide Recreate, Maintain, CloneTold, Down;
    var n := Recreate(m, d);
    RecreateTells(m, d, i);
    MaintainTells(n, CloneOf(i));
    CloneOn(m, n, i, from);
    CloneOn(n, Maintain(n), i, from);
  }

  lemma StepCloneTold(s: State, step: Step, i: nat, from: nat)
    requires Inv(s) && Enabled(s, step) && (step.ApplyNext? ==> Proper(s.queue[0]))
    requires CloneTold(s.m.fwd, i, from)
    ensures CloneTold(Next(s, step).m.fwd, i, if Opens(s, step, i) then |s.m.fwd.trace| else from)
    ensures s.m.fwd.trace <= Next(s, step).m.fwd.trace
  {
    hide CloneTold, Inv, Next, Opens;
    if Opens(s, step, i) {
      OpenCloneTold(s, step, i);
    } else if step.ApplyNext? && s.queue[0].RecreateSynth? {
      RecreateIs(s, step);
      hide Recreate, Maintain;
      RecreateCloneTold(s.m, s.queue[0].devices, i, from);
    } else {
      StepTells(s, step, CloneOf(i));
      CloneOn(s.m, Next(s, step).m, i, from);
    }
  }

  lemma CloneOn(m: Machine, g: Machine, i: nat, from: nat)
    requires CloneTold(m.fwd, i, from) && m.fwd.trace <= g.fwd.trace
    requires Fine(g, CloneOf(i)) ==>
               && Fine(m, CloneOf(i))
               && HasDown(g, CloneOf(i)) == Down(HasDown(m, CloneOf(i)), g.fwd.trace[|m.fwd.trace|..], CloneOf(i))
    ensures CloneTold(g.fwd, i, from)
  {
    ToldOn(m.fwd.trace, g.fwd.trace, from, CloneOf(i));
    hide Down;
  }

  /** How much had been written when the source now in slot i was opened. */
  function OpenedAt(s: State, steps: seq<Step>, i: nat, from: nat): nat
    requires Legal(s, steps)
    decreases |steps|
  {
    if steps == [] then from
    else OpenedAt(Next(s, steps[0]), steps[1..], i, if Opens(s, steps[0], i) then |s.m.fwd.trace| else from)
  }

  predicate AllProper(actions: seq<Action>) { forall k :: 0 <= k < |actions| ==> Proper(actions[k]) }

  predicate AdmitsProper(steps: seq<Step>) { forall k :: 0 <= k < |steps| && steps[k].Admit? ==> Proper(steps[k].a) }

  lemma ProperNext(s: State, step: Step)
    requires Enabled(s, step) && AllProper(s.queue) && (step.Admit? ==> Proper(step.a))
    ensures AllProper(Next(s, step).queue)
  {
    hide AdmitAction, WriteAction, Maintain, EndGrab, ApplyEndGrab, Close, ApplyClose, Open, SweepEnqueued, Collect,
         MakeTarget;
  }

  lemma {:induction false} RunCloneTold(s: State, steps: seq<Step>, i: nat, from: nat)
    requires Inv(s) && Legal(s, steps) && AllProper(s.queue) && AdmitsProper(steps) && CloneTold(s.m.fwd, i, from)
    ensures CloneTold(Run(s, steps).m.fwd, i, OpenedAt(s, steps, i, from))
    decreases |steps|
  {
    if steps != [] {
      assert steps[0].Admit? ==> Proper(steps[0].a);
      assert forall k :: 0 <= k < |steps[1..]| ==> steps[1..][k] == steps[k + 1];
      StepKept(s, steps[0]);
      ProperNext(s, steps[0]);
      StepCloneTold(s, steps[0], i, from);
      hide Inv, Next, Enabled, CloneTold, Opens, Proper;
      RunCloneTold(Next(s, steps[0]), steps[1..], i, if Opens(s, steps[0], i) then |s.m.fwd.trace| else from);
    }
  }

  /** In every reachable state, for every source whose clone has accepted all it was given,
      replaying the clone's key events since the source was opened gives exactly the keys
      the source holds downstream off the sink; so a clone that is retiring has none down. */
  lemma ClonesHoldWhatTheyWereTold(d: Devices, vkTable: map<nat, nat>, steps: seq<Step>, i: nat)
    requires forall v :: v in vkTable ==> vkTable[v] <= KEY_MAX
    requires Legal(Start(d, vkTable), steps) && AdmitsProper(steps)
    ensures var f := Run(Start(d, vkTable), steps).m.fwd;
            var from := OpenedAt(Start(d, vkTable), steps, i, 0);
            i < |f.devices| && f.devices[i].open && f.devices[i].clone && !f.devices[i].failed ==>
              && from <= |f.trace|
              && (forall c :: c in Down({}, f.trace[from..], CloneOf(i)) <==>
                    c in f.devices[i].applied.output && !(f.devices[i].keyboard && IsKeyboardKey(c)))
              && (f.devices[i].retiring ==> Down({}, f.trace[from..], CloneOf(i)) == {})
  {
    var s := Start(d, vkTable);
    StartOk(d, vkTable);
    assert CloneTold(s.m.fwd, i, 0);
    hide Start, Inv;
    RunCloneTold(s, steps, i, 0);
    RunKept(s, steps);
    RetiredHolds(Run(s, steps), i);
    var f, from := Run(s, steps).m.fwd, OpenedAt(s, steps, i, 0);
    assert i < |f.devices| && Works(f.devices[i]) ==> Beyond(f.devices[i]) == Down({}, f.trace[from..], CloneOf(i));
    hide Down, Run, OpenedAt;
  }

  lemma RetiredHolds(s: State, i: nat)
    requires Inv(s)
    ensures i < |s.m.fwd.devices| && s.m.fwd.devices[i].open && s.m.fwd.devices[i].retiring ==>
              Beyond(s.m.fwd.devices[i]) == {}
  {
    if i < |s.m.fwd.devices| {
      assert DeviceOk(s.m.fwd.devices[i], i, s.m.fwd.serial, s.kinds);
    }
    hide MachineInv;
  }

  lemma RecreateAbsTold(m: Machine, d: Devices)
    requires MachineInv(m)
    ensures AbsTold(Maintain(Recreate(m, d)))
  {
    ReleaseGenericKeeps(m);
    hide MachineInv, ReleaseGeneric, Maintain;
    var n := Recreate(m, d);
    assert n.fwd.trace[n.fwd.mark..] == [];
    hide Recreate;
    MaintainTells(n, AbsoluteDevice);
    AbsOn(n, Maintain(n));
  }

  lemma RecreateIs(s: State, step: Step)
    requires Enabled(s, step) && step.ApplyNext? && s.queue[0].RecreateSynth?
    ensures Next(s, step).m == Maintain(Recreate(s.m, s.queue[0].devices))
  {
    hide Maintain, Recreate;
  }

  lemma StepAbsTold(s: State, step: Step)
    requires Inv(s) && Enabled(s, step) && (step.ApplyNext? ==> Proper(s.queue[0])) && AbsTold(s.m)
    ensures AbsTold(Next(s, step).m)
  {
    assert MachineInv(s.m);
    hide Inv, MachineInv, AbsTold, Next, Enabled;
    if step.ApplyNext? && s.queue != [] && s.queue[0].RecreateSynth? {
      RecreateIs(s, step);
      hide Recreate, Maintain;
      RecreateAbsTold(s.m, s.queue[0].devices);
    } else {
      StepTells(s, step, AbsoluteDevice);
      AbsOn(s.m, Next(s, step).m);
    }
  }

  lemma AbsOn(m: Machine, g: Machine)
    requires AbsTold(m) && Tells(m, g, AbsoluteDevice)
    ensures AbsTold(g)
  {
    ToldOn(m.fwd.trace, g.fwd.trace, m.fwd.mark, AbsoluteDevice);
    hide Down;
  }

  lemma {:induction false} RunAbsTold(s: State, steps: seq<Step>)
    requires Inv(s) && Legal(s, steps) && AllProper(s.queue) && AdmitsProper(steps) && AbsTold(s.m)
    ensures AbsTold(Run(s, steps).m)
    decreases |steps|
  {
    if steps != [] {
      assert steps[0].Admit? ==> Proper(steps[0].a);
      assert forall k :: 0 <= k < |steps[1..]| ==> steps[1..][k] == steps[k + 1];
      StepKept(s, steps[0]);
      ProperNext(s, steps[0]);
      StepAbsTold(s, steps[0]);
      hide Inv, Next, Enabled, AbsTold, Proper;
      RunAbsTold(Next(s, steps[0]), steps[1..]);
    }
  }

  /** In every reachable state in which no pointer write has failed, replaying the absolute
      device's key events since it was created gives exactly the buttons held there. */
  lemma AbsoluteDeviceHoldsWhatItWasTold(d: Devices, vkTable: map<nat, nat>, steps: seq<Step>)
    requires forall v :: v in vkTable ==> vkTable[v] <= KEY_MAX
    requires Legal(Start(d, vkTable), steps) && AdmitsProper(steps)
    ensures var m := Run(Start(d, vkTable), steps).m;
            m.absReady && !m.failed ==>
              m.fwd.mark <= |m.fwd.trace| && Down({}, m.fwd.trace[m.fwd.mark..], AbsoluteDevice) == m.onAbs
  {
    var s := Start(d, vkTable);
    StartOk(d, vkTable);
    assert AbsTold(s.m);
    hide Start, Inv;
    RunAbsTold(s, steps);
  }
}
