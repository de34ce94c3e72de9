/** The inputs whose writes may be refused. A refused write stops a compound mouse input
    before its remaining buttons, which admission has already recorded; a safe input has
    none left to lose, so it means the same whatever the devices refuse. */
module SafeInputs {
  import opened Codes
  import opened Claims
  import opened Forwarding
  import opened Synthesis
  import opened Broker
  import opened Pointwise
  import opened ViewModel
  import opened BrokerInvariant
  import opened TwoViews

  /** Whether an input writes motion or a wheel step before its buttons. */
  predicate Emits(i: Input, absReady: bool)
    requires i.Mouse?
  {
    || (Move in i.flags && if Absolute in i.flags then absReady else i.dx != 0 || i.dy != 0)
    || Wheel in i.flags || HorizontalWheel in i.flags
  }

  /** How many buttons come before one the input cannot name. */
  function Named(ts: seq<Transition>): nat {
    if ts == [] || ts[0].button.None? then 0 else 1 + Named(ts[1..])
  }

  /** A keyboard input, an input without buttons, or one button with nothing written before it. */
  predicate Safe(i: Input, absReady: bool) {
    i.Keyboard? || Named(Transitions(i)) == 0 || (Named(Transitions(i)) == 1 && !Emits(i, absReady))
  }

  // ---------------------------------------------------------------- in step

  lemma KeyUpdated(m: Machine, kinds: map<nat, Kind>, code: nat, down: bool, restore: bool, o: Owner)
    requires DevicesOk(m.fwd, kinds)
    ensures var k := ApplyKey(m.fwd, m.applied, Applied, code, down, restore, o);
            var g := m.(fwd := k.fwd, applied := k.table);
            && DevicesOk(g.fwd, kinds) && Written(g) == PressOrRelease(Written(m), code, down, restore, o)
            && Apart(m.fwd, g.fwd, Applied)
  {
    KeyedView(m.fwd, kinds, m.applied, Applied, code, down, restore, o);
    ApplyKeyOk(m.fwd, kinds, m.applied, Applied, code, down, restore, o);
    hide ApplyKey, PressOrRelease, DevicesOk;
  }

  lemma KeptInStep(m: Machine, g: Machine, kinds: map<nat, Kind>)
    requires DevicesOk(m.fwd, kinds) && g.fwd.devices == m.fwd.devices && g.fwd.serial == m.fwd.serial
             && g.applied == m.applied
    ensures DevicesOk(g.fwd, kinds) && Written(g) == Written(m) && Apart(m.fwd, g.fwd, Applied)
  {}

  lemma UpdateKeepsAbs(m: Machine, code: nat)
    ensures UpdateGeneric(m, code).m.absReady == m.absReady
  {
    hide SinkKey;
  }

  lemma UnitKeepsAbs(m: Machine, unit: nat)
    ensures SendUnit(m, unit).absReady == m.absReady
  {
    var u := DecodeUnit(m.pendingHigh, unit);
    var g := m.(pendingHigh := u.pending);
    var k := StrikeEntry(g.fwd);
    var h := g.(fwd := k.fwd);
    UpdateKeepsAbs(h, KEY_LEFTSHIFT);
    UpdateKeepsAbs(UpdateGeneric(h, KEY_LEFTSHIFT).m, KEY_LEFTCTRL);
    hide UpdateGeneric, StrikeEntry, TapAll, DecodeUnit;
  }

  lemma ButtonInStep(m: Machine, kinds: map<nat, Kind>, button: nat, down: bool, moved: bool, o: Owner)
    requires DevicesOk(m.fwd, kinds)
    ensures var g := RouteButton(m, button, down, moved, o).m;
            && DevicesOk(g.fwd, kinds) && Written(g) == PressOrRelease(Written(m), button, down, !moved, o)
            && g.vkTable == m.vkTable && g.absReady == m.absReady && Apart(m.fwd, g.fwd, Applied)
  {
    KeyUpdated(m, kinds, button, down, !moved, o);
    hide ApplyKey, PressOrRelease, UpdateGeneric, DevicesOk, Written, SlotsAt, Healthy;
    var k := ApplyKey(m.fwd, m.applied, Applied, button, down, !moved, o);
    var n := m.(fwd := k.fwd, applied := k.table);
    UpdateKeepsAbs(n, button);
    KeptInStep(n, RouteButton(m, button, down, moved, o).m, kinds);
  }

  lemma KeyInStep(m: Machine, kinds: map<nat, Kind>, key: nat, down: bool, o: Owner)
    requires DevicesOk(m.fwd, kinds)
    ensures var g := SendKeyCode(m, key, down, o);
            && DevicesOk(g.fwd, kinds) && Written(g) == PressOrRelease(Written(m), CanonicalButton(key), down, true, o)
            && g.vkTable == m.vkTable && g.absReady == m.absReady && Apart(m.fwd, g.fwd, Applied)
  {
    hide ApplyKey, PressOrRelease, UpdateGeneric, Repress, DevicesOk, Written, SlotsAt, Healthy;
    var code := CanonicalButton(key);
    var g := if down && !Holds(m.applied, o, code) then m.(fwd := Repress(m.fwd, code)) else m;
    KeptInStep(m, g, kinds);
    KeyUpdated(g, kinds, code, down, true, o);
    var k := ApplyKey(g.fwd, g.applied, Applied, code, down, true, o);
    var n := g.(fwd := k.fwd, applied := k.table);
    UpdateKeepsAbs(n, code);
    KeptInStep(n, SendKeyCode(m, key, down, o), kinds);
  }

  lemma Silent(m: Machine, i: Input)
    requires i.Mouse? && !Emits(i, m.absReady)
    ensures Motion(m, i) == Sent(m, true) && VerticalWheel(m, i) == Sent(m, true)
            && SidewaysWheel(m, i) == Sent(m, true)
  {
    hide Emit, Scroll;
  }

  lemma {:induction false} NamelessRest(ts: seq<Transition>)
    requires NamelessLast(ts) && Named(ts) == 0
    ensures forall k :: 0 <= k < |ts| ==> ts[k].button.None?
  {
    if ts != [] {
      assert ts[0].button.None?;
    }
  }

  lemma MouseInStep(m: Machine, kinds: map<nat, Kind>, i: Input, moved: bool, o: Owner)
    requires DevicesOk(m.fwd, kinds) && i.Mouse? && Safe(i, m.absReady)
    ensures var g := SendMouse(m, i, moved, o).m;
            && DevicesOk(g.fwd, kinds)
            && Written(g) == Buttons(Written(m), Transitions(i), moved || MovesAbsolutely(i), o)
            && g.vkTable == m.vkTable && g.absReady == m.absReady && Apart(m.fwd, g.fwd, Applied)
  {
    hide Motion, VerticalWheel, SidewaysWheel, RouteButton, PressOrRelease, DevicesOk, Written, Transitions, Emits,
         SlotsAt, Healthy;
    var ts, moves := Transitions(i), moved || MovesAbsolutely(i);
    TransitionsNamelessLast(i);
    if Named(ts) == 0 {
      NamelessRest(ts);
      NamelessButtons(Written(m), ts, moves, o);
      KeptInStep(m, SendMouse(m, i, moved, o).m, kinds);
    } else {
      Silent(m, i);
      assert SendMouse(m, i, moved, o) == RouteButtons(m, ts, moves, o);
      OneNamed(m, kinds, ts, moves, o);
    }
  }

  lemma OneNamed(m: Machine, kinds: map<nat, Kind>, ts: seq<Transition>, moves: bool, o: Owner)
    requires DevicesOk(m.fwd, kinds) && NamelessLast(ts) && Named(ts) == 1
    ensures var g := RouteButtons(m, ts, moves, o).m;
            DevicesOk(g.fwd, kinds) && Written(g) == Buttons(Written(m), ts, moves, o) && g.vkTable == m.vkTable
              && g.absReady == m.absReady && Apart(m.fwd, g.fwd, Applied)
  {
    hide RouteButton, PressOrRelease, DevicesOk, Written, SlotsAt, Healthy;
    var b, down := ts[0].button.value, ts[0].down;
    ButtonInStep(m, kinds, b, down, moves, o);
    var n := RouteButton(m, b, down, moves, o);
    var v := PressOrRelease(Written(m), b, down, !moves, o);
    assert NamelessLast(ts[1..]);
    NamelessRest(ts[1..]);
    NamelessButtons(v, ts[1..], moves, o);
    assert RouteButtons(n.m, ts[1..], moves, o).m == n.m;
  }

  lemma StepInStep(m: Machine, kinds: map<nat, Kind>, i: Input, moved: bool, o: Owner)
    requires DevicesOk(m.fwd, kinds) && Safe(i, m.absReady)
    ensures var g := SendOne(m, i, moved, o);
            && DevicesOk(g.fwd, kinds) && Written(g) == OneInput(m.vkTable, Written(m), i, moved, o)
            && g.vkTable == m.vkTable && g.absReady == m.absReady && Apart(m.fwd, g.fwd, Applied)
  {
    hide SendMouse, SendKeyCode, SendUnit, PressOrRelease, Buttons, DevicesOk, Written, Transitions, SlotsAt, Healthy;
    if i.Mouse? {
      MouseInStep(m, kinds, i, moved, o);
    } else if Unicode in i.keyFlags {
      UnitKeepsAbs(m, i.scan);
      KeptInStep(m, SendOne(m, i, moved, o), kinds);
    } else if Resolve(m.vkTable, i).Some? {
      KeyInStep(m, kinds, Resolve(m.vkTable, i).value, Up !in i.keyFlags, o);
    }
  }

  predicate AllSafe(inputs: seq<Input>, dead: bool, absReady: bool) {
    forall k :: 0 <= k < |inputs| ==> match Played(inputs[k], dead) case None => true case Some(i) => Safe(i, absReady)
  }

  /** A batch of safe inputs leaves the written view what its admission left the admitted
      view, even if every write is refused. */
  lemma {:induction false} SafeBatchesStayInStep(m: Machine, kinds: map<nat, Kind>, inputs: seq<Input>, dead: bool,
                                                 moved: bool, o: Owner)
    requires DevicesOk(m.fwd, kinds) && AllSafe(inputs, dead, m.absReady)
    ensures var g := SendInputs(m, inputs, dead, moved, o);
            Written(g) == AllInputs(m.vkTable, Written(m), inputs, dead, moved, o) && Apart(m.fwd, g.fwd, Applied)
    decreases |inputs|
  {
    hide SendOne, OneInput, DevicesOk, Written, Played, Safe, SlotsAt, Healthy;
    if inputs != [] {
      assert forall k :: 0 <= k < |inputs[1..]| ==> inputs[1..][k] == inputs[k + 1];
      match Played(inputs[0], dead)
      case None => SafeBatchesStayInStep(m, kinds, inputs[1..], dead, moved, o);
      case Some(i) =>
        StepInStep(m, kinds, i, moved, o);
        SafeBatchesStayInStep(SendOne(m, i, moved, o), kinds, inputs[1..], dead, moved || MovesAbsolutely(i), o);
    }
  }
}
