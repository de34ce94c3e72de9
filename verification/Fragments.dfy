/** The expansion of an input replayed as one-input fragments. Each fragment starts with no
    absolute move of its own, so a press that followed one in the compound input goes to
    another device; nothing else tells the fragments from the input. */
module Fragments {
  import opened Codes
  import opened Claims
  import opened Forwarding
  import opened Synthesis
  import opened Broker
  import opened Pointwise
  import opened BrokerInvariant
  import opened ViewModel
  import opened TwoViews
  import opened Splitting
  import opened Refusals

  /** The inputs as batches of one each; only the first may begin a client's batch. */
  function PlayedApart(m: Machine, inputs: seq<Input>, continues: bool, o: Owner): Machine
    decreases |inputs|
  {
    if inputs == [] then m else PlayedApart(SendBatch(m, [inputs[0]], continues, o), inputs[1..], true, o)
  }

  /** The flag presses a button the input can name. */
  predicate IsPress(i: Input, f: MouseFlag)
    requires i.Mouse?
  {
    f in i.flags && f in {LeftDown, RightDown, MiddleDown, XDown} && TransitionOf(i, f).button.Some?
  }

  /** The input moves absolutely and then presses a button. */
  predicate PressesAfterMove(i: Input) {
    MovesAbsolutely(i) && exists k :: 0 <= k < STEPS && IsPress(i, Flag(k))
  }

  // ---------------------------------------------------------------- fragments are shares

  lemma PointerShare(m: Machine, i: Input, f: MouseFlag, moved: bool, o: Owner)
    requires i.Mouse? && IsPointer(f)
    ensures PointerOnly(m, Phase(m, i, f, moved, o)) && Phase(m, i, f, moved, o) == Phase(m, i, f, false, o)
            && !IsPress(i, f)
  {
    hide RouteButtons, Motion, VerticalWheel, SidewaysWheel;
  }

  lemma ButtonIs(m: Machine, i: Input, f: MouseFlag, moved: bool, o: Owner)
    requires i.Mouse? && IsButton(f)
    ensures var t := TransitionOf(i, f);
            && Phase(m, i, f, moved, o) ==
               (if f !in i.flags || t.button.None? then m else RouteButton(m, t.button.value, t.down, moved, o).m)
            && (t.button.Some? ==> IsButtonCode(t.button.value))
            && (IsPress(i, f) <==> f in i.flags && t.button.Some? && t.down)
  {
    hide RouteButton;
    var t := TransitionOf(i, f);
    assert [t][1..] == [];
    if t.button.Some? {
      NoButtons(RouteButton(m, t.button.value, t.down, moved, o).m, moved, o);
    }
  }

  lemma LivingKept(f: Forward, g: Forward, o: Owner)
    requires SameMeta(f, g) && Healthy(f) && Healthy(g)
    ensures IsDead(g, o, Applied) == IsDead(f, o, Applied)
  {
    var slot := SlotOf(f, o.target);
    if slot.Some? {
      var d, e := f.devices[slot.value], g.devices[slot.value];
      assert Meta(e) == Meta(d);
      assert Meta(e).targetA == e.targetA && Meta(e).retiring == e.retiring && Meta(d).targetA == d.targetA
             && Meta(d).retiring == d.retiring;
    }
  }

  /** A fragment that continues a batch is its input on its own. */
  lemma FragmentSent(m: Machine, p: Input, o: Owner)
    requires m.fwd.sink.attached && !IsDead(m.fwd, o, Applied)
    ensures SendBatch(m, [p], true, o) == SendOne(m, p, false, o)
  {
    hide SendOne, IsDead;
    AloneSent(m, p, false, false, o);
  }

  lemma PhaseLives(m: Machine, kinds: map<nat, Kind>, i: Input, f: MouseFlag, o: Owner)
    requires i.Mouse? && Going(m, kinds, o) && (IsPointer(f) || IsButton(f)) && f in i.flags
             && !IsDead(m.fwd, o, Applied)
    ensures var g := Phase(m, i, f, false, o); Going(g, kinds, o) && !IsDead(g.fwd, o, Applied)
  {
    PhaseGoes(m, kinds, i, f, false, o);
    GoingFlows(m, kinds, o);
    PrimitiveIsPhase(m, i, f, false, o);
    SendMouseOk(m, kinds, Primitive(i, f), false, o);
    hide Phase, SendMouse, IsDead, DevicesOk, SameMeta;
    LivingKept(m.fwd, Phase(m, i, f, false, o).fwd, o);
  }

  lemma {:induction false} FragmentsArePhases(m: Machine, kinds: map<nat, Kind>, i: Input, o: Owner, k: nat)
    requires i.Mouse? && Going(m, kinds, o) && !IsDead(m.fwd, o, Applied) && k <= STEPS
    ensures PlayedApart(m, StepsFrom(i, k), true, o) == Phases(m, i, false, o, k)
    decreases STEPS - k
  {
    hide Going, SendBatch, Primitive, Phase, IsDead, StepsFrom, Flag;
    StepsSplit(i, k);
    if k < STEPS {
      var n := Phase(m, i, Flag(k), false, o);
      if Flag(k) in i.flags {
        FirstFragment(m, kinds, i, Flag(k), o, StepsFrom(i, k + 1));
      } else {
        SkippedPhase(m, i, Flag(k), false, o);
      }
      FragmentsArePhases(n, kinds, i, o, k + 1);
    }
  }

  lemma FirstFragment(m: Machine, kinds: map<nat, Kind>, i: Input, f: MouseFlag, o: Owner, rest: seq<Input>)
    requires i.Mouse? && Going(m, kinds, o) && (IsPointer(f) || IsButton(f)) && f in i.flags
             && !IsDead(m.fwd, o, Applied)
    ensures var n := Phase(m, i, f, false, o);
            && Going(n, kinds, o) && !IsDead(n.fwd, o, Applied)
            && PlayedApart(m, [Primitive(i, f)] + rest, true, o) == PlayedApart(n, rest, true, o)
  {
    GoingFlows(m, kinds, o);
    hide Going, SendBatch, Primitive, Phase, IsDead;
    var p := Primitive(i, f);
    PrimitiveIsPhase(m, i, f, false, o);
    FragmentSent(m, p, o);
    PhaseLives(m, kinds, i, f, o);
    assert ([p] + rest)[0] == p && ([p] + rest)[1..] == rest;
  }

  lemma SkippedPhase(m: Machine, i: Input, f: MouseFlag, moved: bool, o: Owner)
    requires i.Mouse? && f !in i.flags
    ensures Phase(m, i, f, moved, o) == m
  {}

  // ---------------------------------------------------------------- alike

  lemma ReleaseIgnoresMoves(m: Machine, b: nat, o: Owner)
    ensures RouteButton(m, b, false, true, o) == RouteButton(m, b, false, false, o)
  {
    var k := ApplyKey(m.fwd, m.applied, Applied, b, false, true, o);
    assert k == ApplyKey(m.fwd, m.applied, Applied, b, false, false, o);
    assert Held(k.table, b) ==> Held(m.applied, b) by {
      if Held(k.table, b) {
        var x :| x in k.table && b in k.table[x];
        assert x in m.applied && b in m.applied[x];
      }
    }
    hide ApplyKey, UpdateGeneric, Held;
  }

  lemma PhaseIgnoresMoves(m: Machine, i: Input, f: MouseFlag, o: Owner)
    requires i.Mouse? && (IsPointer(f) || IsButton(f)) && !IsPress(i, f)
    ensures Phase(m, i, f, true, o) == Phase(m, i, f, false, o)
  {
    hide RouteButton, Phase, TransitionOf, IsPress;
    if IsPointer(f) {
      PointerShare(m, i, f, true, o);
    } else {
      ButtonIs(m, i, f, true, o);
      ButtonIs(m, i, f, false, o);
      var t := TransitionOf(i, f);
      if t.button.Some? {
        ReleaseIgnoresMoves(m, t.button.value, o);
      }
    }
  }

  lemma {:induction false} PhasesIgnoreMoves(m: Machine, i: Input, o: Owner, k: nat)
    requires i.Mouse? && k <= STEPS && forall j :: k <= j < STEPS ==> !IsPress(i, Flag(j))
    ensures Phases(m, i, true, o, k) == Phases(m, i, false, o, k)
    decreases STEPS - k
  {
    hide Phase, IsPress, Flag;
    if k < STEPS {
      PhaseIgnoresMoves(m, i, Flag(k), o);
      PhasesIgnoreMoves(Phase(m, i, Flag(k), true, o), i, o, k + 1);
    }
  }

  /** On every machine that accepts writes, a living owner's fragments are its input. */
  ghost predicate FragmentsAlike(i: Input) {
    forall m, kinds, o, continues :: Going(m, kinds, o) && !IsDead(m.fwd, o, Applied) ==>
      PlayedApart(m, Expand(i), continues, o) == SendBatch(m, [i], continues, o)
  }

  function Begun(m: Machine, continues: bool): Machine { if continues then m else m.(pendingHigh := 0) }

  lemma BegunGoes(m: Machine, kinds: map<nat, Kind>, o: Owner, continues: bool)
    requires Going(m, kinds, o) && !IsDead(m.fwd, o, Applied)
    ensures Going(Begun(m, continues), kinds, o) && !IsDead(Begun(m, continues).fwd, o, Applied) && m.fwd.sink.attached
  {}

  /** Both plays of a mouse input with steps, as shares of its flags. */
  lemma PlaysArePhases(m: Machine, kinds: map<nat, Kind>, i: Input, o: Owner, continues: bool)
    requires i.Mouse? && StepsFrom(i, 0) != [] && Going(m, kinds, o) && !IsDead(m.fwd, o, Applied)
    ensures var n := Begun(m, continues);
            && PlayedApart(m, Expand(i), continues, o) == Phases(n, i, false, o, 0)
            && SendBatch(m, [i], continues, o) == Phases(n, i, MovesAbsolutely(i), o, 0)
  {
    hide Going, Phases, SendInputs, IsDead, StepsFrom, SendMouse;
    var n := Begun(m, continues);
    BegunGoes(m, kinds, o, continues);
    FragmentsArePhases(n, kinds, i, o, 0);
    CompoundPhases(n, kinds, i, false, o);
    AloneSent(n, i, false, false, o);
    assert PlayedApart(m, Expand(i), continues, o) == PlayedApart(n, Expand(i), true, o);
  }

  lemma AloneApart(m: Machine, i: Input, continues: bool, o: Owner)
    requires Expand(i) == [i]
    ensures PlayedApart(m, Expand(i), continues, o) == SendBatch(m, [i], continues, o)
  {
    hide SendBatch;
    assert [i][1..] == [];
  }

  // ---------------------------------------------------------------- apart

  /** Everything held is held on the absolute device, and the sink has been written nothing. */
  ghost predicate OnAbsolute(m: Machine) {
    && m.fwd.devices == seq(SLOTS, _ => FREE) && Flowing(m) && m.absReady && m.fwd.sink.down == {}
    && m.fwd.sink.synth == {}
    && (forall k :: 0 <= k < |m.fwd.trace| ==> !m.fwd.trace[k].ToSink?)
    && m.applied.Keys <= {SOMEBODY} && forall c :: Held(m.applied, c) ==> c in m.onAbs
  }

  /** A sink that neither has a key nor is wanted to have it is left alone. */
  lemma NothingToRelease(f: Forward, b: nat)
    requires f.devices == seq(SLOTS, _ => FREE) && f.sink.down == {} && f.sink.synth == {}
    ensures SinkKey(f, b, false) == f && SinkKeyOk(f, b, false)
  {
    assert {} - {b} == {};
    FreeShift(f, b, Applied, true);
  }

  lemma PressOnAbsolute(m: Machine, b: nat)
    requires OnAbsolute(m) && IsButtonCode(b)
    ensures OnAbsolute(RouteButton(m, b, true, true, SOMEBODY).m)
  {
    LoneFits(m.applied);
    hide Fits;
    var t := Hold(m.applied, SOMEBODY, b);
    assert SOMEBODY in t && b in t[SOMEBODY];
    forall c | Held(t, c)
      ensures c == b || Held(m.applied, c)
    {
      var x :| x in t && c in t[x];
      assert c == b || (x in m.applied && c in m.applied[x]);
    }
    hide Held, ShiftsAny, ShiftKey;
  }

  lemma ReleaseOnAbsolute(m: Machine, b: nat)
    requires OnAbsolute(m) && IsButtonCode(b)
    ensures OnAbsolute(RouteButton(m, b, false, true, SOMEBODY).m)
  {
    FreeShift(m.fwd, b, Applied, false);
    ReleaseCodeHeld(m.applied, b);
    if SOMEBODY in m.applied {
      DropKeyHeld(m.applied, SOMEBODY, b);
    }
    NothingToRelease(m.fwd, b);
    var k := ApplyKey(m.fwd, m.applied, Applied, b, false, false, SOMEBODY);
    assert k.fwd == m.fwd && k.table.Keys <= {SOMEBODY};
    assert !Held(k.table, b);
    assert forall c :: Held(k.table, c) ==> Held(m.applied, c);
    hide ApplyKey, Held, ShiftsAny, ShiftKey, SinkKey, SinkKeyOk;
  }

  lemma PointerOnAbsolute(m: Machine, g: Machine)
    requires OnAbsolute(m) && PointerOnly(m, g)
    ensures OnAbsolute(g)
  {
    hide Held;
  }

  lemma PhaseOnAbsolute(m: Machine, i: Input, f: MouseFlag)
    requires i.Mouse? && (IsPointer(f) || IsButton(f)) && OnAbsolute(m)
    ensures OnAbsolute(Phase(m, i, f, true, SOMEBODY))
  {
    hide RouteButton, Phase, TransitionOf, IsPress, OnAbsolute, PointerOnly;
    if IsPointer(f) {
      PointerShare(m, i, f, true, SOMEBODY);
      PointerOnAbsolute(m, Phase(m, i, f, true, SOMEBODY));
    } else {
      ButtonIs(m, i, f, true, SOMEBODY);
      var t := TransitionOf(i, f);
      if t.button.Some? {
        PressOnAbsolute(m, t.button.value);
        ReleaseOnAbsolute(m, t.button.value);
      }
    }
  }

  lemma {:induction false} PhasesOnAbsolute(m: Machine, i: Input, k: nat)
    requires i.Mouse? && k <= STEPS && OnAbsolute(m)
    ensures OnAbsolute(Phases(m, i, true, SOMEBODY, k))
    decreases STEPS - k
  {
    hide Phase, OnAbsolute, Flag;
    if k < STEPS {
      PhaseOnAbsolute(m, i, Flag(k));
      PhasesOnAbsolute(Phase(m, i, Flag(k), true, SOMEBODY), i, k + 1);
    }
  }

  /** Nothing is held anywhere. */
  ghost predicate Untouched(m: Machine) {
    && m.fwd.devices == seq(SLOTS, _ => FREE) && Flowing(m) && m.fwd.sink.down == {} && m.fwd.sink.synth == {}
    && m.applied == map[] && m.onAbs == {}
  }

  /** The sink has been written a key. */
  ghost predicate Heard(m: Machine) {
    m.fwd.devices == seq(SLOTS, _ => FREE) && exists k :: 0 <= k < |m.fwd.trace| && m.fwd.trace[k].ToSink?
  }

  lemma TraceGrows(f: Forward, g: Forward)
    requires g.devices == f.devices && f.trace <= g.trace && exists k :: 0 <= k < |f.trace| && f.trace[k].ToSink?
    ensures exists k :: 0 <= k < |g.trace| && g.trace[k].ToSink?
  {
    var k :| 0 <= k < |f.trace| && f.trace[k].ToSink?;
    assert g.trace[k] == f.trace[k];
  }

  lemma SinkKeyTrace(f: Forward, b: nat, held: bool)
    ensures f.trace <= SinkKey(f, b, held).trace && SinkKey(f, b, held).devices == f.devices
  {}

  lemma UpdateTrace(m: Machine, b: nat)
    ensures m.fwd.trace <= UpdateGeneric(m, b).m.fwd.trace
  {
    hide Held, SinkKey, SinkKeyOk;
    SinkKeyTrace(m.fwd, b, Held(m.applied, b));
  }

  lemma ButtonHeard(m: Machine, b: nat, down: bool, moved: bool)
    requires Heard(m)
    ensures Heard(RouteButton(m, b, down, moved, SOMEBODY).m)
  {
    FreeShift(m.fwd, b, Applied, down);
    var k := ApplyKey(m.fwd, m.applied, Applied, b, down, !moved, SOMEBODY);
    assert k.fwd == m.fwd by { hide Hold, Fits, ReleaseCode, DropKey, ShiftKey, ShiftsAny; }
    hide ApplyKey, Held, UpdateGeneric, ShiftKey, ShiftsAny;
    UpdateTrace(m.(applied := k.table), b);
    TraceGrows(m.fwd, RouteButton(m, b, down, moved, SOMEBODY).m.fwd);
  }

  lemma PhaseHeard(m: Machine, i: Input, f: MouseFlag)
    requires i.Mouse? && (IsPointer(f) || IsButton(f)) && Heard(m)
    ensures Heard(Phase(m, i, f, false, SOMEBODY))
  {
    hide RouteButton, Phase, TransitionOf, IsPress;
    if IsPointer(f) {
      PointerShare(m, i, f, false, SOMEBODY);
      TraceGrows(m.fwd, Phase(m, i, f, false, SOMEBODY).fwd);
    } else {
      hide Heard;
      ButtonIs(m, i, f, false, SOMEBODY);
      var t := TransitionOf(i, f);
      if t.button.Some? {
        ButtonHeard(m, t.button.value, t.down, false);
      }
    }
  }

  lemma {:induction false} PhasesHeard(m: Machine, i: Input, k: nat)
    requires i.Mouse? && k <= STEPS && Heard(m)
    ensures Heard(Phases(m, i, false, SOMEBODY, k))
    decreases STEPS - k
  {
    hide Phase, Heard, Flag;
    if k < STEPS {
      PhaseHeard(m, i, Flag(k));
      PhasesHeard(Phase(m, i, Flag(k), false, SOMEBODY), i, k + 1);
    }
  }

  lemma PressHeard(m: Machine, b: nat)
    requires Untouched(m) && b <= KEY_MAX
    ensures Heard(RouteButton(m, b, true, false, SOMEBODY).m)
  {
    FreeShift(m.fwd, b, Applied, true);
    var t := Hold(map[], SOMEBODY, b);
    var k := ApplyKey(m.fwd, m.applied, Applied, b, true, true, SOMEBODY);
    assert k == Keyed(m.fwd, t, true);
    assert Held(t, b) by { assert SOMEBODY in t && b in t[SOMEBODY]; }
    var f := m.fwd.(sink := m.fwd.sink.(synth := m.fwd.sink.synth + {b}));
    assert Wanted(f, b) && !InLine(f, b);
    var g := SinkKey(m.fwd, b, true);
    assert g == WriteSink(f, [KeyEvent(b, 1)]);
    assert g.trace == f.trace + Stamp(f, [KeyEvent(b, 1)]) && g.trace[|f.trace|].ToSink?;
    hide ApplyKey, Held, SinkKey, SinkKeyOk, ShiftKey, ShiftsAny;
  }

  lemma ReleaseUntouched(m: Machine, b: nat)
    requires Untouched(m)
    ensures Untouched(RouteButton(m, b, false, false, SOMEBODY).m)
  {
    FreeShift(m.fwd, b, Applied, false);
    NothingToRelease(m.fwd, b);
    assert ReleaseCode(map[], b) == map[];
    hide SinkKey, SinkKeyOk, ShiftKey, ShiftsAny;
  }

  lemma PhaseUntouched(m: Machine, i: Input, f: MouseFlag)
    requires i.Mouse? && (IsPointer(f) || IsButton(f)) && Untouched(m)
    ensures var g := Phase(m, i, f, false, SOMEBODY); if IsPress(i, f) then Heard(g) else Untouched(g)
  {
    hide RouteButton, Phase, TransitionOf, IsPress;
    if IsPointer(f) {
      PointerShare(m, i, f, false, SOMEBODY);
    } else {
      hide Heard, Untouched;
      ButtonIs(m, i, f, false, SOMEBODY);
      var t := TransitionOf(i, f);
      if t.button.Some? {
        PressHeard(m, t.button.value);
        ReleaseUntouched(m, t.button.value);
      }
    }
  }

  lemma {:induction false} PhasesPress(m: Machine, i: Input, k: nat, j: nat)
    requires i.Mouse? && k <= j < STEPS && Untouched(m) && IsPress(i, Flag(j))
    ensures Heard(Phases(m, i, false, SOMEBODY, k))
    decreases STEPS - k
  {
    hide Phase, Heard, Untouched, Flag, IsPress;
    PhaseUntouched(m, i, Flag(k));
    var n := Phase(m, i, Flag(k), false, SOMEBODY);
    if IsPress(i, Flag(k)) {
      PhasesHeard(n, i, k + 1);
    } else {
      PhasesPress(n, i, k + 1, j);
    }
  }

  /** A machine as it came up, on which the fragments of the input write the sink and the
      input does not. */
  lemma PressGoesElsewhere(i: Input)
    requires PressesAfterMove(i)
    ensures var m := Start(Devices(true, true, Endless, Endless), map[]).m;
            PlayedApart(m, Expand(i), true, SOMEBODY) != SendBatch(m, [i], true, SOMEBODY)
  {
    var m := Start(Devices(true, true, Endless, Endless), map[]).m;
    var j :| 0 <= j < STEPS && IsPress(i, Flag(j));
    Beginning();
    assert StepsFrom(i, 0) != [] by { HasStep(i, 0, j); }
    hide Going, Phases, SendBatch, Expand, Start, OnAbsolute, Untouched, IsPress, Flag, IsDead;
    PlaysArePhases(m, map[], i, SOMEBODY, true);
    PhasesOnAbsolute(m, i, 0);
    PhasesPress(m, i, 0, j);
    HeardApart(Phases(m, i, true, SOMEBODY, 0), Phases(m, i, false, SOMEBODY, 0));
  }

  lemma HeardApart(a: Machine, b: Machine)
    requires OnAbsolute(a) && Heard(b)
    ensures a != b
  {}

  lemma {:induction false} HasStep(i: Input, k: nat, j: nat)
    requires i.Mouse? && k <= j < STEPS && Flag(j) in i.flags
    ensures StepsFrom(i, k) != []
    decreases STEPS - k
  {
    hide Flag, Primitive;
    StepsSplit(i, k);
    if k < j {
      HasStep(i, k + 1, j);
    }
  }

  lemma Beginning()
    ensures var m := Start(Devices(true, true, Endless, Endless), map[]).m;
            OnAbsolute(m) && Untouched(m) && Going(m, map[], SOMEBODY) && !IsDead(m.fwd, SOMEBODY, Applied)
  {}

  /** The fragments of an input are the input on every machine that accepts writes exactly
      if the input presses no button after an absolute move. */
  lemma FragmentsAlikeExactlyWhen(i: Input)
    ensures FragmentsAlike(i) <==> !PressesAfterMove(i)
  {
    hide Going, Phases, SendBatch, PlayedApart, IsDead;
    if PressesAfterMove(i) {
      PressGoesElsewhere(i);
      Beginning();
      var m := Start(Devices(true, true, Endless, Endless), map[]).m;
      assert Going(m, map[], SOMEBODY) && !IsDead(m.fwd, SOMEBODY, Applied);
    } else {
      forall m, kinds, o, continues | Going(m, kinds, o) && !IsDead(m.fwd, o, Applied)
        ensures PlayedApart(m, Expand(i), continues, o) == SendBatch(m, [i], continues, o)
      {
        if i.Keyboard? || StepsFrom(i, 0) == [] {
          AloneApart(m, i, continues, o);
        } else {
          PlaysArePhases(m, kinds, i, o, continues);
          if MovesAbsolutely(i) {
            PhasesIgnoreMoves(Begun(m, continues), i, o, 0);
          }
        }
      }
    }
  }
}
