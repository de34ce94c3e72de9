/** Compound mouse inputs and the single steps they expand into. */
module Splitting {
  import opened Codes
  import opened Claims
  import opened Forwarding
  import opened Synthesis
  import opened Broker
  import opened BrokerInvariant
  import opened ViewModel
  import opened TwoViews

  /** The flags that make a step of their own, in the order the steps are sent. */
  function Flag(k: nat): (f: MouseFlag)
    ensures IsPointer(f) || IsButton(f)
  {
    if k == 0 then Move else if k == 1 then Wheel else if k == 2 then HorizontalWheel
    else if k == 3 then LeftDown else if k == 4 then LeftUp else if k == 5 then RightDown else if k == 6 then RightUp
    else if k == 7 then MiddleDown else if k == 8 then MiddleUp else if k == 9 then XDown else XUp
  }

  const STEPS := 11

  predicate IsPointer(f: MouseFlag) { f == Move || f == Wheel || f == HorizontalWheel }

  predicate IsButton(f: MouseFlag) { !IsPointer(f) && f != NoCoalesce && f != VirtualDesktop && f != Absolute }

  function Primitive(i: Input, f: MouseFlag): Input
    requires i.Mouse?
  {
    if f == Move then i.(flags := i.flags * {Move, NoCoalesce, VirtualDesktop, Absolute})
    else i.(flags := {f}, dx := 0, dy := 0)
  }

  function StepsFrom(i: Input, k: nat): (r: seq<Input>)
    requires i.Mouse? && k <= STEPS
    ensures |r| <= STEPS - k
    decreases STEPS - k
  {
    if k == STEPS then []
    else (if Flag(k) in i.flags then [Primitive(i, Flag(k))] else []) + StepsFrom(i, k + 1)
  }

  lemma StepsSplit(i: Input, k: nat)
    requires i.Mouse? && k <= STEPS
    ensures k == STEPS ==> StepsFrom(i, k) == []
    ensures k < STEPS ==> StepsFrom(i, k) == if Flag(k) in i.flags then [Primitive(i, Flag(k))] + StepsFrom(i, k + 1)
            else StepsFrom(i, k + 1)
  {}

  /** What an input becomes; an input without a step of its own stays whole. */
  function Expand(i: Input): (r: seq<Input>)
    ensures 1 <= |r| <= 11
  {
    if i.Keyboard? || StepsFrom(i, 0) == [] then [i] else StepsFrom(i, 0)
  }

  /** A step carries everything of its input but the flags that are not its own, and the motion
      only if it is the move. */
  predicate Carries(s: Input, i: Input)
    requires i.Mouse?
  {
    && s.Mouse? && s.data == i.data && s.time == i.time && s.extra == i.extra && s.flags <= i.flags
    && if Move in s.flags
       then s.dx == i.dx && s.dy == i.dy && s.flags == i.flags * {Move, NoCoalesce, VirtualDesktop, Absolute}
       else s.dx == 0 && s.dy == 0 && exists f :: s.flags == {f}
  }

  predicate Asks(s: Input, f: MouseFlag) { s.Mouse? && f in s.flags }

  lemma PrimitiveCarries(i: Input, f: MouseFlag)
    requires i.Mouse? && f in i.flags && (IsPointer(f) || IsButton(f))
    ensures Carries(Primitive(i, f), i) && Asks(Primitive(i, f), f)
  {
    var s := Primitive(i, f);
    assert f != Move ==> s.flags == {f};
  }

  lemma {:induction false} StepsCarry(i: Input, k: nat, s: Input)
    requires i.Mouse? && k <= STEPS && s in StepsFrom(i, k)
    ensures Carries(s, i)
    decreases STEPS - k
  {
    hide Primitive, Carries, Flag, StepsFrom;
    StepsSplit(i, k);
    if Flag(k) in i.flags && s !in StepsFrom(i, k + 1) {
      PrimitiveCarries(i, Flag(k));
    } else {
      StepsCarry(i, k + 1, s);
    }
  }

  lemma {:induction false} StepsAsk(i: Input, k: nat, j: nat)
    requires i.Mouse? && k <= j < STEPS && Flag(j) in i.flags
    ensures exists s :: s in StepsFrom(i, k) && Asks(s, Flag(j))
    decreases STEPS - k
  {
    hide Primitive, Flag, StepsFrom, Asks;
    StepsSplit(i, k);
    if k == j {
      PrimitiveCarries(i, Flag(j));
      assert Primitive(i, Flag(j)) in StepsFrom(i, k);
    } else {
      StepsAsk(i, k + 1, j);
      var s :| s in StepsFrom(i, k + 1) && Asks(s, Flag(j));
      assert s in StepsFrom(i, k);
    }
  }

  lemma FlagsListed(f: MouseFlag)
    requires f !in {NoCoalesce, VirtualDesktop, Absolute}
    ensures exists k :: 0 <= k < STEPS && Flag(k) == f
  {
    match f
    case Move => assert Flag(0) == f;
    case Wheel => assert Flag(1) == f;
    case HorizontalWheel => assert Flag(2) == f;
    case LeftDown => assert Flag(3) == f;
    case LeftUp => assert Flag(4) == f;
    case RightDown => assert Flag(5) == f;
    case RightUp => assert Flag(6) == f;
    case MiddleDown => assert Flag(7) == f;
    case MiddleUp => assert Flag(8) == f;
    case XDown => assert Flag(9) == f;
    case XUp => assert Flag(10) == f;
  }

  lemma AskedSomewhere(i: Input, f: MouseFlag)
    requires i.Mouse? && f in i.flags && f !in {NoCoalesce, VirtualDesktop, Absolute}
    ensures StepsFrom(i, 0) != [] && exists s :: s in StepsFrom(i, 0) && Asks(s, f)
  {
    FlagsListed(f);
    hide Flag, StepsFrom, Asks;
    var k :| 0 <= k < STEPS && Flag(k) == f;
    StepsAsk(i, 0, k);
  }

  /** Every step of an expansion carries its input, and every flag that asks for something is
      in one. */
  lemma ExpansionsCarryTheirInput(i: Input, f: MouseFlag)
    requires i.Mouse? && f in i.flags && f !in {NoCoalesce, VirtualDesktop, Absolute}
    ensures (forall s :: s in Expand(i) ==> Carries(s, i)) && exists s :: s in Expand(i) && Asks(s, f)
  {
    hide Carries, StepsFrom, Asks;
    AskedSomewhere(i, f);
    forall s | s in Expand(i)
      ensures Carries(s, i)
    {
      StepsCarry(i, 0, s);
    }
  }

  function ExpandedCount(inputs: seq<Input>): nat {
    if inputs == [] then 0 else ExpandedCount(inputs[..|inputs| - 1]) + |Expand(inputs[|inputs| - 1])|
  }

  // ---------------------------------------------------------------- counting and filling

  method InputCount(i: Input) returns (count: nat)
    ensures count == |Expand(i)| && 1 <= count <= 11
  {
    if i.Keyboard? {
      return 1;
    }
    hide Flag, Primitive, StepsFrom;
    count := 0;
    var k := 0;
    while k < STEPS
      invariant k <= STEPS && count + |StepsFrom(i, k)| == |StepsFrom(i, 0)|
    {
      StepsSplit(i, k);
      if Flag(k) in i.flags {
        count := count + 1;
      }
      k := k + 1;
    }
    StepsSplit(i, k);
    if count == 0 {
      count := 1;
    }
  }

  lemma {:induction false} CountGrows(inputs: seq<Input>, n: nat)
    requires n <= |inputs|
    ensures ExpandedCount(inputs[..n]) <= ExpandedCount(inputs)
    decreases |inputs| - n
  {
    if n < |inputs| {
      assert inputs[..n + 1][..n] == inputs[..n];
      CountGrows(inputs, n + 1);
    } else {
      assert inputs[..n] == inputs;
    }
  }

  /** Succeeds exactly when the expansion of the whole batch fits the limit. */
  method BatchCount(inputs: seq<Input>, limit: nat) returns (ok: bool, total: nat)
    ensures ok <==> ExpandedCount(inputs) <= limit
    ensures ok ==> total == ExpandedCount(inputs)
  {
    total := 0;
    var i := 0;
    while i < |inputs|
      invariant i <= |inputs| && total == ExpandedCount(inputs[..i]) <= limit
    {
      assert inputs[..i + 1][..i] == inputs[..i];
      var count := InputCount(inputs[i]);
      if count > limit - total {
        CountGrows(inputs, i + 1);
        return false, total;
      }
      total := total + count;
      i := i + 1;
    }
    assert inputs[..i] == inputs;
    ok := true;
  }

  /** Fills the output buffer with the steps of a mouse input. */
  method FillSteps(i: Input, outputs: array<Input>) returns (count: nat)
    requires outputs.Length >= 11 && i.Mouse?
    modifies outputs
    ensures count == |StepsFrom(i, 0)| && outputs[..count] == StepsFrom(i, 0)
    ensures forall j :: count <= j < outputs.Length ==> outputs[j] == old(outputs[j])
  {
    hide Primitive, StepsFrom;
    ghost var steps := StepsFrom(i, 0);
    count := 0;
    var k := 0;
    while k < STEPS
      invariant count <= k <= STEPS && count <= |steps| && steps[count..] == StepsFrom(i, k)
      invariant forall j :: 0 <= j < count ==> outputs[j] == steps[j]
      invariant forall j :: count <= j < outputs.Length ==> outputs[j] == old(outputs[j])
    {
      StepsSplit(i, k);
      if Flag(k) in i.flags {
        assert steps[count] == steps[count..][0] && steps[count + 1..] == steps[count..][1..];
        outputs[count] := Primitive(i, Flag(k));
        count := count + 1;
      }
      k := k + 1;
    }
    StepsSplit(i, k);
  }

  /** Fills the output buffer with the expansion. */
  method ExpandInput(i: Input, outputs: array<Input>) returns (count: nat)
    requires outputs.Length >= 11
    modifies outputs
    ensures count == |Expand(i)| && outputs[..count] == Expand(i)
    ensures forall j :: count <= j < outputs.Length ==> outputs[j] == old(outputs[j])
  {
    hide StepsFrom;
    count := 0;
    if i.Mouse? {
      count := FillSteps(i, outputs);
    }
    if count == 0 {
      outputs[0] := i;
      count := 1;
    }
  }

  // ---------------------------------------------------------------- meaning

  /** The button a flag presses or releases. */
  function TransitionOf(i: Input, f: MouseFlag): Transition
    requires i.Mouse?
  {
    match f
    case LeftDown => Transition(Some(BTN_LEFT), true) case LeftUp => Transition(Some(BTN_LEFT), false)
    case RightDown => Transition(Some(BTN_RIGHT), true) case RightUp => Transition(Some(BTN_RIGHT), false)
    case MiddleDown => Transition(Some(BTN_MIDDLE), true) case MiddleUp => Transition(Some(BTN_MIDDLE), false)
    case XDown => Transition(XButton(i.data), true) case _ => Transition(XButton(i.data), false)
  }

  /** One flag's share of a compound input. */
  function Phase(m: Machine, i: Input, f: MouseFlag, moved: bool, o: Owner): Machine
    requires i.Mouse?
  {
    if f !in i.flags then m
    else if f == Move then Motion(m, i).m
    else if f == Wheel then VerticalWheel(m, i).m
    else if f == HorizontalWheel then SidewaysWheel(m, i).m
    else RouteButtons(m, [TransitionOf(i, f)], moved, o).m
  }

  function Phases(m: Machine, i: Input, moved: bool, o: Owner, k: nat): Machine
    requires i.Mouse? && k <= STEPS
    decreases STEPS - k
  {
    if k == STEPS then m else Phases(Phase(m, i, Flag(k), moved, o), i, moved, o, k + 1)
  }

  lemma OneFlag(f: MouseFlag, press: MouseFlag, release: MouseFlag, button: Option<nat>)
    requires press != release && (button.Some? ==> BTN_LEFT <= button.value <= BTN_EXTRA)
    ensures PressAndRelease({f}, press, release, button)
            == (if f == press then [Transition(button, true)]
                else if f == release then [Transition(button, false)] else [])
  {}

  lemma NoFlag(flags: set<MouseFlag>, press: MouseFlag, release: MouseFlag, button: Option<nat>)
    requires press !in flags && release !in flags && (button.Some? ==> BTN_LEFT <= button.value <= BTN_EXTRA)
    ensures PressAndRelease(flags, press, release, button) == []
  {}

  lemma ButtonTransitions(i: Input, f: MouseFlag)
    requires i.Mouse? && IsButton(f)
    ensures Transitions(Primitive(i, f)) == [TransitionOf(i, f)]
  {
    hide PressAndRelease;
    var l := PressAndRelease({f}, LeftDown, LeftUp, Some(BTN_LEFT));
    var r := PressAndRelease({f}, RightDown, RightUp, Some(BTN_RIGHT));
    var c := PressAndRelease({f}, MiddleDown, MiddleUp, Some(BTN_MIDDLE));
    var x := PressAndRelease({f}, XDown, XUp, XButton(i.data));
    assert Transitions(Primitive(i, f)) == l + r + c + x;
    hide Transitions, Primitive;
    OneFlag(f, LeftDown, LeftUp, Some(BTN_LEFT));
    OneFlag(f, RightDown, RightUp, Some(BTN_RIGHT));
    OneFlag(f, MiddleDown, MiddleUp, Some(BTN_MIDDLE));
    OneFlag(f, XDown, XUp, XButton(i.data));
    hide XButton;
  }

  lemma PointerTransitions(i: Input, f: MouseFlag)
    requires i.Mouse? && IsPointer(f)
    ensures Transitions(Primitive(i, f)) == []
  {
    var flags := Primitive(i, f).flags;
    NoFlag(flags, LeftDown, LeftUp, Some(BTN_LEFT));
    NoFlag(flags, RightDown, RightUp, Some(BTN_RIGHT));
    NoFlag(flags, MiddleDown, MiddleUp, Some(BTN_MIDDLE));
    NoFlag(flags, XDown, XUp, XButton(i.data));
    hide PressAndRelease;
  }

  lemma NoButtons(m: Machine, moved: bool, o: Owner)
    ensures RouteButtons(m, [], moved, o) == Sent(m, true)
  {}

  /** An input without buttons is its motion and wheels. */
  lemma PointerSent(m: Machine, p: Input, moved: bool, o: Owner)
    requires p.Mouse? && Transitions(p) == [] && Flowing(m)
    ensures SendOne(m, p, moved, o) == SidewaysWheel(VerticalWheel(Motion(m, p).m, p).m, p).m
  {
    var a := Motion(m, p).m;
    var b := VerticalWheel(a, p).m;
    var c := SidewaysWheel(b, p).m;
    PointerOk(m, p);
    PointerOk(a, p);
    PointerOk(b, p);
    NoButtons(c, moved || MovesAbsolutely(p), o);
    hide Motion, VerticalWheel, SidewaysWheel, RouteButtons, Transitions;
  }

  lemma NoMotion(m: Machine, p: Input)
    requires p.Mouse?
    ensures Move !in p.flags ==> Motion(m, p) == Sent(m, true)
    ensures Wheel !in p.flags ==> VerticalWheel(m, p) == Sent(m, true)
    ensures HorizontalWheel !in p.flags ==> SidewaysWheel(m, p) == Sent(m, true)
  {
    hide Emit, Scroll;
  }

  lemma MovePhase(m: Machine, i: Input, moved: bool, o: Owner)
    requires i.Mouse? && Move in i.flags && Flowing(m)
    ensures SendOne(m, Primitive(i, Move), moved, o) == Motion(m, i).m
  {
    var p := Primitive(i, Move);
    PointerTransitions(i, Move);
    hide Transitions, SendOne, Emit, VerticalWheel, SidewaysWheel;
    PointerSent(m, p, moved, o);
    NoMotion(Motion(m, p).m, p);
    assert Motion(m, p) == Motion(m, i);
  }

  lemma WheelPhase(m: Machine, i: Input, moved: bool, o: Owner)
    requires i.Mouse? && Wheel in i.flags && Flowing(m)
    ensures SendOne(m, Primitive(i, Wheel), moved, o) == VerticalWheel(m, i).m
  {
    var p := Primitive(i, Wheel);
    PointerTransitions(i, Wheel);
    hide Transitions, SendOne, Scroll, Motion, SidewaysWheel;
    PointerSent(m, p, moved, o);
    NoMotion(m, p);
    NoMotion(VerticalWheel(m, p).m, p);
    assert VerticalWheel(m, p) == VerticalWheel(m, i);
  }

  lemma SidewaysPhase(m: Machine, i: Input, moved: bool, o: Owner)
    requires i.Mouse? && HorizontalWheel in i.flags && Flowing(m)
    ensures SendOne(m, Primitive(i, HorizontalWheel), moved, o) == SidewaysWheel(m, i).m
  {
    var p := Primitive(i, HorizontalWheel);
    PointerTransitions(i, HorizontalWheel);
    assert SidewaysWheel(m, p) == SidewaysWheel(m, i) by { hide Scroll, Transitions; }
    hide Transitions, SendOne, Scroll, Motion, VerticalWheel, SidewaysWheel;
    PointerSent(m, p, moved, o);
    NoMotion(m, p);
  }

  lemma ButtonPhase(m: Machine, i: Input, f: MouseFlag, moved: bool, o: Owner)
    requires i.Mouse? && IsButton(f) && f in i.flags
    ensures SendOne(m, Primitive(i, f), moved, o) == Phase(m, i, f, moved, o)
  {
    ButtonTransitions(i, f);
    var p := Primitive(i, f);
    hide Motion, VerticalWheel, SidewaysWheel, Transitions, RouteButtons, TransitionOf;
    NoMotion(m, p);
  }

  /** A step on its own does its flag's share. */
  lemma PrimitiveIsPhase(m: Machine, i: Input, f: MouseFlag, moved: bool, o: Owner)
    requires i.Mouse? && (IsPointer(f) || IsButton(f)) && f in i.flags && Flowing(m)
    ensures SendOne(m, Primitive(i, f), moved, o) == Phase(m, i, f, moved, o)
  {
    hide Motion, VerticalWheel, SidewaysWheel, RouteButtons, SendOne, Primitive;
    if f == Move {
      MovePhase(m, i, moved, o);
    } else if f == Wheel {
      WheelPhase(m, i, moved, o);
    } else if f == HorizontalWheel {
      SidewaysPhase(m, i, moved, o);
    } else {
      ButtonPhase(m, i, f, moved, o);
    }
  }

  // ---------------------------------------------------------------- the compound input

  lemma {:induction false} RouteConcat(m: Machine, a: seq<Transition>, b: seq<Transition>, moved: bool, o: Owner)
    ensures var r := RouteButtons(m, a, moved, o);
            RouteButtons(m, a + b, moved, o) == if r.ok then RouteButtons(r.m, b, moved, o) else r
    decreases |a|
  {
    hide RouteButton;
    if a == [] {
      assert a + b == b;
    } else {
      assert (a + b)[0] == a[0] && (a + b)[1..] == a[1..] + b;
      if a[0].button.Some? {
        RouteConcat(RouteButton(m, a[0].button.value, a[0].down, moved, o).m, a[1..], b, moved, o);
      }
    }
  }

  lemma OneButton(m: Machine, kinds: map<nat, Kind>, t: Transition, moved: bool, o: Owner)
    requires Going(m, kinds, o)
    ensures var r := RouteButtons(m, [t], moved, o);
            Going(r.m, kinds, o) && (if t.button.Some? then r.ok else r == Sent(m, false))
  {
    hide Going, RouteButton;
    if t.button.Some? {
      RoutedView(m, kinds, t.button.value, t.down, moved, o);
      var s := RouteButton(m, t.button.value, t.down, moved, o);
      assert [t][1..] == [];
      NoButtons(s.m, moved, o);
    }
  }

  function Routed(i: Input, f: MouseFlag): seq<Transition>
    requires i.Mouse?
  {
    if f in i.flags then [TransitionOf(i, f)] else []
  }

  lemma ButtonShare(m: Machine, kinds: map<nat, Kind>, i: Input, f: MouseFlag, moved: bool, o: Owner)
    requires i.Mouse? && Going(m, kinds, o) && IsButton(f)
    ensures var r := RouteButtons(m, Routed(i, f), moved, o);
            && r.m == Phase(m, i, f, moved, o) && Going(r.m, kinds, o)
            && (TransitionOf(i, f).button.Some? ==> r.ok) && (TransitionOf(i, f).button.None? ==> r.m == m)
  {
    hide Going, RouteButtons, TransitionOf;
    NoButtons(m, moved, o);
    OneButton(m, kinds, TransitionOf(i, f), moved, o);
  }

  predicate IsPair(press: MouseFlag, release: MouseFlag) {
    || (press == LeftDown && release == LeftUp) || (press == RightDown && release == RightUp)
    || (press == MiddleDown && release == MiddleUp) || (press == XDown && release == XUp)
  }

  function Pair(i: Input, press: MouseFlag, release: MouseFlag): seq<Transition>
    requires i.Mouse?
  {
    Routed(i, press) + Routed(i, release)
  }

  lemma PairTransitions(i: Input, press: MouseFlag, release: MouseFlag)
    requires i.Mouse? && IsPair(press, release)
    ensures PressAndRelease(i.flags, press, release, TransitionOf(i, press).button) == Pair(i, press, release)
    ensures TransitionOf(i, release).button == TransitionOf(i, press).button
            && (press != XDown ==> TransitionOf(i, press).button.Some?)
    ensures IsButton(press) && IsButton(release)
  {}

  lemma TransitionsGrouped(i: Input)
    requires i.Mouse?
    ensures Transitions(i) == Pair(i, LeftDown, LeftUp) + Pair(i, RightDown, RightUp) + Pair(i, MiddleDown, MiddleUp)
            + Pair(i, XDown, XUp)
  {
    hide PressAndRelease, Pair;
    PairTransitions(i, LeftDown, LeftUp);
    PairTransitions(i, RightDown, RightUp);
    PairTransitions(i, MiddleDown, MiddleUp);
    PairTransitions(i, XDown, XUp);
  }

  /** A press flag and its release flag, one after the other. */
  lemma PairPhases(m: Machine, kinds: map<nat, Kind>, i: Input, press: MouseFlag, release: MouseFlag, moved: bool,
                   o: Owner)
    requires i.Mouse? && Going(m, kinds, o) && IsPair(press, release)
    ensures var r := RouteButtons(m, Pair(i, press, release), moved, o);
            && r.m == Phase(Phase(m, i, press, moved, o), i, release, moved, o) && Going(r.m, kinds, o)
            && (press != XDown ==> r.ok)
  {
    hide Going, RouteButtons, PressAndRelease, TransitionOf, Phase, Routed, IsPair;
    PairTransitions(i, press, release);
    RouteConcat(m, Routed(i, press), Routed(i, release), moved, o);
    ButtonShare(m, kinds, i, press, moved, o);
    ButtonShare(Phase(m, i, press, moved, o), kinds, i, release, moved, o);
  }

  lemma PhasesSplit(m: Machine, i: Input, moved: bool, o: Owner, k: nat)
    requires i.Mouse? && k + 2 <= STEPS
    ensures var n := Phase(Phase(m, i, Flag(k), moved, o), i, Flag(k + 1), moved, o);
            Phases(m, i, moved, o, k) == Phases(n, i, moved, o, k + 2)
  {
    hide Phase;
  }

  /** Four button lists routed one after the other. */
  lemma RouteFour(m: Machine, l: seq<Transition>, r: seq<Transition>, c: seq<Transition>, x: seq<Transition>,
                  moved: bool, o: Owner)
    ensures var a := RouteButtons(m, l, moved, o);
            var b := RouteButtons(a.m, r, moved, o);
            var d := RouteButtons(b.m, c, moved, o);
            a.ok && b.ok && d.ok ==> RouteButtons(m, l + r + c + x, moved, o) == RouteButtons(d.m, x, moved, o)
  {
    hide RouteButtons;
    RouteConcat(m, l, r, moved, o);
    RouteConcat(m, l + r, c, moved, o);
    RouteConcat(m, l + r + c, x, moved, o);
  }

  lemma FourPhases(m: Machine, i: Input, moved: bool, o: Owner)
    requires i.Mouse?
    ensures var a := Phase(Phase(m, i, LeftDown, moved, o), i, LeftUp, moved, o);
            var b := Phase(Phase(a, i, RightDown, moved, o), i, RightUp, moved, o);
            var d := Phase(Phase(b, i, MiddleDown, moved, o), i, MiddleUp, moved, o);
            Phases(m, i, moved, o, 3) == Phase(Phase(d, i, XDown, moved, o), i, XUp, moved, o)
  {
    hide Phase, Phases;
    var a := Phase(Phase(m, i, LeftDown, moved, o), i, LeftUp, moved, o);
    var b := Phase(Phase(a, i, RightDown, moved, o), i, RightUp, moved, o);
    var d := Phase(Phase(b, i, MiddleDown, moved, o), i, MiddleUp, moved, o);
    PhasesSplit(m, i, moved, o, 3);
    PhasesSplit(a, i, moved, o, 5);
    PhasesSplit(b, i, moved, o, 7);
    PhasesSplit(d, i, moved, o, 9);
    PhasesEnd(Phase(Phase(d, i, XDown, moved, o), i, XUp, moved, o), i, moved, o);
  }

  lemma ButtonsPhases(m: Machine, kinds: map<nat, Kind>, i: Input, moved: bool, o: Owner)
    requires i.Mouse? && Going(m, kinds, o)
    ensures RouteButtons(m, Transitions(i), moved, o).m == Phases(m, i, moved, o, 3)
  {
    hide Going, RouteButtons, Pair, Phase, Phases, Transitions;
    TransitionsGrouped(i);
    PairPhases(m, kinds, i, LeftDown, LeftUp, moved, o);
    var a := RouteButtons(m, Pair(i, LeftDown, LeftUp), moved, o).m;
    PairPhases(a, kinds, i, RightDown, RightUp, moved, o);
    var b := RouteButtons(a, Pair(i, RightDown, RightUp), moved, o).m;
    PairPhases(b, kinds, i, MiddleDown, MiddleUp, moved, o);
    PairPhases(RouteButtons(b, Pair(i, MiddleDown, MiddleUp), moved, o).m, kinds, i, XDown, XUp, moved, o);
    RouteFour(m, Pair(i, LeftDown, LeftUp), Pair(i, RightDown, RightUp), Pair(i, MiddleDown, MiddleUp),
      Pair(i, XDown, XUp), moved, o);
    FourPhases(m, i, moved, o);
  }

  lemma PhasesEnd(m: Machine, i: Input, moved: bool, o: Owner)
    requires i.Mouse?
    ensures Phases(m, i, moved, o, STEPS) == m
  {}

  /** The three pointer shares in terms of what an input moves and scrolls. */
  lemma PointerShares(m: Machine, i: Input, moved: bool, o: Owner)
    requires i.Mouse?
    ensures Phase(m, i, Move, moved, o) == Motion(m, i).m
    ensures Phase(m, i, Wheel, moved, o) == VerticalWheel(m, i).m
    ensures Phase(m, i, HorizontalWheel, moved, o) == SidewaysWheel(m, i).m
  {
    hide Motion, VerticalWheel, SidewaysWheel;
    NoMotion(m, i);
  }

  lemma PointerPhases(m: Machine, i: Input, moved: bool, o: Owner)
    requires i.Mouse?
    ensures Phases(m, i, moved, o, 0) == Phases(SidewaysWheel(VerticalWheel(Motion(m, i).m, i).m, i).m, i, moved, o, 3)
  {
    hide Motion, VerticalWheel, SidewaysWheel, Phase;
    PhasesSplit(m, i, moved, o, 0);
    var a := Motion(m, i).m;
    var b := VerticalWheel(a, i).m;
    PointerShares(m, i, moved, o);
    PointerShares(a, i, moved, o);
    PointerShares(b, i, moved, o);
    assert Phases(b, i, moved, o, 2) == Phases(Phase(b, i, Flag(2), moved, o), i, moved, o, 3);
    hide Phases;
  }

  lemma PointerSteps(m: Machine, kinds: map<nat, Kind>, i: Input, moved: bool, o: Owner)
    requires i.Mouse? && Going(m, kinds, o)
    ensures var c := SidewaysWheel(VerticalWheel(Motion(m, i).m, i).m, i).m;
            && Going(c, kinds, o)
            && SendMouse(m, i, moved, o).m == RouteButtons(c, Transitions(i), moved || MovesAbsolutely(i), o).m
  {
    var a := Motion(m, i).m;
    var b := VerticalWheel(a, i).m;
    var c := SidewaysWheel(b, i).m;
    hide Motion, VerticalWheel, SidewaysWheel, Transitions, RouteButtons, Going;
    GoingFlows(m, kinds, o);
    PointerOk(m, i);
    PointerGoes(m, a, kinds, o);
    GoingFlows(a, kinds, o);
    PointerOk(a, i);
    PointerGoes(a, b, kinds, o);
    GoingFlows(b, kinds, o);
    PointerOk(b, i);
    PointerGoes(b, c, kinds, o);
  }

  /** A compound input is its flags' shares in order. */
  lemma CompoundPhases(m: Machine, kinds: map<nat, Kind>, i: Input, moved: bool, o: Owner)
    requires i.Mouse? && Going(m, kinds, o)
    ensures SendMouse(m, i, moved, o).m == Phases(m, i, moved || MovesAbsolutely(i), o, 0)
  {
    hide Motion, VerticalWheel, SidewaysWheel, RouteButtons, Transitions, Phases, Phase, SendMouse, Going;
    PointerSteps(m, kinds, i, moved, o);
    PointerPhases(m, i, moved || MovesAbsolutely(i), o);
    ButtonsPhases(SidewaysWheel(VerticalWheel(Motion(m, i).m, i).m, i).m, kinds, i, moved || MovesAbsolutely(i), o);
  }

  // ---------------------------------------------------------------- the expansion

  lemma PhaseGoes(m: Machine, kinds: map<nat, Kind>, i: Input, f: MouseFlag, moved: bool, o: Owner)
    requires i.Mouse? && Going(m, kinds, o) && (IsPointer(f) || IsButton(f))
    ensures Going(Phase(m, i, f, moved, o), kinds, o)
  {
    hide Going, RouteButtons, Motion, VerticalWheel, SidewaysWheel;
    if IsPointer(f) {
      PointerGoes(m, Phase(m, i, f, moved, o), kinds, o);
    } else {
      ButtonShare(m, kinds, i, f, moved, o);
    }
  }

  lemma GoingFlows(m: Machine, kinds: map<nat, Kind>, o: Owner)
    requires Going(m, kinds, o)
    ensures Flowing(m)
  {}

  /** Whether the batch has moved absolutely before step k of the expansion. */
  function MovedBy(i: Input, moved: bool, k: nat): bool { moved || (k > 0 && MovesAbsolutely(i)) }

  lemma MoveIsFirst(i: Input, moved: bool, k: nat)
    requires i.Mouse? && k < STEPS && Flag(k) in i.flags
    ensures (MovedBy(i, moved, k) || MovesAbsolutely(Primitive(i, Flag(k)))) == MovedBy(i, moved, k + 1)
  {}

  lemma StepShare(m: Machine, kinds: map<nat, Kind>, i: Input, moved: bool, o: Owner, k: nat)
    requires i.Mouse? && Going(m, kinds, o) && k < STEPS && Flag(k) in i.flags
    ensures SendOne(m, Primitive(i, Flag(k)), MovedBy(i, moved, k), o) ==
            Phase(m, i, Flag(k), MovedBy(i, moved, STEPS), o)
  {
    GoingFlows(m, kinds, o);
    PrimitiveIsPhase(m, i, Flag(k), MovedBy(i, moved, k), o);
    hide Going, SendOne, Primitive, RouteButtons, Motion, VerticalWheel, SidewaysWheel;
  }

  lemma {:induction false} StepsSent(m: Machine, kinds: map<nat, Kind>, i: Input, moved: bool, o: Owner, k: nat)
    requires i.Mouse? && Going(m, kinds, o) && k <= STEPS
    ensures SendInputs(m, StepsFrom(i, k), false, MovedBy(i, moved, k), o) ==
            Phases(m, i, MovedBy(i, moved, STEPS), o, k)
    decreases STEPS - k
  {
    hide Going, SendOne, Primitive, Phase;
    StepsSplit(i, k);
    if k < STEPS {
      var n := Phase(m, i, Flag(k), MovedBy(i, moved, STEPS), o);
      PhaseGoes(m, kinds, i, Flag(k), MovedBy(i, moved, STEPS), o);
      StepsSent(n, kinds, i, moved, o, k + 1);
      if Flag(k) in i.flags {
        StepShare(m, kinds, i, moved, o, k);
        MoveIsFirst(i, moved, k);
        FirstSent(m, Primitive(i, Flag(k)), StepsFrom(i, k + 1), MovedBy(i, moved, k), o);
      } else {
        SkippedFlag(m, i, moved, o, k);
      }
    }
  }

  lemma FirstSent(m: Machine, p: Input, rest: seq<Input>, moved: bool, o: Owner)
    ensures SendInputs(m, [p] + rest, false, moved, o)
            == SendInputs(SendOne(m, p, moved, o), rest, false, moved || MovesAbsolutely(p), o)
  {
    hide SendOne;
    assert ([p] + rest)[1..] == rest;
  }

  lemma SkippedFlag(m: Machine, i: Input, moved: bool, o: Owner, k: nat)
    requires i.Mouse? && k < STEPS && Flag(k) !in i.flags
    ensures Phase(m, i, Flag(k), MovedBy(i, moved, STEPS), o) == m && MovedBy(i, moved, k) == MovedBy(i, moved, k + 1)
  {
  }

  const RELEASES := {LeftUp, RightUp, MiddleUp, XUp}

  function Reduced(i: Input): Input
    requires i.Mouse?
  {
    i.(flags := i.flags * RELEASES)
  }

  /** A dead owner's steps are the steps of its releases. */
  lemma {:induction false} DeadSteps(m: Machine, i: Input, moved: bool, o: Owner, k: nat)
    requires i.Mouse? && k <= STEPS
    ensures SendInputs(m, StepsFrom(i, k), true, moved, o) == SendInputs(m, StepsFrom(Reduced(i), k), false, moved, o)
    decreases STEPS - k
  {
    hide Flag, SendOne, Primitive, Played, StepsFrom, SendInputs;
    StepsSplit(i, k);
    StepsSplit(Reduced(i), k);
    if k == STEPS {
      NothingSent(m, true, moved, o);
      NothingSent(m, false, moved, o);
    } else if Flag(k) !in i.flags {
      DeadSteps(m, i, moved, o, k + 1);
    } else {
      var p, rest := Primitive(i, Flag(k)), StepsFrom(i, k + 1);
      FirstPlayed(m, p, rest, true, moved, o);
      if Flag(k) in RELEASES {
        DeadRelease(i, Flag(k));
        DeadSteps(SendOne(m, p, moved, o), i, moved, o, k + 1);
        FirstSent(m, p, StepsFrom(Reduced(i), k + 1), moved, o);
      } else {
        DeadPress(i, Flag(k));
        DeadSteps(m, i, moved, o, k + 1);
      }
    }
  }

  lemma NothingSent(m: Machine, dead: bool, moved: bool, o: Owner)
    ensures SendInputs(m, [], dead, moved, o) == m
  {}

  lemma FirstPlayed(m: Machine, p: Input, rest: seq<Input>, dead: bool, moved: bool, o: Owner)
    ensures SendInputs(m, [p] + rest, dead, moved, o) ==
            match Played(p, dead)
            case None => SendInputs(m, rest, dead, moved, o)
            case Some(i) => SendInputs(SendOne(m, i, moved, o), rest, dead, moved || MovesAbsolutely(i), o)
  {
    hide SendOne, Played;
    assert ([p] + rest)[1..] == rest;
  }

  lemma DeadRelease(i: Input, f: MouseFlag)
    requires i.Mouse? && f in RELEASES
    ensures Played(Primitive(i, f), true) == Some(Primitive(i, f)) && Primitive(i, f) == Primitive(Reduced(i), f)
    ensures !MovesAbsolutely(Primitive(i, f))
  {
    assert {f} * RELEASES == {f};
  }

  lemma DeadPress(i: Input, f: MouseFlag)
    requires i.Mouse? && f !in RELEASES
    ensures Played(Primitive(i, f), true).None?
  {
    assert Primitive(i, f).flags * RELEASES == {};
  }

  lemma {:induction false} NoSteps(i: Input, k: nat)
    requires i.Mouse? && i.flags == {} && k <= STEPS
    ensures StepsFrom(i, k) == []
    decreases STEPS - k
  {
    if k < STEPS {
      NoSteps(i, k + 1);
    }
  }

  lemma AloneSent(m: Machine, i: Input, dead: bool, moved: bool, o: Owner)
    ensures SendInputs(m, [i], dead, moved, o) == if Played(i, dead).None? then m
            else SendOne(m, Played(i, dead).value, moved, o)
  {
    hide SendOne, Played;
    assert [i][1..] == [];
  }

  lemma LivingSteps(m: Machine, kinds: map<nat, Kind>, i: Input, moved: bool, o: Owner)
    requires i.Mouse? && Going(m, kinds, o)
    ensures SendInputs(m, StepsFrom(i, 0), false, moved, o) == SendMouse(m, i, moved, o).m
  {
    hide Going, SendMouse, Phases;
    StepsSent(m, kinds, i, moved, o, 0);
    CompoundPhases(m, kinds, i, moved, o);
  }

  /** Sent as one batch, the expansion of an input writes the same events in the same order
      and leaves the same claims, displacements and devices as the input itself. */
  lemma SplittingPreservesMeaning(m: Machine, kinds: map<nat, Kind>, i: Input, dead: bool, moved: bool, o: Owner)
    requires Going(m, kinds, o)
    ensures SendInputs(m, Expand(i), dead, moved, o) == SendInputs(m, [i], dead, moved, o)
  {
    hide Going, SendMouse;
    if i.Mouse? && StepsFrom(i, 0) != [] {
      AloneSent(m, i, dead, moved, o);
      if dead {
        var j := Reduced(i);
        DeadSteps(m, i, moved, o, 0);
        if j.flags == {} {
          NoSteps(j, 0);
        } else {
          LivingSteps(m, kinds, j, moved, o);
        }
      } else {
        LivingSteps(m, kinds, i, moved, o);
      }
    }
  }

  // ---------------------------------------------------------------- the admitted side

  /** The transitions of the flags from step k on. */
  function RoutedFrom(i: Input, k: nat): seq<Transition>
    requires i.Mouse? && k <= STEPS
    decreases STEPS - k
  {
    if k == STEPS then [] else (if IsButton(Flag(k)) then Routed(i, Flag(k)) else []) + RoutedFrom(i, k + 1)
  }

  lemma RoutedPair(i: Input, k: nat)
    requires i.Mouse? && 3 <= k && k + 2 <= STEPS
    ensures RoutedFrom(i, k) == Pair(i, Flag(k), Flag(k + 1)) + RoutedFrom(i, k + 2)
  {
    hide Routed;
  }

  lemma RoutedEnds(i: Input)
    requires i.Mouse?
    ensures RoutedFrom(i, 0) == RoutedFrom(i, 3) && RoutedFrom(i, 11) == []
  {
    hide Routed;
  }

  lemma TransitionsAreRouted(i: Input)
    requires i.Mouse?
    ensures Transitions(i) == RoutedFrom(i, 0)
  {
    hide Transitions, Routed, RoutedFrom;
    TransitionsGrouped(i);
    RoutedEnds(i);
    RoutedPair(i, 3);
    RoutedPair(i, 5);
    RoutedPair(i, 7);
    RoutedPair(i, 9);
    hide Pair;
    Regroup(Pair(i, LeftDown, LeftUp), Pair(i, RightDown, RightUp), Pair(i, MiddleDown, MiddleUp), Pair(i, XDown, XUp));
  }

  lemma Regroup(l: seq<Transition>, r: seq<Transition>, c: seq<Transition>, x: seq<Transition>)
    ensures l + r + c + x == l + (r + (c + (x + [])))
  {}

  lemma {:induction false} ButtonsConcat(v: ViewState, a: seq<Transition>, b: seq<Transition>, moved: bool, o: Owner)
    ensures Buttons(v, a + b, moved, o) == Buttons(Buttons(v, a, moved, o), b, moved, o)
    decreases |a|
  {
    hide PressOrRelease;
    if a == [] {
      assert a + b == b;
    } else {
      assert (a + b)[0] == a[0] && (a + b)[1..] == a[1..] + b;
      ButtonsConcat(if a[0].button.None? then v
        else PressOrRelease(v, a[0].button.value, a[0].down, !moved, o), a[1..], b, moved, o);
    }
  }

  lemma StepMeans(vk: map<nat, nat>, v: ViewState, i: Input, moved: bool, o: Owner, k: nat)
    requires i.Mouse? && k < STEPS && Flag(k) in i.flags
    ensures OneInput(vk, v, Primitive(i, Flag(k)), MovedBy(i, moved, k), o)
            == Buttons(v, if IsButton(Flag(k)) then Routed(i, Flag(k)) else [], MovedBy(i, moved, STEPS), o)
  {
    if IsButton(Flag(k)) {
      ButtonTransitions(i, Flag(k));
    } else {
      PointerTransitions(i, Flag(k));
    }
    MoveIsFirst(i, moved, k);
    hide Transitions, PressOrRelease, TransitionOf;
  }

  lemma {:induction false} StepsMean(vk: map<nat, nat>, v: ViewState, i: Input, moved: bool, o: Owner, k: nat)
    requires i.Mouse? && k <= STEPS
    ensures AllInputs(vk, v, StepsFrom(i, k), false, MovedBy(i, moved, k), o) ==
            Buttons(v, RoutedFrom(i, k), MovedBy(i, moved, STEPS), o)
    decreases STEPS - k
  {
    hide OneInput, Primitive, StepsFrom, AllInputs, PressOrRelease;
    StepsSplit(i, k);
    if k == STEPS {
      NothingMeans(vk, v, false, MovedBy(i, moved, k), o);
    } else {
      var moves, share := MovedBy(i, moved, STEPS), if IsButton(Flag(k)) then Routed(i, Flag(k)) else [];
      assert RoutedFrom(i, k) == share + RoutedFrom(i, k + 1);
      hide RoutedFrom, Routed, MovedBy;
      ButtonsConcat(v, share, RoutedFrom(i, k + 1), moves, o);
      hide Buttons;
      StepsMean(vk, Buttons(v, share, moves, o), i, moved, o, k + 1);
      if Flag(k) in i.flags {
        var p, rest := Primitive(i, Flag(k)), StepsFrom(i, k + 1);
        FirstMeans(vk, v, p, rest, false, MovedBy(i, moved, k), o);
        LivingPlays(p);
        StepMeans(vk, v, i, moved, o, k);
        MoveIsFirst(i, moved, k);
      } else {
        NoShare(v, i, moved, moves, o, k);
      }
    }
  }

  lemma NoShare(v: ViewState, i: Input, moved: bool, moves: bool, o: Owner, k: nat)
    requires i.Mouse? && k < STEPS && Flag(k) !in i.flags
    ensures Buttons(v, if IsButton(Flag(k)) then Routed(i, Flag(k)) else [], moves, o) == v
            && MovedBy(i, moved, k) == MovedBy(i, moved, k + 1)
  {}

  lemma FirstMeans(vk: map<nat, nat>, v: ViewState, p: Input, rest: seq<Input>, dead: bool, moved: bool, o: Owner)
    ensures AllInputs(vk, v, [p] + rest, dead, moved, o) ==
            match Played(p, dead)
            case None => AllInputs(vk, v, rest, dead, moved, o)
            case Some(i) => AllInputs(vk, OneInput(vk, v, i, moved, o), rest, dead, moved || MovesAbsolutely(i), o)
  {
    hide OneInput, Played;
    assert ([p] + rest)[1..] == rest;
  }

  lemma {:induction false} DeadStepsMean(vk: map<nat, nat>, v: ViewState, i: Input, moved: bool, o: Owner, k: nat)
    requires i.Mouse? && k <= STEPS
    ensures AllInputs(vk, v, StepsFrom(i, k), true, moved, o) ==
            AllInputs(vk, v, StepsFrom(Reduced(i), k), false, moved, o)
    decreases STEPS - k
  {
    hide Flag, OneInput, Primitive, Played, StepsFrom, AllInputs;
    StepsSplit(i, k);
    StepsSplit(Reduced(i), k);
    if k == STEPS {
      NothingMeans(vk, v, true, moved, o);
      NothingMeans(vk, v, false, moved, o);
    } else if Flag(k) !in i.flags {
      DeadStepsMean(vk, v, i, moved, o, k + 1);
    } else {
      var p, rest := Primitive(i, Flag(k)), StepsFrom(i, k + 1);
      FirstMeans(vk, v, p, rest, true, moved, o);
      if Flag(k) in RELEASES {
        DeadRelease(i, Flag(k));
        DeadStepsMean(vk, OneInput(vk, v, p, moved, o), i, moved, o, k + 1);
        FirstMeans(vk, v, p, StepsFrom(Reduced(i), k + 1), false, moved, o);
        assert Played(p, false) == Some(p) by { LivingPlays(p); }
      } else {
        DeadPress(i, Flag(k));
        DeadStepsMean(vk, v, i, moved, o, k + 1);
      }
    }
  }

  lemma NothingMeans(vk: map<nat, nat>, v: ViewState, dead: bool, moved: bool, o: Owner)
    ensures AllInputs(vk, v, [], dead, moved, o) == v
  {}

  lemma LivingPlays(i: Input)
    ensures Played(i, false) == Some(i)
  {}

  lemma LivingStepsMean(vk: map<nat, nat>, v: ViewState, i: Input, moved: bool, o: Owner)
    requires i.Mouse?
    ensures AllInputs(vk, v, StepsFrom(i, 0), false, moved, o) == OneInput(vk, v, i, moved, o)
  {
    hide Transitions, Buttons, StepsFrom, RoutedFrom, AllInputs;
    StepsMean(vk, v, i, moved, o, 0);
    TransitionsAreRouted(i);
  }

  /** Admission records the same for the expansion of an input as for the input itself,
      whether or not the claim table has room. */
  lemma SplittingPreservesAdmission(vk: map<nat, nat>, v: ViewState, i: Input, dead: bool, moved: bool, o: Owner)
    ensures AllInputs(vk, v, Expand(i), dead, moved, o) == AllInputs(vk, v, [i], dead, moved, o)
  {
    hide OneInput, StepsFrom, AllInputs;
    if i.Mouse? && StepsFrom(i, 0) != [] {
      assert [i] + [] == [i];
      FirstMeans(vk, v, i, [], dead, moved, o);
      NothingMeans(vk, v, false, moved, o);
      if dead {
        DeadStepsMean(vk, v, i, moved, o, 0);
        if Reduced(i).flags == {} {
          NoSteps(Reduced(i), 0);
          NothingMeans(vk, v, true, moved, o);
        } else {
          LivingStepsMean(vk, v, Reduced(i), moved, o);
          NothingMeans(vk, OneInput(vk, v, Reduced(i), moved, o), true, moved, o);
        }
      } else {
        LivingStepsMean(vk, v, i, moved, o);
        NothingMeans(vk, OneInput(vk, v, i, moved, o), false, moved || MovesAbsolutely(i), o);
      }
    }
  }
}
