/** Where the pointer goes: folding the events written to the pointer devices gives the
    motion and the scrolling that the inputs ask for. */
module PointerMotion {
  import opened Codes
  import opened Claims
  import opened Forwarding
  import opened Synthesis
  import opened SynthInvariant
  import opened Outputs
  import opened OutputRuns

  /** A desktop's view of the pointer: its position, and how far each wheel has turned. */
  datatype Pointer = Pointer(x: int, y: int, fine: int, fineSideways: int)

  /** What an event does, by the codes of the Linux input protocol. */
  function Moved(p: Pointer, o: Out): Pointer {
    match o
    case ToPointer(e) =>
      if e.kind != 2 then p
      else if e.code == 0 then p.(x := p.x + e.value)
      else if e.code == 1 then p.(y := p.y + e.value)
      else if e.code == 11 then p.(fine := p.fine + e.value)
      else if e.code == 12 then p.(fineSideways := p.fineSideways + e.value)
      else p
    case ToAbsolute(e) =>
      if e.kind == 3 && e.code == 0 then p.(x := e.value)
      else if e.kind == 3 && e.code == 1 then p.(y := e.value)
      else p
    case _ => p
  }

  function MovedBy(p: Pointer, outs: seq<Out>): Pointer {
    if outs == [] then p else Moved(MovedBy(p, outs[..|outs| - 1]), outs[|outs| - 1])
  }

  /** The detents a wheel has turned. */
  function Detents(outs: seq<Out>, wheel: nat): int {
    if outs == [] then 0
    else
      var o := outs[|outs| - 1];
      Detents(outs[..|outs| - 1], wheel)
      + if o.ToPointer? && o.event.kind == 2 && o.event.code == wheel then o.event.value else 0
  }

  lemma {:induction false} MovedConcat(p: Pointer, a: seq<Out>, b: seq<Out>, wheel: nat)
    ensures MovedBy(p, a + b) == MovedBy(MovedBy(p, a), b)
    ensures Detents(a + b, wheel) == Detents(a, wheel) + Detents(b, wheel)
    decreases |b|
  {
    if b == [] {
      assert a + b == a;
    } else {
      assert (a + b)[..|a + b| - 1] == a + b[..|b| - 1] && (a + b)[|a + b| - 1] == b[|b| - 1];
      MovedConcat(p, a, b[..|b| - 1], wheel);
    }
  }

  lemma {:induction false} UnmovedBy(p: Pointer, outs: seq<Out>, wheel: nat)
    requires forall k :: 0 <= k < |outs| ==> Unmoving(outs[k])
    ensures MovedBy(p, outs) == p && Detents(outs, wheel) == 0
  {
    if outs != [] {
      assert forall k :: 0 <= k < |outs| - 1 ==> outs[..|outs| - 1][k] == outs[k];
      UnmovedBy(p, outs[..|outs| - 1], wheel);
    }
  }

  lemma OneEvent(p: Pointer, o: Out, wheel: nat)
    ensures MovedBy(p, [o]) == Moved(p, o)
    ensures Detents([o], wheel) ==
            if o.ToPointer? && o.event.kind == 2 && o.event.code == wheel then o.event.value else 0
  {
    assert [o][..0] == [];
  }

  // ---------------------------------------------------------------- what is asked

  /** A 32-bit word read as a signed number. */
  function Signed(n: nat): int { (n + 0x8000_0000) % 0x1_0000_0000 - 0x8000_0000 }

  function Travel(p: Pointer, i: Input, absReady: bool): Pointer
    requires i.Mouse?
  {
    if Move !in i.flags then p
    else if Absolute !in i.flags then p.(x := p.x + i.dx, y := p.y + i.dy)
    else if absReady then p.(x := i.dx, y := i.dy) else p
  }

  function Scrolled(flag: MouseFlag, i: Input): int
    requires i.Mouse?
  {
    if flag in i.flags then Signed(i.data) else 0
  }

  /** The motion and the scrolling of an input. */
  function Asked(p: Pointer, i: Input, absReady: bool): Pointer {
    if i.Keyboard? then p
    else
      var q := Travel(p, i, absReady);
      q.(fine := q.fine + Scrolled(Wheel, i), fineSideways := q.fineSideways + Scrolled(HorizontalWheel, i))
  }

  /** Inputs of a dead owner ask for no motion. */
  function AskedBy(p: Pointer, inputs: seq<Input>, dead: bool, absReady: bool): Pointer
    decreases |inputs|
  {
    if inputs == [] || dead then p else AskedBy(Asked(p, inputs[0], absReady), inputs[1..], dead, absReady)
  }

  // ---------------------------------------------------------------- what is written

  const VERTICAL := 8
  const SIDEWAYS := 6

  /** From m to g the pointer went from p to q, and what each wheel turned without its detents
      is the change of its remainder. */
  predicate Goes(m: Machine, g: Machine, p: Pointer, q: Pointer) {
    && m.fwd.trace <= g.fwd.trace && g.absReady == m.absReady && PointerUp(g)
    && var outs := g.fwd.trace[|m.fwd.trace|..];
       && MovedBy(p, outs) == q
       && 120 * Detents(outs, VERTICAL) + g.wheel == m.wheel + q.fine - p.fine
       && 120 * Detents(outs, SIDEWAYS) + g.hwheel == m.hwheel + q.fineSideways - p.fineSideways
  }

  lemma GoesOn(m: Machine, g: Machine, h: Machine, p: Pointer, q: Pointer, r: Pointer)
    requires Goes(m, g, p, q) && Goes(g, h, q, r)
    ensures Goes(m, h, p, r)
  {
    var a, b := g.fwd.trace[|m.fwd.trace|..], h.fwd.trace[|g.fwd.trace|..];
    assert h.fwd.trace[|m.fwd.trace|..] == a + b;
    MovedConcat(p, a, b, VERTICAL);
    MovedConcat(p, a, b, SIDEWAYS);
    hide MovedBy, Detents;
  }

  lemma StillGoes(m: Machine, g: Machine, p: Pointer)
    requires Still(m, g) && PointerUp(m)
    ensures Goes(m, g, p, p)
  {
    var outs := g.fwd.trace[|m.fwd.trace|..];
    assert forall k :: 0 <= k < |outs| ==> outs[k] == g.fwd.trace[|m.fwd.trace| + k];
    UnmovedBy(p, outs, VERTICAL);
    UnmovedBy(p, outs, SIDEWAYS);
    hide MovedBy, Detents;
  }

  /** A step of the position. */
  lemma StepGoes(m: Machine, o: Out, p: Pointer)
    requires PointerUp(m) && (o.ToAbsolute? || (o.ToPointer? && o.event.code <= 1))
    ensures Emit(m, o).ok && PointerUp(Emit(m, o).m) && Goes(m, Emit(m, o).m, p, Moved(p, o))
  {
    OneEvent(p, o, VERTICAL);
    OneEvent(p, o, SIDEWAYS);
    assert (m.fwd.trace + [o])[|m.fwd.trace|..] == [o];
  }

  lemma Rests(m: Machine, p: Pointer)
    requires PointerUp(m)
    ensures Goes(m, m, p, p)
  {
    assert m.fwd.trace[|m.fwd.trace|..] == [];
  }

  lemma TwoSteps(m: Machine, a: Out, b: Out, p: Pointer)
    requires PointerUp(m) && (a.ToAbsolute? || (a.ToPointer? && a.event.code <= 1))
    requires b.ToAbsolute? || (b.ToPointer? && b.event.code <= 1)
    ensures Emit(m, a).ok && Emit(Emit(m, a).m, b).ok
    ensures Goes(m, Emit(m, a).m, p, Moved(p, a)) && Goes(m, Emit(Emit(m, a).m, b).m, p, Moved(Moved(p, a), b))
    ensures Emit(m, b).ok && Goes(m, Emit(m, b).m, p, Moved(p, b)) && Goes(m, m, p, p)
  {
    hide Goes, Emit, Moved;
    Rests(m, p);
    StepGoes(m, a, p);
    StepGoes(m, b, p);
    StepGoes(Emit(m, a).m, b, Moved(p, a));
    GoesOn(m, Emit(m, a).m, Emit(Emit(m, a).m, b).m, p, Moved(p, a), Moved(Moved(p, a), b));
  }

  lemma MotionGoes(m: Machine, i: Input, p: Pointer)
    requires PointerUp(m) && i.Mouse?
    ensures Motion(m, i).ok && Goes(m, Motion(m, i).m, p, Travel(p, i, m.absReady))
  {
    hide Goes, Emit;
    Rests(m, p);
    if Absolute in i.flags {
      TwoSteps(m, ToAbsolute(Event(3, 0, i.dx)), ToAbsolute(Event(3, 1, i.dy)), p);
    } else {
      TwoSteps(m, ToPointer(Event(2, 0, i.dx)), ToPointer(Event(2, 1, i.dy)), p);
    }
  }

  /** One turn of a wheel: its high-resolution step, and the detents it completes. */
  lemma ScrollGoes(m: Machine, delta: int, total: int, hiRes: nat, wheel: nat, other: nat, p: Pointer)
    requires PointerUp(m) && hiRes != wheel && hiRes != other && wheel != other && 6 <= wheel <= 8
             && (hiRes == 11 || hiRes == 12)
    ensures var s := Scroll(m, delta, total, hiRes, wheel);
            && s.ok && PointerUp(s.m) && m.fwd.trace <= s.m.fwd.trace && s.m == m.(fwd := s.m.fwd)
            && var outs := s.m.fwd.trace[|m.fwd.trace|..];
               && MovedBy(p, outs) == Moved(p, ToPointer(Event(2, hiRes, delta)))
               && Detents(outs, wheel) == TruncatedDiv(total, 120) && Detents(outs, other) == 0
  {
    var n := TruncatedDiv(total, 120);
    var a, b := ToPointer(Event(2, hiRes, delta)), ToPointer(Event(2, wheel, n));
    OneEvent(p, a, wheel);
    OneEvent(p, a, other);
    OneEvent(Moved(p, a), b, wheel);
    OneEvent(Moved(p, a), b, other);
    MovedConcat(p, [a], [b], wheel);
    MovedConcat(p, [a], [b], other);
    var outs := Scroll(m, delta, total, hiRes, wheel).m.fwd.trace[|m.fwd.trace|..];
    assert outs == if n != 0 then [a] + [b] else [a];
    hide MovedBy, Detents, TruncatedDiv;
  }

  lemma VerticalGoes(m: Machine, i: Input, p: Pointer)
    requires PointerUp(m) && i.Mouse? && i.data < 0x1_0000_0000
    ensures VerticalWheel(m, i).ok
    ensures Goes(m, VerticalWheel(m, i).m, p, p.(fine := p.fine + Scrolled(Wheel, i)))
  {
    Rests(m, p);
    var delta := Int32(i.data);
    assert delta == Signed(i.data);
    var total := delta + m.wheel;
    ScrollGoes(m.(wheel := total - 120 * TruncatedDiv(total, 120)), delta, total, 11, 8, 6, p);
    hide Scroll, MovedBy, Detents, TruncatedDiv, Int32, Signed;
  }

  lemma SidewaysGoes(m: Machine, i: Input, p: Pointer)
    requires PointerUp(m) && i.Mouse? && i.data < 0x1_0000_0000
    ensures SidewaysWheel(m, i).ok
    ensures Goes(m, SidewaysWheel(m, i).m, p, p.(fineSideways := p.fineSideways + Scrolled(HorizontalWheel, i)))
  {
    Rests(m, p);
    var delta := Int32(i.data);
    assert delta == Signed(i.data);
    var total := delta + m.hwheel;
    ScrollGoes(m.(hwheel := total - 120 * TruncatedDiv(total, 120)), delta, total, 12, 6, 8, p);
    hide Scroll, MovedBy, Detents, TruncatedDiv, Int32, Signed;
  }

  lemma MouseGoes(m: Machine, i: Input, moved: bool, o: Owner, p: Pointer)
    requires PointerUp(m) && i.Mouse? && i.data < 0x1_0000_0000
    ensures Goes(m, SendMouse(m, i, moved, o).m, p, Asked(p, i, m.absReady))
  {
    var a := Motion(m, i).m;
    var b := VerticalWheel(a, i).m;
    var c := SidewaysWheel(b, i).m;
    var d := RouteButtons(c, Transitions(i), moved || MovesAbsolutely(i), o).m;
    var q := Travel(p, i, m.absReady);
    var r := q.(fine := q.fine + Scrolled(Wheel, i));
    var s := r.(fineSideways := r.fineSideways + Scrolled(HorizontalWheel, i));
    hide Motion, VerticalWheel, SidewaysWheel, RouteButtons, Transitions, Travel, Scrolled;
    MotionGoes(m, i, p);
    VerticalGoes(a, i, q);
    SidewaysGoes(b, i, r);
    RoutesStir(c, Transitions(i), moved || MovesAbsolutely(i), o, AbsoluteDevice);
    StillGoes(c, d, s);
    GoesOn(m, a, b, p, q, r);
    GoesOn(m, b, c, p, r, s);
    GoesOn(m, c, d, p, s, s);
  }

  // ---------------------------------------------------------------- batches

  predicate WordsOk(inputs: seq<Input>) {
    forall k :: 0 <= k < |inputs| && inputs[k].Mouse? ==> inputs[k].data < 0x1_0000_0000
  }

  lemma LivingGoes(m: Machine, i: Input, moved: bool, o: Owner, p: Pointer)
    requires MachineInv(m) && PointerUp(m) && (i.Mouse? ==> i.data < 0x1_0000_0000)
    ensures Goes(m, SendOne(m, i, moved, o), p, Asked(p, i, m.absReady))
  {
    if i.Mouse? {
      MouseGoes(m, i, moved, o, p);
    } else {
      KeyboardStirs(m, i, o, AbsoluteDevice);
      StillGoes(m, SendKeyboard(m, i, o), p);
    }
    hide SendMouse, SendKeyboard, Goes;
  }

  lemma DeadGoes(m: Machine, i: Input, moved: bool, o: Owner, p: Pointer)
    requires MachineInv(m) && PointerUp(m) && (i.Mouse? ==> i.data < 0x1_0000_0000) && Played(i, true).Some?
    ensures Goes(m, SendOne(m, Played(i, true).value, moved, o), p, p)
  {
    var k := Played(i, true).value;
    assert Asked(p, k, m.absReady) == p && (k.Mouse? ==> k.data < 0x1_0000_0000);
    hide Goes, SendOne, Asked, Played;
    LivingGoes(m, k, moved, o, p);
  }

  lemma SentKeeps(m: Machine, i: Input, moved: bool, o: Owner)
    requires MachineInv(m)
    ensures MachineInv(SendOne(m, i, moved, o))
  {
    if i.Keyboard? {
      SendKeyboardKeeps(m, i, o);
    } else {
      SendMouseKeeps(m, i, moved, o);
    }
    hide MachineInv, SendKeyboard, SendMouse;
  }

  /** While the pointer devices accept writes, folding the events a batch writes moves the
      pointer and turns the wheels as its inputs ask, whatever else is refused; and on each
      wheel 120 times the detents and the change of the remainder make up the turns. */
  lemma {:induction false} PointerGoesWhereAsked(m: Machine, inputs: seq<Input>, dead: bool, moved: bool, o: Owner,
                                                 p: Pointer)
    requires MachineInv(m) && PointerUp(m) && WordsOk(inputs)
    ensures Goes(m, SendInputs(m, inputs, dead, moved, o), p, AskedBy(p, inputs, dead, m.absReady))
    decreases |inputs|
  {
    Rests(m, p);
    hide Goes, MachineInv, SendOne, Asked;
    if inputs != [] {
      assert forall k :: 0 <= k < |inputs[1..]| ==> inputs[1..][k] == inputs[k + 1];
      var i := inputs[0];
      var played := Played(i, dead);
      if played.None? {
        PointerGoesWhereAsked(m, inputs[1..], dead, moved, o, p);
      } else {
        var g := SendOne(m, played.value, moved, o);
        SentKeeps(m, played.value, moved, o);
        var q := if dead then p else Asked(p, i, m.absReady);
        if dead {
          DeadGoes(m, i, moved, o, p);
        } else {
          LivingGoes(m, i, moved, o, p);
        }
        GoesUp(m, g, p, q);
        PointerGoesWhereAsked(g, inputs[1..], dead, moved || MovesAbsolutely(played.value), o, q);
        GoesOn(m, g, SendInputs(g, inputs[1..], dead, moved || MovesAbsolutely(played.value), o), p, q,
               AskedBy(q, inputs[1..], dead, m.absReady));
      }
    }
  }

  lemma GoesUp(m: Machine, g: Machine, p: Pointer, q: Pointer)
    requires Goes(m, g, p, q)
    ensures PointerUp(g) && g.absReady == m.absReady
  {}

  lemma EmitFrame(m: Machine, o: Out)
    ensures Emit(m, o).m.wheel == m.wheel && Emit(m, o).m.hwheel == m.hwheel
  {}

  lemma MotionFrame(m: Machine, i: Input)
    requires i.Mouse?
    ensures Motion(m, i).m.wheel == m.wheel && Motion(m, i).m.hwheel == m.hwheel
  {
    hide Emit;
    var a, b := ToAbsolute(Event(EV_ABS, 0, i.dx)), ToPointer(Event(EV_REL, 0, i.dx));
    EmitFrame(m, a);
    EmitFrame(m, b);
    EmitFrame(m, ToPointer(Event(EV_REL, 1, i.dy)));
    EmitFrame(Emit(m, a).m, ToAbsolute(Event(EV_ABS, 1, i.dy)));
    EmitFrame(Emit(m, b).m, ToPointer(Event(EV_REL, 1, i.dy)));
  }

  lemma ScrollFrame(m: Machine, delta: int, total: int, hiRes: nat, detent: nat)
    ensures var g := Scroll(m, delta, total, hiRes, detent).m; g.wheel == m.wheel && g.hwheel == m.hwheel
  {
    hide Emit, TruncatedDiv;
    var a := ToPointer(Event(EV_REL, hiRes, delta));
    EmitFrame(m, a);
    EmitFrame(Emit(m, a).m, ToPointer(Event(EV_REL, detent, TruncatedDiv(total, 120))));
  }

  lemma WheelFrames(m: Machine, i: Input)
    requires i.Mouse?
    ensures VerticalWheel(m, i).m.hwheel == m.hwheel && SidewaysWheel(m, i).m.wheel == m.wheel
  {
    hide Scroll, TruncatedDiv, Int32;
    var a, b := Int32(i.data) + m.wheel, Int32(i.data) + m.hwheel;
    ScrollFrame(m.(wheel := a - 120 * TruncatedDiv(a, 120)), Int32(i.data), a, REL_WHEEL_HI_RES, REL_WHEEL);
    ScrollFrame(m.(hwheel := b - 120 * TruncatedDiv(b, 120)), Int32(i.data), b, REL_HWHEEL_HI_RES, REL_HWHEEL);
  }

  /** The remainder after a turn. */
  predicate Remains(total: int, left: int) { if total >= 0 then 0 <= left < 120 else -120 < left <= 0 }

  lemma Remaining(m: Machine, i: Input)
    requires i.Mouse? && i.data < 0x1_0000_0000
    ensures Wheel in i.flags ==> Remains(m.wheel + Scrolled(Wheel, i), VerticalWheel(m, i).m.wheel)
    ensures HorizontalWheel in i.flags ==>
              Remains(m.hwheel + Scrolled(HorizontalWheel, i), SidewaysWheel(m, i).m.hwheel)
  {
    assert Int32(i.data) == Signed(i.data);
    hide Int32, Signed;
  }

  /** Buttons come last and leave the wheels as they are. */
  lemma WheelsAtTheEnd(m: Machine, i: Input, moved: bool, o: Owner)
    requires PointerUp(m) && i.Mouse? && i.data < 0x1_0000_0000
    ensures var c, g := SidewaysWheel(VerticalWheel(Motion(m, i).m, i).m, i).m, SendMouse(m, i, moved, o).m;
            g.wheel == c.wheel && g.hwheel == c.hwheel
  {
    var p := Pointer(0, 0, 0, 0);
    hide Motion, VerticalWheel, SidewaysWheel, RouteButtons, Transitions, Scrolled, Travel, Goes;
    var a := Motion(m, i).m;
    MotionGoes(m, i, p);
    GoesUp(m, a, p, Travel(p, i, m.absReady));
    var b := VerticalWheel(a, i).m;
    VerticalGoes(a, i, p);
    GoesUp(a, b, p, p.(fine := p.fine + Scrolled(Wheel, i)));
    SidewaysGoes(b, i, p);
    var c := SidewaysWheel(b, i).m;
    RoutesStir(c, Transitions(i), moved || MovesAbsolutely(i), o, AbsoluteDevice);
    hide Tells;
  }

  /** A wheel keeps less than a detent, on the side it was turned to. */
  lemma RemaindersAreSmall(m: Machine, i: Input, moved: bool, o: Owner)
    requires PointerUp(m) && i.Mouse? && i.data < 0x1_0000_0000
    ensures var g := SendMouse(m, i, moved, o).m;
            && (Wheel in i.flags ==> Remains(m.wheel + Scrolled(Wheel, i), g.wheel))
            && (HorizontalWheel in i.flags ==> Remains(m.hwheel + Scrolled(HorizontalWheel, i), g.hwheel))
  {
    hide Motion, VerticalWheel, SidewaysWheel, SendMouse, Scrolled, Remains;
    var a := Motion(m, i).m;
    var b := VerticalWheel(a, i).m;
    WheelsAtTheEnd(m, i, moved, o);
    MotionFrame(m, i);
    WheelFrames(a, i);
    WheelFrames(b, i);
    Remaining(a, i);
    Remaining(b, i);
  }
}
