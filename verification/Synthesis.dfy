/** Synthesized input on top of the forwarded sources: the operations of
    src/platform/linux_synth.c and the queue actions that carry them. */
module Synthesis {
  import opened Codes
  import opened Claims
  import opened Forwarding

  datatype KeyFlag = Extended | Up | Unicode | ScanCode
  datatype MouseFlag =
    | Move | LeftDown | LeftUp | RightDown | RightUp | MiddleDown | MiddleUp | XDown | XUp
    | Wheel | HorizontalWheel | NoCoalesce | VirtualDesktop | Absolute

  /** A flag word is the set of the named bits that are on. */
  datatype Input =
    | Keyboard(vk: nat, scan: nat, keyFlags: set<KeyFlag>, time: nat, extra: nat)
    | Mouse(dx: int, dy: int, data: nat, flags: set<MouseFlag>, time: nat, extra: nat)

  datatype Machine = Machine(
    fwd: Forward,
    applied: Table, appliedEpoch: nat,
    enqueued: Table, enqueuedEpoch: nat,
    onAbs: set<nat>,          // buttons held on the absolute device
    absReady: bool,           // the absolute device exists
    failed: bool,             // a pointer write failed
    budget: Budget,           // pointer writes the kernel still accepts
    pendingHigh: nat,         // a high surrogate waiting for its low one
    wheel: int, hwheel: int,  // sub-detent remainders
    vkTable: map<nat, nat>)   // virtual key to evdev code

  // ---------------------------------------------------------------- resolving

  function ExtendedScan(scan: nat): Option<nat> {
    match scan
    case 0x1C => Some(96) case 0x1D => Some(97) case 0x35 => Some(98) case 0x37 => Some(99)
    case 0x38 => Some(100) case 0x47 => Some(102) case 0x48 => Some(103) case 0x49 => Some(104)
    case 0x4B => Some(105) case 0x4D => Some(106) case 0x4F => Some(107) case 0x50 => Some(108)
    case 0x51 => Some(109) case 0x52 => Some(110) case 0x53 => Some(111) case 0x5B => Some(125)
    case 0x5C => Some(126) case 0x5D => Some(127) case _ => None
  }

  function ScanToEvdev(scan: nat, extended: bool): Option<nat> {
    if scan == 0 then None
    else if extended then ExtendedScan(scan)
    else if scan <= KEY_MAX then Some(scan) else None
  }

  /** The key a keyboard input toggles. A unicode unit toggles none. */
  function Resolve(vkTable: map<nat, nat>, i: Input): Option<nat>
    requires i.Keyboard?
  {
    if Unicode in i.keyFlags then None
    else
      var byScan := if ScanCode in i.keyFlags then ScanToEvdev(i.scan, Extended in i.keyFlags) else None;
      if byScan.Some? then byScan
      else if i.vk == 0x0D && Extended in i.keyFlags then Some(96)
      else if i.vk in vkTable then Some(vkTable[i.vk]) else None
  }

  function XButton(data: nat): Option<nat> {
    if data / 0x10000 == 1 then Some(BTN_SIDE) else if data / 0x10000 == 2 then Some(BTN_EXTRA) else None
  }

  datatype Transition = Transition(button: Option<nat>, down: bool)

  predicate IsMouseButton(t: Transition) {
    t.button.Some? ==> BTN_LEFT <= t.button.value <= BTN_EXTRA
  }

  function PressAndRelease(flags: set<MouseFlag>, press: MouseFlag, release: MouseFlag,
                           button: Option<nat>): (r: seq<Transition>)
    requires button.Some? ==> BTN_LEFT <= button.value <= BTN_EXTRA
    ensures forall t :: t in r ==> IsMouseButton(t)
  {
    (if press in flags then [Transition(button, true)] else [])
    + (if release in flags then [Transition(button, false)] else [])
  }

  /** The buttons an input presses and releases, in order. */
  function Transitions(i: Input): (r: seq<Transition>)
    requires i.Mouse?
    ensures forall t :: t in r ==> IsMouseButton(t)
  {
    PressAndRelease(i.flags, LeftDown, LeftUp, Some(BTN_LEFT))
    + PressAndRelease(i.flags, RightDown, RightUp, Some(BTN_RIGHT))
    + PressAndRelease(i.flags, MiddleDown, MiddleUp, Some(BTN_MIDDLE))
    + PressAndRelease(i.flags, XDown, XUp, XButton(i.data))
  }

  predicate MovesAbsolutely(i: Input) { i.Mouse? && Move in i.flags && Absolute in i.flags }

  /** What is left of an input when its presses are taken out, if anything. */
  function KeepRelease(i: Input): Option<Input> {
    match i
    case Keyboard(_, _, flags, _, _) => if Up in flags && Unicode !in flags then Some(i) else None
    case Mouse(_, _, _, flags, _, _) =>
      var kept := flags * {LeftUp, RightUp, MiddleUp, XUp};
      if kept == {} then None else Some(i.(flags := kept))
  }

  /** What of an input is played for an owner. */
  function Played(i: Input, dead: bool): Option<Input> {
    if dead then KeepRelease(i) else Some(i)
  }

  // ---------------------------------------------------------------- holds

  /** The owner was named by a target that no longer names a working slot. */
  predicate IsDead(f: Forward, o: Owner, view: View) {
    o.target != 0 && match Find(f, o.target, view)
                     case None => true
                     case Some(i) => f.devices[i].failed
  }

  function Sweep(f: Forward, t: Table, view: View): Table {
    map o | o in t && !IsDead(f, o, view) :: t[o]
  }

  datatype Keyed = Keyed(fwd: Forward, table: Table, ok: bool)

  /** What a synthesized press or release of code does to the sources and claims of a view. A
      release of a key its owner has no claim of takes it from everyone else. */
  function ApplyKey(f: Forward, t: Table, view: View, code: nat, down: bool, restore: bool, o: Owner): Keyed {
    if down then
      if restore && ShiftsAny(f, code, view, true) then Keyed(ShiftKey(f, code, view, true), t, true)
      else Keyed(f, Hold(t, o, code), Fits(t, o))
    else if Holds(t, o, code) then Keyed(f, DropKey(t, o, code), true)
    else Keyed(ShiftKey(f, code, view, false), ReleaseCode(t, code), true)
  }

  // ---------------------------------------------------------------- admission

  function NoteButtons(f: Forward, t: Table, ts: seq<Transition>, moved: bool, o: Owner): Keyed
    decreases |ts|
  {
    if ts == [] then Keyed(f, t, true)
    else if ts[0].button.None? then NoteButtons(f, t, ts[1..], moved, o)
    else
      var k := ApplyKey(f, t, Enqueued, ts[0].button.value, ts[0].down, !moved, o);
      NoteButtons(k.fwd, k.table, ts[1..], moved, o)
  }

  function NoteInput(vkTable: map<nat, nat>, f: Forward, t: Table, i: Input, moved: bool, o: Owner): Keyed {
    match i
    case Mouse(_, _, _, _, _, _) => NoteButtons(f, t, Transitions(i), moved || MovesAbsolutely(i), o)
    case Keyboard(_, _, flags, _, _) =>
      match Resolve(vkTable, i)
      case Some(code) =>
        if code <= KEY_MAX then ApplyKey(f, t, Enqueued, CanonicalButton(code), Up !in flags, true, o)
          else Keyed(f, t, true)
      case None => Keyed(f, t, true)
  }

  function NoteInputs(vkTable: map<nat, nat>, f: Forward, t: Table, inputs: seq<Input>, dead: bool, moved: bool,
                      o: Owner): Keyed
    decreases |inputs|
  {
    if inputs == [] then Keyed(f, t, true)
    else
      match Played(inputs[0], dead)
      case None => NoteInputs(vkTable, f, t, inputs[1..], dead, moved, o)
      case Some(i) =>
        var k := NoteInput(vkTable, f, t, i, moved, o);
        NoteInputs(vkTable, k.fwd, k.table, inputs[1..], dead, moved || MovesAbsolutely(i), o)
  }

  function SweepEnqueued(m: Machine): Machine {
    if m.enqueuedEpoch == m.fwd.epoch then m
    else m.(enqueued := Sweep(m.fwd, m.enqueued, Enqueued), enqueuedEpoch := m.fwd.epoch)
  }

  /** Mirrors an accepted batch, so that a query sees it before it is written. */
  function NoteSynth(m: Machine, inputs: seq<Input>, o: Owner): Machine {
    var s := SweepEnqueued(m);
    var k := NoteInputs(s.vkTable, s.fwd, s.enqueued, inputs, IsDead(s.fwd, o, Enqueued), false, o);
    s.(fwd := k.fwd, enqueued := k.table)
  }

  // ---------------------------------------------------------------- output

  datatype Sent = Sent(m: Machine, ok: bool)

  /** The sink and the pointer devices refuse no write. */
  predicate Flowing(m: Machine) { m.fwd.sink.Steady() && !m.failed && m.budget.Endless? }

  /** No source and no claim changed. */
  predicate Kept(m: Machine, g: Machine) {
    && (Flowing(m) ==> Flowing(g))
    && g.fwd.devices == m.fwd.devices && g.fwd.serial == m.fwd.serial && g.fwd.epoch == m.fwd.epoch
    && g.fwd.sink.attached == m.fwd.sink.attached
    && g.applied == m.applied && g.appliedEpoch == m.appliedEpoch
    && g.enqueued == m.enqueued && g.enqueuedEpoch == m.enqueuedEpoch && g.vkTable == m.vkTable
  }

  /** Nothing but pointer events was written, and no hold changed. */
  predicate PointerOnly(m: Machine, g: Machine) {
    && g.applied == m.applied && g.onAbs == m.onAbs && g.vkTable == m.vkTable
    && g.enqueued == m.enqueued && g.appliedEpoch == m.appliedEpoch && g.enqueuedEpoch == m.enqueuedEpoch
    && g.pendingHigh == m.pendingHigh && g.absReady == m.absReady && (Flowing(m) ==> Flowing(g))
    && g.fwd == m.fwd.(trace := g.fwd.trace) && |m.fwd.trace| <= |g.fwd.trace|
    && m.fwd.trace == g.fwd.trace[..|m.fwd.trace|]
    && forall k :: |m.fwd.trace| <= k < |g.fwd.trace| ==> !g.fwd.trace[k].ToSink?
  }

  /** Writes one pointer event, or latches that the pointer devices have failed. */
  function Emit(m: Machine, o: Out): (r: Sent)
    ensures !o.ToSink? ==> PointerOnly(m, r.m)
  {
    if !m.failed && m.budget.Accepts()
    then Sent(m.(budget := m.budget.Spend(), fwd := m.fwd.(trace := m.fwd.trace + [o])), true)
    else Sent(m.(failed := true), false)
  }

  predicate IsTracked(code: nat) { BTN_LEFT <= code < BTN_LEFT + 8 }

  predicate SinkKeyOk(f: Forward, code: nat, held: bool) {
    code <= KEY_MAX ==>
      ReconcileOk(f.(sink := f.sink.(synth := if held then f.sink.synth + {code} else f.sink.synth - {code})), code)
  }

  /** Makes the device that is to have code down agree with whether any claim has code. */
  function UpdateGeneric(m: Machine, code: nat): (r: Sent)
    ensures Kept(m, r.m)
  {
    var held := Held(m.applied, code);
    if code !in m.onAbs then Sent(m.(fwd := SinkKey(m.fwd, code, held)), SinkKeyOk(m.fwd, code, held))
    else if held then Sent(m, true)
    else
      var g := m.(onAbs := m.onAbs - {code});
      if m.absReady then Emit(g, ToAbsolute(KeyEvent(code, 0))) else Sent(g, true)
  }

  /** Updates the keys of released from code up that nobody holds any more. */
  function ReleaseUnheld(m: Machine, released: set<nat>, code: nat): (r: Machine)
    ensures Kept(m, r)
    decreases KEY_MAX + 1 - code
  {
    if code > KEY_MAX then m
    else
      var g := if code in released && !Held(m.applied, code) then UpdateGeneric(m, code).m else m;
      ReleaseUnheld(g, released, code + 1)
  }

  /** The keys held in before that after leaves without a holder. */
  function Released(before: Table, after: Table): set<nat> {
    set c | 0 <= c <= KEY_MAX && Held(before, c) && !Held(after, c)
  }

  function SetApplied(m: Machine, after: Table): (r: Machine)
    ensures Kept(m.(applied := after), r)
  {
    ReleaseUnheld(m.(applied := after), Released(m.applied, after), 0)
  }

  function SendKeyCode(m: Machine, key: nat, down: bool, o: Owner): Machine {
    var code := CanonicalButton(key);
    var g := if down && !Holds(m.applied, o, code) then m.(fwd := Repress(m.fwd, code)) else m;
    var k := ApplyKey(g.fwd, g.applied, Applied, code, down, true, o);
    var h := g.(fwd := k.fwd, applied := k.table);
    if k.ok then UpdateGeneric(h, code).m else h
  }

  function HexKey(digit: nat): (r: nat)
    requires digit < 16
    ensures r <= KEY_MAX && !IsModifierOrLock(r) && r != KEY_SPACE
  {
    if digit == 0 then KEY_0 else if digit < 10 then KEY_1 + digit - 1
    else [KEY_A, KEY_B, KEY_C, KEY_D, KEY_E, KEY_F][digit - 10]
  }

  /** The hexadecimal digits of n, most significant first, at least width of them. */
  function HexDigits(n: nat, width: nat): (r: seq<nat>)
    ensures forall d :: d in r ==> d < 16
    decreases n, width
  {
    if n == 0 && width == 0 then []
    else HexDigits(n / 16, if width == 0 then 0 else width - 1) + [n % 16]
  }

  function TypedDigits(codepoint: nat): seq<nat> { HexDigits(codepoint, 4) }

  function TypedKeys(codepoint: nat): (r: seq<nat>)
    ensures forall k :: k in r ==> k <= KEY_MAX && !IsModifierOrLock(k) && k != KEY_SPACE
  {
    var digits := TypedDigits(codepoint);
    seq(|digits|, i requires 0 <= i < |digits| => assert digits[i] in digits; HexKey(digits[i]))
  }

  /** Taps keys until one is refused. */
  function TapAll(f: Forward, keys: seq<nat>): (r: Forward)
    ensures r.devices == f.devices && Quiet(f, r)
    decreases |keys|
  {
    if keys == [] then f
    else if f.sink.Accepts() then TapAll(Tap(f, keys[0]), keys[1..])
    else Tap(f, keys[0])
  }

  datatype Struck = Struck(fwd: Forward, ok: bool)

  /** Ctrl and Shift down and a tap of U, as far as the sink accepts them. */
  function StrikeEntry(f: Forward): (r: Struck)
    ensures r.fwd.devices == f.devices && Quiet(f, r.fwd.(sink := r.fwd.sink.(synth := f.sink.synth)))
  {
    var ctrlOk := SinkKeyOk(f, KEY_LEFTCTRL, true);
    var a := SinkKey(f, KEY_LEFTCTRL, true);
    if !ctrlOk then Struck(a, false)
    else
      var b := SinkKey(a, KEY_LEFTSHIFT, true);
      if !SinkKeyOk(a, KEY_LEFTSHIFT, true) then Struck(b, false) else Struck(Tap(b, KEY_U), b.sink.Accepts())
  }

  /** The chord that begins the entry of a code point; then both modifiers go back to their claims. */
  function StartEntry(m: Machine): (r: Sent)
    ensures Kept(m, r.m)
  {
    var k := StrikeEntry(m.fwd);
    var d := UpdateGeneric(m.(fwd := k.fwd), KEY_LEFTSHIFT);
    var e := UpdateGeneric(d.m, KEY_LEFTCTRL);
    Sent(e.m, k.ok && d.ok && e.ok)
  }

  /** The entry sequence, then the code point's digits, then space. */
  function SendCodepoint(m: Machine, codepoint: nat): (r: Machine)
    ensures Kept(m, r)
  {
    if codepoint == 0 || codepoint > 0x10FFFF then m
    else
      var e := StartEntry(m);
      if e.ok then e.m.(fwd := TapAll(e.m.fwd, TypedKeys(codepoint) + [KEY_SPACE])) else e.m
  }

  datatype Unit = Unit(pending: nat, codepoint: Option<nat>)

  predicate IsHigh(unit: nat) { 0xD800 <= unit <= 0xDBFF }
  predicate IsLow(unit: nat) { 0xDC00 <= unit <= 0xDFFF }

  /** One UTF-16 unit after a pending high surrogate, if any. */
  function DecodeUnit(pending: nat, unit: nat): Unit {
    if IsHigh(unit) then Unit(unit, None)
    else if IsLow(unit) then
      Unit(0, if IsHigh(pending) then Some(0x10000 + (pending - 0xD800) * 1024 + (unit - 0xDC00)) else None)
    else Unit(0, Some(unit))
  }

  function SendUnit(m: Machine, unit: nat): (r: Machine)
    ensures Kept(m, r)
  {
    var u := DecodeUnit(m.pendingHigh, unit);
    var g := m.(pendingHigh := u.pending);
    if u.codepoint.Some? then SendCodepoint(g, u.codepoint.value) else g
  }

  function SendKeyboard(m: Machine, i: Input, o: Owner): Machine
    requires i.Keyboard?
  {
    if Unicode in i.keyFlags then (if Up in i.keyFlags then m else SendUnit(m, i.scan))
    else
      match Resolve(m.vkTable, i)
      case None => m
      case Some(code) => SendKeyCode(m, code, Up !in i.keyFlags, o)
  }

  function TruncatedDiv(a: int, b: nat): int
    requires b != 0
  {
    if a >= 0 then a / b else -(-a / b)
  }

  function Int32(n: nat): int { if n < 0x8000_0000 then n else n - 0x1_0000_0000 }

  function Motion(m: Machine, i: Input): (r: Sent)
    requires i.Mouse?
    ensures PointerOnly(m, r.m)
  {
    if Move !in i.flags then Sent(m, true)
    else if Absolute in i.flags then
      if !m.absReady then Sent(m, true)
      else
        var x := Emit(m, ToAbsolute(Event(EV_ABS, 0, i.dx)));
        if x.ok then Emit(x.m, ToAbsolute(Event(EV_ABS, 1, i.dy))) else x
    else
      var x := if i.dx != 0 then Emit(m, ToPointer(Event(EV_REL, 0, i.dx))) else Sent(m, true);
      if x.ok && i.dy != 0 then Emit(x.m, ToPointer(Event(EV_REL, 1, i.dy))) else x
  }

  const REL_HWHEEL := 6
  const REL_WHEEL := 8
  const REL_WHEEL_HI_RES := 11
  const REL_HWHEEL_HI_RES := 12

  function Scroll(m: Machine, delta: int, total: int, hiRes: nat, detent: nat): (r: Sent)
    ensures PointerOnly(m, r.m)
  {
    var x := Emit(m, ToPointer(Event(EV_REL, hiRes, delta)));
    if x.ok && TruncatedDiv(total, 120) != 0
    then Emit(x.m, ToPointer(Event(EV_REL, detent, TruncatedDiv(total, 120)))) else x
  }

  function VerticalWheel(m: Machine, i: Input): (r: Sent)
    requires i.Mouse?
    ensures PointerOnly(m, r.m)
  {
    if Wheel !in i.flags then Sent(m, true)
    else
      var total := Int32(i.data) + m.wheel;
      Scroll(m.(wheel := total - 120 * TruncatedDiv(total, 120)), Int32(i.data), total, REL_WHEEL_HI_RES, REL_WHEEL)
  }

  function SidewaysWheel(m: Machine, i: Input): (r: Sent)
    requires i.Mouse?
    ensures PointerOnly(m, r.m)
  {
    if HorizontalWheel !in i.flags then Sent(m, true)
    else
      var total := Int32(i.data) + m.hwheel;
      Scroll(m.(hwheel := total - 120 * TruncatedDiv(total, 120)), Int32(i.data), total, REL_HWHEEL_HI_RES, REL_HWHEEL)
  }

  /** One button. When a press makes it held and the batch has moved absolutely, the press is
      written on the absolute device. */
  function RouteButton(m: Machine, button: nat, down: bool, moved: bool, o: Owner): Sent {
    var k := ApplyKey(m.fwd, m.applied, Applied, button, down, !moved, o);
    var g := m.(fwd := k.fwd, applied := k.table);
    if !k.ok then Sent(g, false)
    else if !Held(m.applied, button) && Held(g.applied, button) && moved && m.absReady && IsTracked(button)
    then Emit(g.(onAbs := g.onAbs + {button}), ToAbsolute(KeyEvent(button, 1)))
    else UpdateGeneric(g, button)
  }

  /** Buttons until one is unsupported or refused. */
  function RouteButtons(m: Machine, ts: seq<Transition>, moved: bool, o: Owner): Sent
    decreases |ts|
  {
    if ts == [] then Sent(m, true)
    else if ts[0].button.None? then Sent(m, false)
    else
      var s := RouteButton(m, ts[0].button.value, ts[0].down, moved, o);
      if s.ok then RouteButtons(s.m, ts[1..], moved, o) else s
  }

  function SendMouse(m: Machine, i: Input, moved: bool, o: Owner): Sent
    requires i.Mouse?
  {
    var a := Motion(m, i);
    if !a.ok then a else
    var b := VerticalWheel(a.m, i);
    if !b.ok then b else
    var c := SidewaysWheel(b.m, i);
    if !c.ok then c else RouteButtons(c.m, Transitions(i), moved || MovesAbsolutely(i), o)
  }

  function SendOne(m: Machine, i: Input, moved: bool, o: Owner): Machine {
    if i.Keyboard? then SendKeyboard(m, i, o) else SendMouse(m, i, moved, o).m
  }

  function SendInputs(m: Machine, inputs: seq<Input>, dead: bool, moved: bool, o: Owner): Machine
    decreases |inputs|
  {
    if inputs == [] then m
    else
      match Played(inputs[0], dead)
      case None => SendInputs(m, inputs[1..], dead, moved, o)
      case Some(i) => SendInputs(SendOne(m, i, moved, o), inputs[1..], dead, moved || MovesAbsolutely(i), o)
  }

  /** Plays a batch, or does nothing without a sink. A batch that continues another keeps its
      unfinished surrogate. */
  function SendBatch(m: Machine, inputs: seq<Input>, continues: bool, o: Owner): Machine {
    if !m.fwd.sink.attached then m
    else SendInputs(if continues then m else m.(pendingHigh := 0), inputs, IsDead(m.fwd, o, Applied), false, o)
  }

  // ---------------------------------------------------------------- releases

  function DerivedFrom(target: nat, code: nat): Owner { Owner(target, 0, 0, EV_KEY, code) }

  function ReleaseByEvent(t: Table, p: Packet, e: Event): Table {
    if !e.IsKey() || e.value != 0 then t
    else
      var own := if p.target != 0 then DropMatching(t, DerivedFrom(p.target, e.code)) else t;
      if p.suppressed then own else ReleaseCode(own, CanonicalButton(e.code))
  }

  /** The claims after the releases in the first n events of a packet: those of owners named
      after the released key go, and, of a packet no hook held back, the key from all others. */
  function ReleaseByPacket(t: Table, p: Packet, n: nat): Table
    requires n <= |p.events|
  {
    if n == 0 then t else ReleaseByEvent(ReleaseByPacket(t, p, n - 1), p, p.events[n - 1])
  }

  function AbsReleasesFrom(m: Machine, code: nat): (r: Machine)
    requires BTN_LEFT <= code <= BTN_LEFT + 8
    ensures Kept(m, r)
    decreases BTN_LEFT + 8 - code
  {
    if code == BTN_LEFT + 8 then m
    else AbsReleasesFrom(if code in m.onAbs then UpdateGeneric(m, code).m else m, code + 1)
  }

  function ReleaseGeneric(m: Machine): (r: Machine)
    ensures Kept(m.(applied := map[]), r)
  {
    var g := AbsReleasesFrom(m.(applied := map[]), BTN_LEFT);
    g.(fwd := ClearSynth(g.fwd, 0))
  }

  /** What became of the devices when they were recreated. */
  datatype Devices = Devices(attached: bool, absReady: bool, sinkBudget: Budget, budget: Budget)

  function Recreate(m: Machine, d: Devices): Machine {
    var g := ReleaseGeneric(m);
    g.(fwd := AttachSink(AttachSink(g.fwd, false, Left(0)), d.attached, d.sinkBudget),
       absReady := d.attached && d.absReady, failed := !d.attached, budget := d.budget, wheel := 0, hwheel := 0)
  }

  /** Drops the written claims of dead owners, if a grab ended since it was last done. */
  function Maintain(m: Machine): Machine {
    if m.appliedEpoch == m.fwd.epoch then m
    else SetApplied(m.(appliedEpoch := m.fwd.epoch), Sweep(m.fwd, m.applied, Applied))
  }
}
