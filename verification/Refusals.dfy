/** What refused writes do to the two views. A refused write stops a compound mouse input
    before its remaining buttons, which admission has already recorded. The inputs that
    keep the views together on every run, whatever is refused, are exactly the safe ones,
    and they are the ones whose expansion cannot be told from them. */
module Refusals {
  import opened Codes
  import opened Claims
  import opened Forwarding
  import opened Synthesis
  import opened Broker
  import opened Pointwise
  import opened ViewModel
  import opened BrokerInvariant
  import opened SinkInvariant
  import opened SynthInvariant
  import opened TwoViews
  import opened Sweeping
  import opened SafeInputs
  import opened Coupling
  import opened Draining
  import opened CoupledRuns
  import opened Splitting

  // ---------------------------------------------------------------- transitions

  /** A button an input both presses and releases is pressed first, and no other way twice. */
  predicate Paired(ts: seq<Transition>) {
    forall j, k :: 0 <= j < k < |ts| && ts[j].button.Some? && ts[j].button == ts[k].button ==> ts[j].down && !ts[k].down
  }

  predicate Unrelated(a: seq<Transition>, b: seq<Transition>) {
    forall j, k :: 0 <= j < |a| && 0 <= k < |b| && a[j].button.Some? ==> a[j].button != b[k].button
  }

  lemma PairedConcat(a: seq<Transition>, b: seq<Transition>)
    requires Paired(a) && Paired(b) && Unrelated(a, b)
    ensures Paired(a + b)
  {
    var ts := a + b;
    forall j, k | 0 <= j < k < |ts| && ts[j].button.Some? && ts[j].button == ts[k].button
      ensures ts[j].down && !ts[k].down
    {
      assert ts[j] == if j < |a| then a[j] else b[j - |a|];
      assert ts[k] == if k < |a| then a[k] else b[k - |a|];
    }
  }

  lemma PairIsPaired(i: Input, press: MouseFlag, release: MouseFlag)
    requires i.Mouse? && IsPair(press, release)
    ensures Paired(Pair(i, press, release))
    ensures forall k :: 0 <= k < |Pair(i, press, release)| ==>
              Pair(i, press, release)[k].button == TransitionOf(i, press).button
  {
    PairTransitions(i, press, release);
    assert TransitionOf(i, press).down && !TransitionOf(i, release).down;
    hide TransitionOf;
  }

  lemma TransitionsPaired(i: Input)
    requires i.Mouse?
    ensures Paired(Transitions(i))
  {
    var l, r, c, x := Pair(i, LeftDown, LeftUp), Pair(i, RightDown, RightUp), Pair(i, MiddleDown, MiddleUp),
      Pair(i, XDown, XUp);
    TransitionsGrouped(i);
    PairIsPaired(i, LeftDown, LeftUp);
    PairIsPaired(i, RightDown, RightUp);
    PairIsPaired(i, MiddleDown, MiddleUp);
    PairIsPaired(i, XDown, XUp);
    hide Pair, Transitions;
    PairedConcat(l, r);
    assert forall k :: 0 <= k < |l + r| ==> (l + r)[k] == if k < |l| then l[k] else r[k - |l|];
    PairedConcat(l + r, c);
    assert forall k :: 0 <= k < |l + r + c| ==> (l + r + c)[k] == if k < |l + r| then (l + r)[k] else c[k - |l + r|];
    PairedConcat(l + r + c, x);
  }

  predicate Releases(ts: seq<Transition>, b: nat) { Transition(Some(b), false) in ts }
  predicate Presses(ts: seq<Transition>, b: nat) { Transition(Some(b), true) in ts }

  /** The buttons an input releases. */
  function Dropped(ts: seq<Transition>): set<nat> {
    set k | 0 <= k < |ts| && ts[k].button.Some? && !ts[k].down :: ts[k].button.value
  }

  lemma DroppedIs(ts: seq<Transition>, b: nat)
    ensures b in Dropped(ts) <==> Releases(ts, b)
  {
    if Releases(ts, b) {
      var k :| 0 <= k < |ts| && ts[k] == Transition(Some(b), false);
      assert ts[k].button.value == b;
    }
  }

  // ---------------------------------------------------------------- one claim

  const SOMEBODY := Owner(0, 1, 0, 0, 0)

  /** No sources, and no claim but one. */
  predicate Lone(v: ViewState) {
    (forall k :: 0 <= k < |v.slots| ==> v.slots[k].None?) && v.claims.Keys <= {SOMEBODY}
  }

  predicate Has(v: ViewState, b: nat) { Holds(v.claims, SOMEBODY, b) }

  /** The transitions that may be played for an owner without leaving a second claim. */
  predicate Plays(o: Owner, ts: seq<Transition>) {
    o == SOMEBODY || forall k :: 0 <= k < |ts| ==> !ts[k].down
  }

  lemma LoneFits(t: Table)
    requires t.Keys <= {SOMEBODY}
    ensures Fits(t, SOMEBODY)
  {
    SubsetSize(t.Keys, {SOMEBODY});
    assert |t| == |t.Keys|;
  }

  lemma LoneTables(t: Table, code: nat)
    requires t.Keys <= {SOMEBODY}
    ensures var u := Hold(t, SOMEBODY, code);
            u.Keys <= {SOMEBODY} && forall b :: Holds(u, SOMEBODY, b) <==> b == code || Holds(t, SOMEBODY, b)
    ensures var u := ReleaseCode(t, code);
            u.Keys <= {SOMEBODY} && forall b :: Holds(u, SOMEBODY, b) <==> b != code && Holds(t, SOMEBODY, b)
    ensures SOMEBODY in t ==>
              var u := DropKey(t, SOMEBODY, code);
              u.Keys <= {SOMEBODY} && forall b :: Holds(u, SOMEBODY, b) <==> b != code && Holds(t, SOMEBODY, b)
  {
    LoneFits(t);
    hide Fits;
  }

  lemma LonePress(v: ViewState, code: nat, down: bool, restore: bool, o: Owner)
    requires Lone(v) && (down ==> o == SOMEBODY)
    ensures var w := PressOrRelease(v, code, down, restore, o);
            Lone(w) && forall b :: Has(w, b) <==> if b == code then down else Has(v, b)
  {
    LoneTables(v.claims, code);
    hide Hold, ReleaseCode, DropKey;
    assert !Restorable(v.slots, code);
    assert !down && Holds(v.claims, o, code) ==> o == SOMEBODY;
  }

  lemma {:induction false} LoneButtons(v: ViewState, ts: seq<Transition>, moved: bool, o: Owner, b: nat)
    requires Lone(v) && Paired(ts) && Plays(o, ts)
    ensures Has(Buttons(v, ts, moved, o), b) <==> if Releases(ts, b) then false else Presses(ts, b) || Has(v, b)
    decreases |ts|
  {
    if ts != [] {
      var t, rest := ts[0], ts[1..];
      var w := if t.button.None? then v else PressOrRelease(v, t.button.value, t.down, !moved, o);
      if t.button.Some? {
        LonePress(v, t.button.value, t.down, !moved, o);
      }
      hide PressOrRelease, Has;
      assert forall k :: 0 <= k < |rest| ==> rest[k] == ts[k + 1];
      assert forall k :: 0 <= k < |rest| && t.button.Some? && rest[k].button == t.button ==> !rest[k].down && t.down;
      LoneButtons(w, rest, moved, o, b);
      assert forall x :: x in ts <==> x == t || x in rest;
    }
  }

  ghost predicate Differ(v: ViewState, w: ViewState) { exists b :: Has(v, b) != Has(w, b) }

  lemma DifferSwept(v: ViewState, w: ViewState)
    requires Differ(v, w)
    ensures v != Swept(w)
  {
    var b :| Has(v, b) != Has(w, b);
    assert Has(Swept(w), b) <==> Has(w, b);
  }

  // ---------------------------------------------------------------- a numb machine

  function Claimed(held: set<nat>): Table { if held == {} then map[] else map[SOMEBODY := held] }

  /** Every device refuses writes, there are no sources, and somebody holds some buttons. */
  predicate Numb(m: Machine, held: set<nat>) {
    && m.fwd.devices == seq(SLOTS, _ => FREE) && m.appliedEpoch == m.fwd.epoch
    && m.fwd.sink.attached && m.fwd.sink.budget == Left(0) && m.fwd.sink.down == held && m.fwd.sink.synth == held
    && m.applied == Claimed(held) && m.onAbs == {} && m.budget == Left(0)
  }

  predicate IsButtonCode(b: nat) { BTN_LEFT <= b <= BTN_EXTRA }

  lemma NumbView(m: Machine, held: set<nat>)
    requires Numb(m, held)
    ensures Lone(Written(m)) && (forall b :: Has(Written(m), b) <==> b in held) && Fits(m.applied, SOMEBODY)
    ensures forall o :: o != SOMEBODY ==> o !in m.applied
  {
    LoneFits(m.applied);
    hide Fits;
  }

  /** Without sources nothing is shifted. */
  lemma FreeShift(f: Forward, code: nat, view: View, restore: bool)
    requires f.devices == seq(SLOTS, _ => FREE)
    ensures ShiftKey(f, code, view, restore) == f && !ShiftsAny(f, code, view, restore)
            && !HeldBySources(f.devices, code)
  {
    if code <= KEY_MAX {
      NothingShifts(f, 0, code, view, restore);
    }
  }

  function Pressing(b: nat): Input { Keyboard(0, b, {ScanCode}, 0, 0) }

  /** A sink that refuses a press still counts the key as down. */
  lemma PressRefused(f: Forward, b: nat)
    requires f.sink.attached && f.sink.budget == Left(0) && b <= KEY_MAX && b !in f.sink.down
    ensures var g := SinkKey(f, b, true);
            && g.devices == f.devices && g.epoch == f.epoch && g.sink.attached && g.sink.budget == Left(0)
            && g.sink.down == f.sink.down + {b} && g.sink.synth == f.sink.synth + {b}
    ensures !SinkKeyOk(f, b, true)
  {
    var g := f.(sink := f.sink.(synth := f.sink.synth + {b}));
    var e := [KeyEvent(b, 1)];
    assert Wanted(g, b) && e[..0] == [];
    assert NoteWritten(g.sink.down, e, false) == NoteKey(NoteWritten(g.sink.down, e[..0], false), e[0], false);
  }

  lemma ReleaseRefused(f: Forward, b: nat)
    requires f.sink.attached && f.sink.budget == Left(0) && b <= KEY_MAX && b in f.sink.down
             && !HeldBySources(f.devices, b)
    ensures !SinkKeyOk(f, b, false)
  {}

  lemma NumbHold(m: Machine, held: set<nat>, b: nat, restore: bool)
    requires Numb(m, held)
    ensures ApplyKey(m.fwd, m.applied, Applied, b, true, restore, SOMEBODY) == Keyed(m.fwd, Claimed(held + {b}), true)
    ensures Held(Claimed(held + {b}), b) && (b !in held ==> !Held(m.applied, b))
  {
    NumbView(m, held);
    FreeShift(m.fwd, b, Applied, true);
    hide ShiftKey, ShiftsAny, Fits;
    var t := Claimed(held + {b});
    assert SOMEBODY in t && b in t[SOMEBODY];
  }

  lemma NumbSent(m: Machine, held: set<nat>, b: nat)
    requires Numb(m, held) && IsButtonCode(b)
    ensures SendOne(m, Pressing(b), false, SOMEBODY) == UpdateGeneric(m.(applied := Claimed(held + {b})), b).m
  {
    hide Tap, ExtendedScan, Kept, ApplyKey, UpdateGeneric, Held, SendMouse, SendUnit;
    NumbHold(m, held, b, true);
    assert Repress(m.fwd, b) == m.fwd;
    assert Resolve(m.vkTable, Pressing(b)) == Some(b) && CanonicalButton(b) == b;
    assert SendKeyCode(m, b, true, SOMEBODY) == UpdateGeneric(m.(applied := Claimed(held + {b})), b).m;
  }

  lemma NumbPress(m: Machine, held: set<nat>, b: nat)
    requires Numb(m, held) && IsButtonCode(b) && b !in held
    ensures var g := SendOne(m, Pressing(b), false, SOMEBODY); Numb(g, held + {b}) && g.absReady == m.absReady
  {
    NumbHold(m, held, b, true);
    NumbSent(m, held, b);
    PressRefused(m.fwd, b);
    hide SendOne, SinkKey, SinkKeyOk, Held, Kept;
  }

  function PressesFrom(held: set<nat>, c: nat): seq<Input>
    requires c <= BTN_EXTRA + 1
    decreases BTN_EXTRA + 1 - c
  {
    if c > BTN_EXTRA then [] else (if c in held then [Pressing(c)] else []) + PressesFrom(held, c + 1)
  }

  lemma {:induction false} NumbPresses(m: Machine, now: set<nat>, held: set<nat>, c: nat)
    requires BTN_LEFT <= c <= BTN_EXTRA + 1 && Numb(m, now)
    requires forall b :: b in now ==> b < c
    ensures var g := SendInputs(m, PressesFrom(held, c), false, false, SOMEBODY);
            Numb(g, now + set b | b in held && c <= b <= BTN_EXTRA) && g.absReady == m.absReady
    decreases BTN_EXTRA + 1 - c
  {
    hide Numb, SendOne;
    var all := now + set b | b in held && c <= b <= BTN_EXTRA;
    if c > BTN_EXTRA {
      assert all == now;
    } else if c in held {
      NumbPress(m, now, c);
      NumbPresses(SendOne(m, Pressing(c), false, SOMEBODY), now + {c}, held, c + 1);
      assert (now + {c}) + (set b | b in held && c + 1 <= b <= BTN_EXTRA) == all;
      FirstSent(m, Pressing(c), PressesFrom(held, c + 1), false, SOMEBODY);
    } else {
      NumbPresses(m, now, held, c + 1);
      assert now + (set b | b in held && c + 1 <= b <= BTN_EXTRA) == all;
      assert PressesFrom(held, c) == PressesFrom(held, c + 1);
    }
  }

  // ---------------------------------------------------------------- unsafe inputs

  lemma NumbDrop(m: Machine, held: set<nat>, b: nat, restore: bool, o: Owner)
    requires Numb(m, held) && b in held
    ensures var k := ApplyKey(m.fwd, m.applied, Applied, b, false, restore, o);
            k.fwd == m.fwd && k.ok && !Held(k.table, b)
    ensures Held(m.applied, b)
  {
    NumbView(m, held);
    FreeShift(m.fwd, b, Applied, false);
    hide ShiftKey, ShiftsAny, Fits;
    assert SOMEBODY in m.applied && b in m.applied[SOMEBODY];
  }

  /** A numb machine refuses the first button that changes what its owner holds. */
  lemma ButtonRefused(m: Machine, held: set<nat>, b: nat, down: bool, moved: bool, o: Owner)
    requires Numb(m, held) && IsButtonCode(b) && (down <==> b !in held) && (down ==> o == SOMEBODY)
    ensures !RouteButton(m, b, down, moved, o).ok
  {
    if down {
      NumbHold(m, held, b, !moved);
      PressRefused(m.fwd, b);
    } else {
      NumbDrop(m, held, b, !moved, o);
      FreeShift(m.fwd, b, Applied, false);
      ReleaseRefused(m.fwd, b);
    }
    hide ApplyKey, SinkKey, SinkKeyOk, Held, Kept;
  }

  lemma NumbSound(m: Machine, held: set<nat>)
    requires Numb(m, held)
    ensures DevicesOk(m.fwd, map[])
  {}

  lemma FirstRefused(m: Machine, held: set<nat>, b: nat, down: bool, moved: bool, o: Owner)
    requires Numb(m, held) && IsButtonCode(b) && (down <==> b !in held) && (down ==> o == SOMEBODY)
    ensures var s := RouteButton(m, b, down, moved, o);
            !s.ok && forall x :: Has(Written(s.m), x) <==> if x == b then down else x in held
  {
    hide PressOrRelease, Written, RouteButton, DevicesOk, Has;
    NumbView(m, held);
    NumbSound(m, held);
    LonePress(Written(m), b, down, !moved, o);
    ButtonInStep(m, map[], b, down, moved, o);
    ButtonRefused(m, held, b, down, moved, o);
  }

  lemma EmissionRefused(m: Machine, i: Input, moved: bool, o: Owner)
    requires i.Mouse? && !m.budget.Accepts() && Emits(i, m.absReady)
    ensures Written(SendMouse(m, i, moved, o).m) == Written(m)
  {
    hide RouteButtons, Transitions;
  }

  /** The buttons held on the machine that an unsafe input parts. */
  function Witness(i: Input, absReady: bool): set<nat>
    requires i.Mouse? && !Safe(i, absReady)
  {
    var ts := Transitions(i);
    if !Emits(i, absReady) && ts[0].down then Dropped(ts) - {ts[0].button.value} else Dropped(ts)
  }

  /** The input leaves the views with different buttons. */
  ghost predicate Parts(m: Machine, i: Input, moved: bool, o: Owner)
    requires i.Mouse?
  {
    Differ(Written(SendMouse(m, i, moved, o).m), Buttons(Written(m), Transitions(i), moved || MovesAbsolutely(i), o))
  }

  /** A refused move or wheel step loses the buttons after it. */
  lemma EmissionParts(m: Machine, i: Input, moved: bool, o: Owner)
    requires i.Mouse? && !Safe(i, m.absReady) && Emits(i, m.absReady)
    requires Numb(m, Witness(i, m.absReady)) && Plays(o, Transitions(i))
    ensures Parts(m, i, moved, o)
  {
    var ts := Transitions(i);
    var b := ts[0].button.value;
    assert Numb(m, Dropped(ts)) && !m.budget.Accepts();
    hide Transitions, Buttons, SendMouse, Written, Has, Dropped, Numb, Emits;
    NumbView(m, Dropped(ts));
    EmissionRefused(m, i, moved, o);
    TransitionsPaired(i);
    LoneButtons(Written(m), ts, moved || MovesAbsolutely(i), o, b);
    DroppedIs(ts, b);
    assert ts[0] in ts && ts[0] == Transition(Some(b), ts[0].down);
    assert Has(Written(m), b) != Has(Buttons(Written(m), ts, moved || MovesAbsolutely(i), o), b);
  }

  /** What an unsafe input that writes nothing before its buttons does to the second one. */
  lemma TwoNamed(i: Input, absReady: bool)
    requires i.Mouse? && !Safe(i, absReady) && !Emits(i, absReady)
    ensures var ts, held := Transitions(i), Witness(i, absReady);
            && |ts| > 1 && ts[0].button.Some? && ts[1].button.Some? && IsButtonCode(ts[0].button.value)
            && (ts[0].down <==> ts[0].button.value !in held)
            && var b, c := ts[0].button.value, ts[1].button.value;
               (if c == b then ts[0].down else c in held)
               != if Releases(ts, c) then false else Presses(ts, c) || c in held
  {
    hide Transitions, Dropped, Emits;
    var ts := Transitions(i);
    assert Named(ts) == 1 + Named(ts[1..]);
    assert ts[0] in ts && ts[1] in ts && IsMouseButton(ts[0]);
    var b, c := ts[0].button.value, ts[1].button.value;
    assert ts[0] == Transition(Some(b), ts[0].down) && ts[1] == Transition(Some(c), ts[1].down);
    DroppedIs(ts, b);
    DroppedIs(ts, c);
    TransitionsPaired(i);
  }

  /** A refused button loses the ones after it. */
  lemma SecondButtonParts(m: Machine, i: Input, moved: bool, o: Owner)
    requires i.Mouse? && !Safe(i, m.absReady) && !Emits(i, m.absReady)
    requires Numb(m, Witness(i, m.absReady)) && Plays(o, Transitions(i))
    ensures Parts(m, i, moved, o)
  {
    hide Transitions, Buttons, Written, Has, Witness, Numb, RouteButton, Emits, Safe;
    var held, ts, moves := Witness(i, m.absReady), Transitions(i), moved || MovesAbsolutely(i);
    TwoNamed(i, m.absReady);
    var t, b, c := ts[0], ts[0].button.value, ts[1].button.value;
    NumbView(m, held);
    Silent(m, i);
    TransitionsPaired(i);
    FirstRefused(m, held, b, t.down, moves, o);
    assert SendMouse(m, i, moved, o).m == RouteButton(m, b, t.down, moves, o).m;
    LoneButtons(Written(m), ts, moves, o, c);
    assert Has(Written(SendMouse(m, i, moved, o).m), c) != Has(Buttons(Written(m), ts, moves, o), c);
  }

  lemma UnsafeParts(m: Machine, i: Input, moved: bool, o: Owner)
    requires i.Mouse? && !Safe(i, m.absReady) && Numb(m, Witness(i, m.absReady)) && Plays(o, Transitions(i))
    ensures Parts(m, i, moved, o)
  {
    if Emits(i, m.absReady) {
      EmissionParts(m, i, moved, o);
    } else {
      SecondButtonParts(m, i, moved, o);
    }
  }

  // ---------------------------------------------------------------- runs that part the views

  lemma {:induction false} FreeButtons(f: Forward, t: Table, ts: seq<Transition>, moved: bool, o: Owner)
    requires f.devices == seq(SLOTS, _ => FREE)
    ensures NoteButtons(f, t, ts, moved, o).fwd == f
    decreases |ts|
  {
    hide ShiftKey, ShiftsAny;
    if ts != [] {
      if ts[0].button.None? {
        FreeButtons(f, t, ts[1..], moved, o);
      } else {
        FreeShift(f, ts[0].button.value, Enqueued, ts[0].down);
        FreeButtons(f, ApplyKey(f, t, Enqueued, ts[0].button.value, ts[0].down, !moved, o).table, ts[1..], moved, o);
      }
    }
  }

  lemma FreeInput(vk: map<nat, nat>, f: Forward, t: Table, i: Input, moved: bool, o: Owner)
    requires f.devices == seq(SLOTS, _ => FREE)
    ensures NoteInput(vk, f, t, i, moved, o).fwd == f
  {
    hide ShiftKey, ShiftsAny, NoteButtons;
    if i.Mouse? {
      FreeButtons(f, t, Transitions(i), moved || MovesAbsolutely(i), o);
    } else if Resolve(vk, i).Some? {
      FreeShift(f, CanonicalButton(Resolve(vk, i).value), Enqueued, Up !in i.keyFlags);
    }
  }

  /** Without sources a batch's admission changes claims only. */
  lemma {:induction false} FreeNotes(vk: map<nat, nat>, f: Forward, t: Table, inputs: seq<Input>, dead: bool,
                                     moved: bool, o: Owner)
    requires f.devices == seq(SLOTS, _ => FREE)
    ensures NoteInputs(vk, f, t, inputs, dead, moved, o).fwd == f
    decreases |inputs|
  {
    hide NoteInput, Played;
    if inputs != [] {
      match Played(inputs[0], dead)
      case None => FreeNotes(vk, f, t, inputs[1..], dead, moved, o);
      case Some(i) =>
        FreeInput(vk, f, t, i, moved, o);
        FreeNotes(vk, f, NoteInput(vk, f, t, i, moved, o).table, inputs[1..], dead, moved || MovesAbsolutely(i), o);
    }
  }

  lemma NumbAdmits(m: Machine, held: set<nat>, inputs: seq<Input>, o: Owner)
    requires Numb(m, held)
    ensures var g := NoteSynth(m, inputs, o);
            Numb(g, held) && Written(g) == Written(m) && g.absReady == m.absReady && g.vkTable == m.vkTable
  {
    var s := SweepEnqueued(m);
    FreeNotes(s.vkTable, s.fwd, s.enqueued, inputs, IsDead(s.fwd, o, Enqueued), false, o);
    hide NoteInputs, IsDead;
  }

  /** The devices came up and refuse every write. */
  function Refusing(absReady: bool): Devices { Devices(true, absReady, Left(0), Left(0)) }

  /** A batch is admitted, and then written. */
  function BatchSteps(inputs: seq<Input>, o: Owner): seq<Step> { [Admit(Synth(inputs, false, o)), ApplyNext] }

  function PlayBatch(s: State, inputs: seq<Input>, o: Owner): State {
    Next(Next(s, Admit(Synth(inputs, false, o))), ApplyNext)
  }

  lemma BatchRuns(s: State, inputs: seq<Input>, o: Owner)
    ensures Legal(s, BatchSteps(inputs, o)) && Run(s, BatchSteps(inputs, o)) == PlayBatch(s, inputs, o)
  {
    hide AdmitAction, WriteAction, Maintain;
    var steps := BatchSteps(inputs, o);
    assert steps[1..] == [ApplyNext] && [ApplyNext][1..] == [];
    assert Legal(Next(s, steps[0]), [ApplyNext]);
  }

  /** Somebody presses some buttons, and the presses are written. */
  function Prelude(held: set<nat>): seq<Step> { BatchSteps(PressesFrom(held, BTN_LEFT), SOMEBODY) }

  lemma {:induction false} PressesAreKeys(held: set<nat>, c: nat)
    requires c <= BTN_EXTRA + 1
    ensures forall k :: 0 <= k < |PressesFrom(held, c)| ==> PressesFrom(held, c)[k].Keyboard?
    decreases BTN_EXTRA + 1 - c
  {
    if c <= BTN_EXTRA {
      PressesAreKeys(held, c + 1);
    }
  }

  lemma PressesAreSafe(held: set<nat>, absReady: bool)
    ensures AllSafe(PressesFrom(held, BTN_LEFT), false, absReady)
  {
    PressesAreKeys(held, BTN_LEFT);
    hide PressesFrom;
  }

  lemma Alive(m: Machine, held: set<nat>)
    requires Numb(m, held)
    ensures !IsDead(m.fwd, SOMEBODY, Applied)
  {}

  /** The written half of the prelude. */
  lemma NumbPlays(m: Machine, held: set<nat>)
    requires Numb(m, {}) && forall b :: b in held ==> IsButtonCode(b)
    ensures var g := WriteAction(m, Synth(PressesFrom(held, BTN_LEFT), false, SOMEBODY));
            Numb(g, held) && Maintain(g) == g && g.absReady == m.absReady && g.vkTable == m.vkTable
  {
    var n := m.(pendingHigh := 0);
    NumbPresses(n, {}, held, BTN_LEFT);
    NumbSound(n, {});
    SendInputsOk(n, map[], PressesFrom(held, BTN_LEFT), false, false, SOMEBODY);
    Alive(m, {});
    hide SendInputs, PressesFrom, IsDead, DevicesOk;
    assert {} + (set b | b in held && BTN_LEFT <= b <= BTN_EXTRA) == held;
  }

  lemma PreludeRuns(absReady: bool, held: set<nat>)
    requires forall b :: b in held ==> IsButtonCode(b)
    ensures var s := Start(Refusing(absReady), map[]);
            && Orderly(s, Prelude(held)) && Legal(s, Prelude(held))
            && var t := Run(s, Prelude(held));
               Numb(t.m, held) && t.queue == [] && t.m.absReady == absReady && Coupled(t)
  {
    var s, a := Start(Refusing(absReady), map[]), Synth(PressesFrom(held, BTN_LEFT), false, SOMEBODY);
    var t := Next(s, Admit(a));
    assert Numb(s.m, {}) && s.m.absReady == absReady;
    StartCoupled(Refusing(absReady), map[]);
    hide Numb, Coupled, WriteAction, Maintain, NoteSynth, Start, PressesFrom, AllSafe, IsDead;
    NumbAdmits(s.m, {}, a.inputs, SOMEBODY);
    assert t.m == NoteSynth(s.m, a.inputs, SOMEBODY) && t.queue == [a];
    NumbPlays(t.m, held);
    PressesAreSafe(held, absReady);
    Alive(t.m, {});
    assert t.m.fwd.sink.attached by { NumbAttached(t.m, {}); }
    PreludeOrderly(s, t, a);
    RunCoupled(s, Prelude(held));
  }

  lemma NumbAttached(m: Machine, held: set<nat>)
    requires Numb(m, held)
    ensures m.fwd.sink.attached
  {}

  lemma PreludeOrderly(s: State, t: State, a: Action)
    requires a.Synth? && a.owner == SOMEBODY && t == Next(s, Admit(a)) && s.queue == []
             && Playable(t.m, a.inputs, a.owner)
    ensures Orderly(s, [Admit(a), ApplyNext]) && Legal(s, [Admit(a), ApplyNext])
    ensures Run(s, [Admit(a), ApplyNext]) == State(Maintain(WriteAction(t.m, a)), [], s.kinds)
  {
    hide WriteAction, AdmitAction, Maintain, Playable;
    var steps := [Admit(a), ApplyNext];
    assert steps[1..] == [ApplyNext] && [ApplyNext][1..] == [];
    assert t.queue == [a] && t.queue[1..] == [];
    assert Orderly(t, [ApplyNext]) && Legal(t, [ApplyNext]);
  }

  const MOVE := Mouse(0, 0, 0, {Move, Absolute}, 0, 0)

  /** An input alone in its batch, or after an absolute move. */
  function Batch(i: Input, moved: bool): seq<Input> { if moved then [MOVE, i] else [i] }

  lemma BatchSent(m: Machine, i: Input, moved: bool, o: Owner)
    ensures SendInputs(m, Batch(i, moved), false, false, o) ==
            SendOne(if moved then SendOne(m, MOVE, false, o) else m, i, moved, o)
  {
    hide SendOne;
    AloneSent(m, i, false, false, o);
    if moved {
      AloneSent(SendOne(m, MOVE, false, o), i, false, true, o);
      FirstSent(m, MOVE, [i], false, o);
      assert [MOVE] + [i] == Batch(i, moved);
    }
  }

  lemma MovesOnly(i: Input)
    requires i.Mouse? && i.flags <= {Move, Absolute}
    ensures Transitions(i) == []
  {}

  lemma BatchMeans(vk: map<nat, nat>, v: ViewState, i: Input, moved: bool, o: Owner)
    requires i.Mouse?
    ensures AllInputs(vk, v, Batch(i, moved), false, false, o)
            == Buttons(v, Transitions(i), moved || MovesAbsolutely(i), o)
  {
    MovesOnly(MOVE);
    hide Transitions;
    assert [i][1..] == [] && [MOVE, i][1..] == [i];
    assert AllInputs(vk, v, [i], false, moved, o) == OneInput(vk, v, i, moved, o);
  }

  lemma NumbMoves(m: Machine, held: set<nat>, o: Owner)
    requires Numb(m, held)
    ensures var g := SendOne(m, MOVE, false, o); Numb(g, held) && Written(g) == Written(m) && g.absReady == m.absReady
  {
    MovesOnly(MOVE);
    hide Transitions;
  }

  lemma FreeStays(f: Forward, g: Forward, kinds: map<nat, Kind>)
    requires f.devices == seq(SLOTS, _ => FREE) && SameMeta(f, g) && DevicesOk(g, kinds)
    ensures g.devices == f.devices
  {
    forall j | 0 <= j < SLOTS
      ensures g.devices[j] == f.devices[j]
    {
      assert Meta(g.devices[j]) == Meta(f.devices[j]);
      assert Meta(g.devices[j]).open == g.devices[j].open;
      assert DeviceOk(g.devices[j], j, g.serial, kinds);
    }
  }

  /** Writing a batch on a numb machine, as seen from the admitted view. */
  lemma NumbWrites(m: Machine, held: set<nat>, i: Input, moved: bool)
    requires Numb(m, held)
    ensures var g := WriteAction(m, Synth(Batch(i, moved), false, SOMEBODY));
            && Maintain(g) == g && Admitted(g) == Admitted(m)
            && g == SendInputs(m.(pendingHigh := 0), Batch(i, moved), false, false, SOMEBODY)
  {
    var n := m.(pendingHigh := 0);
    NumbSound(n, held);
    Alive(m, held);
    SendInputsOk(n, map[], Batch(i, moved), false, false, SOMEBODY);
    hide SendInputs, IsDead, DevicesOk;
    FreeStays(n.fwd, SendInputs(n, Batch(i, moved), false, false, SOMEBODY).fwd, map[]);
  }

  /** An unsafe input differs on its machine, whatever came before it in its batch. */
  lemma BatchParts(m: Machine, i: Input, moved: bool)
    requires i.Mouse? && !Safe(i, m.absReady) && Numb(m, Witness(i, m.absReady))
    ensures Differ(Written(SendInputs(m, Batch(i, moved), false, false, SOMEBODY)),
                   Buttons(Written(m), Transitions(i), moved || MovesAbsolutely(i), SOMEBODY))
  {
    hide Numb, SendMouse, Differ, Written, Safe, Transitions, Buttons, Witness;
    BatchSent(m, i, moved, SOMEBODY);
    var n := if moved then SendOne(m, MOVE, false, SOMEBODY) else m;
    NumbMoves(m, Witness(i, m.absReady), SOMEBODY);
    UnsafeParts(n, i, moved, SOMEBODY);
  }

  lemma NumbAdmitted(s: State, i: Input, moved: bool)
    requires Coupled(s) && s.queue == [] && i.Mouse?
    ensures Admitted(NoteSynth(s.m, Batch(i, moved), SOMEBODY)) ==
            Buttons(Written(s.m), Transitions(i), moved || MovesAbsolutely(i), SOMEBODY)
  {
    assert Swept(Admitted(s.m)) == Written(s.m);
    AdmittedView(s, Synth(Batch(i, moved), false, SOMEBODY));
    BatchMeans(s.m.vkTable, Written(s.m), i, moved, SOMEBODY);
    hide Coupled, Written, Admitted, NoteSynth, AllInputs, Buttons, Transitions;
  }

  lemma PlayedParts(s: State, i: Input, moved: bool)
    requires Coupled(s) && s.queue == [] && i.Mouse? && !Safe(i, s.m.absReady) && Numb(s.m, Witness(i, s.m.absReady))
    ensures var t := PlayBatch(s, Batch(i, moved), SOMEBODY); t.queue == [] && Written(t.m) != Swept(Admitted(t.m))
  {
    hide Coupled, Numb, Written, Admitted, NoteSynth, SendInputs, WriteAction, Maintain, Buttons, Transitions, Witness,
         Safe, Swept, Differ;
    var held, a := Witness(i, s.m.absReady), Synth(Batch(i, moved), false, SOMEBODY);
    var m := NoteSynth(s.m, a.inputs, SOMEBODY);
    NumbAdmits(s.m, held, a.inputs, SOMEBODY);
    NumbAdmitted(s, i, moved);
    NumbWrites(m, held, i, moved);
    var n := m.(pendingHigh := 0);
    Refreshed(m, held);
    BatchParts(n, i, moved);
    assert ([a])[0] == a && ([a])[1..] == [];
    var t := PlayBatch(s, Batch(i, moved), SOMEBODY);
    assert t.m == SendInputs(n, Batch(i, moved), false, false, SOMEBODY);
    DifferSwept(Written(t.m), Admitted(t.m));
  }

  lemma Refreshed(m: Machine, held: set<nat>)
    requires Numb(m, held)
    ensures Numb(m.(pendingHigh := 0), held) && Written(m.(pendingHigh := 0)) == Written(m)
  {}

  lemma WitnessButtons(i: Input, absReady: bool)
    requires i.Mouse? && !Safe(i, absReady)
    ensures forall b :: b in Witness(i, absReady) ==> IsButtonCode(b)
  {
    hide Transitions;
    var ts := Transitions(i);
    assert forall k :: 0 <= k < |ts| ==> ts[k] in ts && IsMouseButton(ts[k]);
  }

  lemma {:induction false} RunAppends(s: State, a: seq<Step>, b: seq<Step>)
    requires Legal(s, a) && Legal(Run(s, a), b)
    ensures Legal(s, a + b) && Run(s, a + b) == Run(Run(s, a), b)
    decreases |a|
  {
    hide Next, Enabled;
    if a == [] {
      assert a + b == b;
    } else {
      assert (a + b)[1..] == a[1..] + b;
      RunAppends(Next(s, a[0]), a[1..], b);
    }
  }

  /** Every unsafe input has a run of the broker, from devices that came up and refuse their
      writes, that ends with nothing queued and the two views apart. */
  lemma UnsafeInputsPart(i: Input, moved: bool, absReady: bool)
    requires i.Mouse? && !Safe(i, absReady)
    ensures var s, steps := Start(Refusing(absReady), map[]),
            Prelude(Witness(i, absReady)) + BatchSteps(Batch(i, moved), SOMEBODY);
            && Legal(s, steps)
            && var t := Run(s, steps); t.queue == [] && Written(t.m) != Swept(Admitted(t.m))
  {
    hide Coupled, Numb, Witness, Safe, PlayBatch, Prelude, BatchSteps, Start, Swept, Written, Admitted;
    var s, held := Start(Refusing(absReady), map[]), Witness(i, absReady);
    WitnessButtons(i, absReady);
    PreludeRuns(absReady, held);
    var r := Run(s, Prelude(held));
    PlayedParts(r, i, moved);
    BatchRuns(r, Batch(i, moved), SOMEBODY);
    RunAppends(s, Prelude(held), BatchSteps(Batch(i, moved), SOMEBODY));
  }

  // ---------------------------------------------------------------- safe inputs

  /** A FIFO run that leaves nothing queued, a sink, and a living owner to play for. */
  ghost predicate Reaches(d: Devices, vk: map<nat, nat>, steps: seq<Step>, absReady: bool, o: Owner) {
    && (forall v :: v in vk ==> vk[v] <= KEY_MAX)
    && Orderly(Start(d, vk), steps) && Legal(Start(d, vk), steps)
    && var s := Run(Start(d, vk), steps);
       && s.queue == [] && s.m.absReady == absReady && s.m.fwd.sink.attached
       && KnownOwner(s.kinds, o) && !IsDead(s.m.fwd, o, Applied)
  }

  /** After every FIFO run, whatever devices it had, the input leaves the views together. */
  ghost predicate KeepsTogether(i: Input, moved: bool, absReady: bool) {
    forall d, vk, steps, o :: Reaches(d, vk, steps, absReady, o) ==>
      var t := PlayBatch(Run(Start(d, vk), steps), Batch(i, moved), o); Written(t.m) == Swept(Admitted(t.m))
  }

  lemma BatchSafe(i: Input, moved: bool, absReady: bool)
    requires Safe(i, absReady)
    ensures AllSafe(Batch(i, moved), false, absReady)
  {
    MovesOnly(MOVE);
    hide Transitions;
  }

  /** Admission leaves alone what playing the batch depends on. */
  lemma AdmittedPlayable(s: State, inputs: seq<Input>, o: Owner)
    requires Coupled(s) && s.m.fwd.sink.attached && !IsDead(s.m.fwd, o, Applied) && AllSafe(inputs, false, s.m.absReady)
    ensures Playable(NoteSynth(s.m, inputs, o), inputs, o)
  {
    var g := NoteSynth(s.m, inputs, o);
    AdmitApart(s, Synth(inputs, false, o));
    CoupledParts(s);
    AdmitForward(s, Synth(inputs, false, o));
    hide Coupled, MachineInv, DevicesOk, NoteSynth, IsDead, AllSafe, SlotsAt, Healthy, Gone;
    DeadIsGone(s.m, s.kinds, o, Applied);
    DeadIsGone(g, s.kinds, o, Applied);
  }

  lemma SafePlayed(s: State, i: Input, moved: bool, o: Owner)
    requires Coupled(s) && s.queue == [] && s.m.fwd.sink.attached && KnownOwner(s.kinds, o)
             && !IsDead(s.m.fwd, o, Applied)
    requires Safe(i, s.m.absReady)
    ensures var t := PlayBatch(s, Batch(i, moved), o);
            t.queue == [] && Coupled(t) && Written(t.m) == Swept(Admitted(t.m))
  {
    hide Inv, WriteAction, Maintain, NoteSynth, Safe, IsDead, AllSafe, Playable, Swept, Written, Admitted;
    var a := Synth(Batch(i, moved), false, o);
    var t := Next(s, Admit(a));
    BatchSafe(i, moved, s.m.absReady);
    AdmittedPlayable(s, a.inputs, o);
    AdmitCoupled(s, a);
    ApplyNextCoupled(t);
  }

  /** The input keeps the two views together after every FIFO run, whatever is refused,
      exactly if it is safe. */
  lemma InStepExactlyWhenSafe(i: Input, moved: bool, absReady: bool)
    requires i.Mouse?
    ensures KeepsTogether(i, moved, absReady) <==> Safe(i, absReady)
  {
    hide Coupled, Numb, Witness, Safe, PlayBatch, Swept, Written, Admitted, Start, Orderly, Legal, Run, Prelude, IsDead;
    if Safe(i, absReady) {
      forall d, vk, steps, o | Reaches(d, vk, steps, absReady, o)
        ensures var t := PlayBatch(Run(Start(d, vk), steps), Batch(i, moved), o); Written(t.m) == Swept(Admitted(t.m))
      {
        StartCoupled(d, vk);
        RunCoupled(Start(d, vk), steps);
        SafePlayed(Run(Start(d, vk), steps), i, moved, o);
      }
    } else {
      var d, vk: map<nat, nat>, held := Refusing(absReady), map[], Witness(i, absReady);
      WitnessButtons(i, absReady);
      PreludeRuns(absReady, held);
      var s := Run(Start(d, vk), Prelude(held));
      PlayedParts(s, i, moved);
      Alive(s.m, held);
      NumbAttached(s.m, held);
      assert Reaches(d, vk, Prelude(held), absReady, SOMEBODY);
    }
  }
}
