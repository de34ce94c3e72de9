/** Runs in which the two views part: a full claim table, an end or a close that a full queue
    could not order, a clone that refuses writes, and a sink that is missing. */
module Divergence {
  import opened Codes
  import opened Claims
  import opened Forwarding
  import opened Synthesis
  import opened Broker
  import opened Pointwise
  import opened ViewModel
  import opened SynthInvariant
  import opened BrokerInvariant
  import opened TwoViews
  import opened Sweeping
  import opened SafeInputs
  import opened Coupling
  import opened Draining
  import opened CoupledRuns
  import opened Splitting
  import opened Refusals

  const WORKING := Devices(true, true, Endless, Endless)

  ghost predicate Together(s: State) { Written(s.m) == Swept(Admitted(s.m)) }

  predicate NoSources(v: ViewState) { forall k :: 0 <= k < |v.slots| ==> v.slots[k].None? }

  /** What a safe batch leaves, from a state with nothing queued. */
  lemma SafeBatch(s: State, inputs: seq<Input>, o: Owner)
    requires Coupled(s) && s.queue == [] && s.m.fwd.sink.attached && o.target == 0
             && AllSafe(inputs, false, s.m.absReady)
    ensures var t := PlayBatch(s, inputs, o);
            && Coupled(t) && t.queue == [] && t.m.fwd.sink.attached && t.kinds == s.kinds
            && Written(t.m) == Swept(AllInputs(s.m.vkTable, Written(s.m), inputs, false, false, o))
            && t.m.vkTable == s.m.vkTable
  {
    var a := Synth(inputs, false, o);
    var t := Next(s, Admit(a));
    assert !IsDead(s.m.fwd, o, Applied) && !Gone(Written(s.m).slots, o);
    AdmitApart(s, a);
    BatchAttached(s, inputs, o);
    hide Inv, WriteAction, Maintain, NoteSynth, IsDead, AllSafe, Playable, Swept, Written, Admitted, AllInputs, Gone;
    AdmittedPlayable(s, inputs, o);
    AdmitCoupled(s, a);
    AppliedMirror(t);
    ApplyNextCoupled(t);
    assert t.queue == [a] && t.queue[1..] == [];
  }

  lemma BatchAttached(s: State, inputs: seq<Input>, o: Owner)
    requires Coupled(s) && s.queue == []
    ensures PlayBatch(s, inputs, o).m.fwd.sink.attached == s.m.fwd.sink.attached
  {
    var a := Synth(inputs, false, o);
    var m := NoteSynth(s.m, inputs, o);
    CoupledParts(s);
    hide Coupled;
    AdmitForward(s, a);
    hide MachineInv, DevicesOk, NoteSynth, SendInputs;
    SendBatchOk(m, s.kinds, inputs, false, o);
    MaintainAttached(SendBatch(m, inputs, false, o));
    assert ([a])[0] == a;
  }

  lemma MaintainAttached(m: Machine)
    ensures Maintain(m).fwd.sink.attached == m.fwd.sink.attached
  {
    hide SetApplied;
  }

  // ---------------------------------------------------------------- a full table

  function OwnerOf(k: nat): Owner { Owner(0, k + 2, 0, 0, 0) }

  function Owners(n: nat): set<Owner> { set k: nat | k < n :: OwnerOf(k) }

  function Filled(n: nat): Table { map o | o in Owners(n) :: {BTN_RIGHT} }

  lemma OwnersMore(n: nat)
    ensures Owners(n + 1) == Owners(n) + {OwnerOf(n)} && OwnerOf(n) !in Owners(n)
  {
    forall o | o in Owners(n + 1)
      ensures o in Owners(n) + {OwnerOf(n)}
    {
      var k: nat :| k < n + 1 && OwnerOf(k) == o;
      assert k < n || k == n;
    }
  }

  lemma {:induction false} OwnersCount(n: nat)
    ensures |Owners(n)| == n
    decreases n
  {
    if n == 0 {
      assert Owners(0) == {};
    } else {
      OwnersCount(n - 1);
      OwnersMore(n - 1);
      hide Owners, OwnerOf;
    }
  }

  lemma FilledSize(n: nat)
    ensures |Filled(n)| == n && OwnerOf(n) !in Filled(n)
  {
    OwnersCount(n);
    OwnersMore(n);
    hide Owners, OwnerOf;
    assert Filled(n).Keys == Owners(n) && |Filled(n)| == |Filled(n).Keys|;
  }

  lemma FilledGrows(n: nat)
    requires n < CAPACITY
    ensures Hold(Filled(n), OwnerOf(n), BTN_RIGHT) == Filled(n + 1)
  {
    FilledSize(n);
    var t := Hold(Filled(n), OwnerOf(n), BTN_RIGHT);
    assert {} + {BTN_RIGHT} == {BTN_RIGHT};
    forall o
      ensures o in t <==> o in Filled(n + 1)
    {
      if o in Owners(n + 1) {
        var k: nat :| k < n + 1 && OwnerOf(k) == o;
        assert k < n || k == n;
      }
      if o == OwnerOf(n) || o in Owners(n) {
        assert o in Owners(n + 1);
      }
    }
  }

  function FillSteps(n: nat): seq<Step> {
    if n == 0 then [] else FillSteps(n - 1) + BatchSteps([Pressing(BTN_RIGHT)], OwnerOf(n - 1))
  }

  /** Nothing queued, no sources, and n connections holding the right button. */
  ghost predicate FilledState(s: State, n: nat) {
    Coupled(s) && s.queue == [] && s.m.fwd.sink.attached && NoSources(Written(s.m)) && Written(s.m).claims == Filled(n)
  }

  lemma PressMeans(vk: map<nat, nat>, v: ViewState, b: nat, o: Owner)
    requires NoSources(v) && 0 < b <= KEY_MAX && CanonicalButton(b) == b
    ensures AllInputs(vk, v, [Pressing(b)], false, false, o) == v.(claims := Hold(v.claims, o, b))
  {
    assert [Pressing(b)][1..] == [];
    assert Resolve(vk, Pressing(b)) == Some(b);
    assert !Restorable(v.slots, b);
    assert AllInputs(vk, v, [Pressing(b)], false, false, o) == OneInput(vk, v, Pressing(b), false, o);
  }

  lemma FillOne(s: State, n: nat)
    requires FilledState(s, n) && n < CAPACITY
    ensures FilledState(PlayBatch(s, [Pressing(BTN_RIGHT)], OwnerOf(n)), n + 1)
  {
    hide Coupled, Written, PlayBatch, Filled;
    SafeBatch(s, [Pressing(BTN_RIGHT)], OwnerOf(n));
    PressMeans(s.m.vkTable, Written(s.m), BTN_RIGHT, OwnerOf(n));
    FilledGrows(n);
    var v := ViewState(Written(s.m).slots, Filled(n + 1));
    FilledClean(v.slots, n + 1);
  }

  lemma FilledClean(slots: seq<Option<Source>>, n: nat)
    ensures Swept(ViewState(slots, Filled(n))) == ViewState(slots, Filled(n))
  {
    CleanIsSwept(ViewState(slots, Filled(n)));
  }

  lemma FillStarts()
    ensures FilledState(Start(WORKING, map[]), 0)
  {
    StartCoupled(WORKING, map[]);
    assert Filled(0) == map[];
    hide Coupled;
  }

  lemma {:induction false} FillRuns(n: nat)
    requires n <= CAPACITY
    ensures Legal(Start(WORKING, map[]), FillSteps(n)) && FilledState(Run(Start(WORKING, map[]), FillSteps(n)), n)
    decreases n
  {
    hide FilledState, Start, BatchSteps, PlayBatch, Next, Enabled, Pressing;
    if n == 0 {
      FillStarts();
    } else {
      FillRuns(n - 1);
      var s := Run(Start(WORKING, map[]), FillSteps(n - 1));
      FillOne(s, n - 1);
      BatchRuns(s, [Pressing(BTN_RIGHT)], OwnerOf(n - 1));
      RunAppends(Start(WORKING, map[]), FillSteps(n - 1), BatchSteps([Pressing(BTN_RIGHT)], OwnerOf(n - 1)));
    }
  }

  const SWAP := Mouse(0, 0, 0, {LeftDown, RightUp}, 0, 0)
  const SWAP_STEPS := [Transition(Some(BTN_LEFT), true), Transition(Some(BTN_RIGHT), false)]

  lemma SwapTransitions()
    ensures Transitions(SWAP) == SWAP_STEPS && !MovesAbsolutely(SWAP)
  {}

  lemma FilledReleases(n: nat)
    ensures ReleaseCode(Filled(n), BTN_RIGHT) == map[]
  {
    assert {BTN_RIGHT} - {BTN_RIGHT} == {};
  }

  lemma SwapButtons(v: ViewState, o: Owner)
    requires NoSources(v) && v.claims == Filled(CAPACITY) && o == OwnerOf(CAPACITY)
    ensures Buttons(v, SWAP_STEPS, false, o).claims == map[]
  {
    FilledSize(CAPACITY);
    FilledReleases(CAPACITY);
    hide Filled, ReleaseCode;
    assert PressOrRelease(v, BTN_LEFT, true, true, o) == v by { assert !Restorable(v.slots, BTN_LEFT); }
    var w := PressOrRelease(v, BTN_RIGHT, false, true, o);
    assert w.claims == map[];
    hide PressOrRelease;
    assert SWAP_STEPS[1..] == [SWAP_STEPS[1]] && [SWAP_STEPS[1]][1..] == [];
    assert Buttons(w, [], false, o) == w;
    assert Buttons(v, [SWAP_STEPS[1]], false, o) == w;
  }

  /** Admission, which has no press to fail, goes on to release the button everywhere. */
  lemma SwapMeans(vk: map<nat, nat>, v: ViewState)
    requires NoSources(v) && v.claims == Filled(CAPACITY)
    ensures AllInputs(vk, v, [SWAP], false, false, OwnerOf(CAPACITY)).claims == map[]
  {
    hide Transitions, Buttons, Filled;
    SwapTransitions();
    SwapButtons(v, OwnerOf(CAPACITY));
    assert [SWAP][1..] == [];
    assert AllInputs(vk, v, [SWAP], false, false, OwnerOf(CAPACITY)) == OneInput(vk, v, SWAP, false, OwnerOf(CAPACITY));
  }

  lemma NoRoom(m: Machine, kinds: map<nat, Kind>, o: Owner)
    requires DevicesOk(m.fwd, kinds) && NoSources(Written(m)) && !Fits(m.applied, o)
    ensures var s := RouteButton(m, BTN_LEFT, true, false, o); !s.ok && s.m.applied == m.applied
  {
    ShiftsAnyView(m.fwd, kinds, BTN_LEFT, Applied);
    assert !Restorable(Written(m).slots, BTN_LEFT);
    hide ShiftsAny, Restorable, DevicesOk, SlotsAt;
  }

  /** Writing it stops at the press that finds no room. */
  lemma SwapStops(m: Machine, kinds: map<nat, Kind>)
    requires DevicesOk(m.fwd, kinds) && NoSources(Written(m)) && m.applied == Filled(CAPACITY)
    ensures SendInputs(m, [SWAP], false, false, OwnerOf(CAPACITY)).applied == Filled(CAPACITY)
  {
    hide Transitions, RouteButton, Filled, DevicesOk, Motion, VerticalWheel, SidewaysWheel, OwnerOf;
    var o := OwnerOf(CAPACITY);
    SwapTransitions();
    FilledSize(CAPACITY);
    NoRoom(m, kinds, o);
    AloneSent(m, SWAP, false, false, o);
    Silent(m, SWAP);
    assert RouteButtons(m, SWAP_STEPS, false, o).m == RouteButton(m, BTN_LEFT, true, false, o).m;
    hide RouteButtons;
    assert SendMouse(m, SWAP, false, o) == RouteButtons(m, Transitions(SWAP), false, o);
  }

  lemma MaintainKeepsOwner(m: Machine, o: Owner)
    requires o.target == 0
    ensures o in Maintain(m).applied <==> o in m.applied
    ensures o in m.applied ==> Maintain(m).applied[o] == m.applied[o]
  {
    hide SetApplied;
  }

  lemma SwapAdmitted(s: State)
    requires FilledState(s, CAPACITY)
    ensures var g := NoteSynth(s.m, [SWAP], OwnerOf(CAPACITY));
            && g.enqueued == map[] && g.applied == Filled(CAPACITY) && g.fwd.sink.attached
            && NoSources(Written(g)) && DevicesOk(g.fwd, s.kinds)
  {
    var o := OwnerOf(CAPACITY);
    var a := Synth([SWAP], false, o);
    CoupledParts(s);
    AdmitApart(s, a);
    AdmittedView(s, a);
    AdmitForward(s, a);
    assert Swept(Admitted(s.m)) == Written(s.m) && !Gone(Admitted(s.m).slots, o);
    hide Coupled, NoteSynth, Filled, MachineInv, DevicesOk, AllInputs, Gone, Swept;
    SwapMeans(s.m.vkTable, Written(s.m));
  }

  lemma FullTableSwaps(s: State)
    requires FilledState(s, CAPACITY)
    ensures !Together(PlayBatch(s, [SWAP], OwnerOf(CAPACITY)))
  {
    hide Coupled, NoteSynth, SendInputs, Filled, DevicesOk, Maintain;
    var o := OwnerOf(CAPACITY);
    var a, g := Synth([SWAP], false, o), NoteSynth(s.m, [SWAP], o);
    SwapAdmitted(s);
    var n := g.(pendingHigh := 0);
    SwapStops(n, s.kinds);
    SendInputsOk(n, s.kinds, [SWAP], false, false, o);
    var w := SendBatch(g, [SWAP], false, o);
    MaintainFrame(w);
    FilledMember();
    MaintainKeepsOwner(w, OwnerOf(0));
    var t := PlayBatch(s, [SWAP], o);
    assert ([a])[0] == a && t.m == Maintain(w);
    assert OwnerOf(0) in Written(t.m).claims && Admitted(t.m).claims == map[];
  }

  lemma FilledMember()
    ensures OwnerOf(0) in Filled(CAPACITY)
  {
    assert OwnerOf(0) in Owners(CAPACITY);
  }

  /** With a full table a compound input parts the views although nothing is refused. */
  lemma FullTableParts()
    ensures var s, steps := Start(WORKING, map[]), FillSteps(CAPACITY) + BatchSteps([SWAP], OwnerOf(CAPACITY));
            Legal(s, steps) && Run(s, steps).queue == [] && !Together(Run(s, steps))
  {
    hide Start, FilledState, Together, BatchSteps, FillSteps, AdmitAction, WriteAction, Maintain;
    FillRuns(CAPACITY);
    var s := Run(Start(WORKING, map[]), FillSteps(CAPACITY));
    FullTableSwaps(s);
    FilledQueue(s);
    BatchRuns(s, [SWAP], OwnerOf(CAPACITY));
    RunAppends(Start(WORKING, map[]), FillSteps(CAPACITY), BatchSteps([SWAP], OwnerOf(CAPACITY)));
  }

  lemma FilledQueue(s: State)
    requires FilledState(s, CAPACITY)
    ensures s.queue == [] && PlayBatch(s, [SWAP], OwnerOf(CAPACITY)).queue == []
  {
    hide AdmitAction, WriteAction, Maintain, Coupled, Written;
  }

  // ---------------------------------------------------------------- overtaking

  const TARGET := 257
  const PRESS := Packet(TARGET, [KeyEvent(KEY_A, 1)], false, false)

  /** The only source: a keyboard in the first slot, with these targets and keys. */
  function Keyboard0(targetA: nat, targetE: nat, applied: Keys, enqueued: Keys): Device {
    Device(targetA, targetE, true, false, true, false, false, false, Endless, applied, enqueued)
  }

  ghost predicate First(s: State, d: Device, queue: seq<Action>) {
    && |s.m.fwd.devices| == SLOTS && s.m.fwd.devices[0] == d && s.queue == queue && TARGET in s.kinds
    && s.kinds[TARGET] == Kind(true, false)
  }

  lemma Applying(s: State, a: Action, rest: seq<Action>)
    requires s.queue == [a] + rest
    ensures Enabled(s, ApplyNext)
    ensures Next(s, ApplyNext) == State(Maintain(WriteAction(s.m, a)), rest, s.kinds)
  {
    assert s.queue[0] == a && s.queue[1..] == rest;
    hide Maintain, WriteAction;
  }

  lemma PressOk(s: State)
    requires TARGET in s.kinds && s.kinds[TARGET] == Kind(true, false)
    ensures PacketAllowed(s, PRESS) && KeyOf(PRESS) == Some(KeyEvent(KEY_A, 1))
  {}

  lemma Opened0(d: Devices)
    ensures Enabled(Start(d, map[]), OpenSource(true, false, Endless))
    ensures var s := Next(Start(d, map[]), OpenSource(true, false, Endless));
            First(s, Keyboard0(TARGET, TARGET, NO_KEYS, NO_KEYS), []) && s.m.fwd.serial == 2
  {}

  /** The press is admitted, first what the source holds and then its replay. */
  lemma PressAdmitted(s: State, k: Keys, a: Action)
    requires First(s, Keyboard0(TARGET, TARGET, NO_KEYS, k), s.queue) && (a == SourceState(PRESS) || a == Replay(PRESS))
    ensures Enabled(s, Admit(a))
    ensures var t := Next(s, Admit(a));
            var n := if a.Replay? then k.(output := k.output + {KEY_A}) else k.(source := k.source + {KEY_A});
            && First(t, Keyboard0(TARGET, TARGET, NO_KEYS, n), s.queue + [a])
            && t.m.fwd.serial == s.m.fwd.serial
  {
    PressOk(s);
    NoteKeysAt(s.m.fwd, PRESS, Enqueued, a.SourceState?);
    hide NoteKeys;
    assert Find(s.m.fwd, TARGET, Enqueued) == Some(0);
  }

  lemma EndAdmitted0(f: Forward)
    requires |f.devices| == SLOTS && f.devices[0] == Keyboard0(TARGET, TARGET, NO_KEYS, Keys({KEY_A}, {KEY_A}, {}))
             && f.serial == 2
    ensures var g := EndGrab(f, TARGET);
            |g.devices| == SLOTS && g.devices[0] == Keyboard0(TARGET, 513, NO_KEYS, Keys({KEY_A}, {KEY_A}, {}))
  {
    assert Find(f, TARGET, Enqueued) == Some(0) && MakeTarget(2, 0) == 513;
    EndGrabAtAt(f, 0, Enqueued, {KEY_A}, 513);
    hide EndGrabAt;
  }

  lemma EndApplied0(g: Forward, k: Keys)
    requires |g.devices| == SLOTS && g.devices[0] == Keyboard0(TARGET, 513, NO_KEYS, k)
    ensures var h := ApplyEndGrab(g, 513, Some({KEY_A}));
            |h.devices| == SLOTS && h.devices[0] == Keyboard0(513, 513, NO_KEYS, k)
  {
    assert SlotOf(g, 513) == Some(0);
    EndGrabAtAt(g, 0, Applied, {KEY_A}, 513);
    hide EndGrabAt;
    assert NO_KEYS.output * {KEY_A} == {};
  }

  lemma EndedNow(s: State)
    requires First(s, Keyboard0(TARGET, TARGET, NO_KEYS, Keys({KEY_A}, {KEY_A}, {})), s.queue) && s.m.fwd.serial == 2
    requires Find(s.m.fwd, TARGET, Enqueued) == Some(0)
    ensures First(Ending(s, TARGET, false), Keyboard0(513, 513, NO_KEYS, Keys({KEY_A}, {KEY_A}, {})), s.queue)
  {
    assert MakeTarget(2, 0) == 513;
    hide EndGrab, ApplyEndGrab, Find;
    EndAdmitted0(s.m.fwd);
    EndApplied0(EndGrab(s.m.fwd, TARGET), Keys({KEY_A}, {KEY_A}, {}));
  }

  lemma EndNow(s: State)
    requires First(s, Keyboard0(TARGET, TARGET, NO_KEYS, Keys({KEY_A}, {KEY_A}, {})), s.queue) && s.m.fwd.serial == 2
    ensures Enabled(s, AdmitEnd(TARGET, false))
    ensures First(Next(s, AdmitEnd(TARGET, false)), Keyboard0(513, 513, NO_KEYS, Keys({KEY_A}, {KEY_A}, {})), s.queue)
  {
    hide Ending, First;
    assert Find(s.m.fwd, TARGET, Enqueued) == Some(0) by { FirstFound(s); }
    EndedNow(s);
  }

  lemma FirstFound(s: State)
    requires First(s, Keyboard0(TARGET, TARGET, NO_KEYS, Keys({KEY_A}, {KEY_A}, {})), s.queue)
    ensures Find(s.m.fwd, TARGET, Enqueued) == Some(0)
  {}

  /** What was queued under the old target finds the slot moved on. */
  lemma StaleApplied(s: State, k: Keys, a: Action, rest: seq<Action>)
    requires First(s, Keyboard0(513, 513, NO_KEYS, k), [a] + rest) && (a == SourceState(PRESS) || a == Replay(PRESS))
    ensures Enabled(s, ApplyNext) && First(Next(s, ApplyNext), Keyboard0(513, 513, NO_KEYS, k), rest)
  {
    assert Find(s.m.fwd, TARGET, Applied) == None;
    Applying(s, a, rest);
    MaintainFrame(WriteAction(s.m, a));
    hide Next, Enabled, Maintain, SetApplied, ReleaseByPacket, Find;
  }

  /** A press still queued, and the end of its grab applied before it. */
  function EndSteps(): seq<Step> {
    [OpenSource(true, false, Endless), Admit(SourceState(PRESS)), Admit(Replay(PRESS)), AdmitEnd(TARGET, false),
      ApplyNext, ApplyNext]
  }

  /** An end that a full queue could not order leaves the admitted view with a key that the
      written view never gets, even once everything queued has been written. */
  lemma EndOvertakes(d: Devices)
    ensures var s := Start(d, map[]);
            Legal(s, EndSteps()) && Run(s, EndSteps()).queue == [] && !Together(Run(s, EndSteps()))
  {
    hide Next, Enabled, Start;
    var s0, steps := Start(d, map[]), EndSteps();
    Opened0(d);
    var s1 := Next(s0, steps[0]);
    PressAdmitted(s1, NO_KEYS, SourceState(PRESS));
    assert {} + {KEY_A} == {KEY_A};
    var s2 := Next(s1, steps[1]);
    PressAdmitted(s2, Keys({}, {KEY_A}, {}), Replay(PRESS));
    var s3 := Next(s2, steps[2]);
    assert [] + [SourceState(PRESS)] + [Replay(PRESS)] == [SourceState(PRESS)] + [Replay(PRESS)];
    EndNow(s3);
    var s4 := Next(s3, steps[3]);
    StaleApplied(s4, Keys({KEY_A}, {KEY_A}, {}), SourceState(PRESS), [Replay(PRESS)]);
    var s5 := Next(s4, steps[4]);
    StaleApplied(s5, Keys({KEY_A}, {KEY_A}, {}), Replay(PRESS), []);
    var s6 := Next(s5, steps[5]);
    EndedApart(s6);
    OneStep(s5, steps[5..]);
    OneStep(s4, steps[4..]);
    OneStep(s3, steps[3..]);
    OneStep(s2, steps[2..]);
    OneStep(s1, steps[1..]);
    OneStep(s0, steps);
  }

  lemma EndedApart(s: State)
    requires First(s, Keyboard0(513, 513, NO_KEYS, Keys({KEY_A}, {KEY_A}, {})), [])
    ensures s.queue == [] && !Together(s)
  {
    assert Written(s.m).slots[0] == Some(Source(513, true, false, NO_KEYS));
    assert Admitted(s.m).slots[0] == Some(Source(513, true, false, Keys({KEY_A}, {KEY_A}, {})));
  }

  /** One keyboard in the first slot and no claims. */
  function Only(k: Keys): ViewState {
    ViewState(seq(SLOTS, _ => None)[0 := Some(Source(TARGET, true, false, k))], map[])
  }

  ghost predicate Shows(s: State, k: Keys, queue: seq<Action>) {
    && Coupled(s) && s.queue == queue && s.m.fwd.sink.attached && TARGET in s.kinds
    && s.kinds[TARGET] == Kind(true, false)
    && Written(s.m) == Only(k)
  }

  lemma OnlyPress(vk: map<nat, nat>, k: Keys)
    ensures Mirror(vk, Only(k), SourceState(PRESS)) == Only(k.(source := k.source + {KEY_A}))
    ensures Mirror(vk, Only(k), Replay(PRESS)) == Only(k.(output := k.output + {KEY_A}))
  {
    var v := Only(k);
    assert KeyOf(PRESS) == Some(KeyEvent(KEY_A, 1)) && Locate(v.slots, TARGET) == Some(0);
    ReleaseByPacketKeys(map[], PRESS, |PRESS.events|);
    hide ReleaseByPacket;
    assert Meaning(vk, v, SourceState(PRESS)) == Only(k.(source := k.source + {KEY_A}));
    assert Meaning(vk, v, Replay(PRESS)) == Only(k.(output := k.output + {KEY_A}));
    OnlySwept(k.(source := k.source + {KEY_A}));
    OnlySwept(k.(output := k.output + {KEY_A}));
  }

  lemma OnlySwept(k: Keys)
    ensures Swept(Only(k)) == Only(k)
  {
    CleanIsSwept(Only(k));
  }

  lemma OpenShows(d: Devices)
    requires d.attached
    ensures Shows(Next(Start(d, map[]), OpenSource(true, false, Endless)), NO_KEYS, [])
  {
    var s := Start(d, map[]);
    StartCoupled(d, map[]);
    CoupledParts(s);
    OpenViews(s, true, false);
    StepCoupled(s, OpenSource(true, false, Endless));
    assert Written(s.m).slots == seq(SLOTS, _ => None);
    assert s.kinds == map[];
    hide Coupled, DevicesOk;
  }

  lemma AdmitShows(s: State, k: Keys, a: Action)
    requires Shows(s, k, s.queue) && (a == SourceState(PRESS) || a == Replay(PRESS))
    ensures Enabled(s, Admit(a)) && Shows(Next(s, Admit(a)), k, s.queue + [a])
  {
    PressOk(s);
    CoupledParts(s);
    AdmitApart(s, a);
    AdmitForward(s, a);
    hide Coupled, Written, Inv, MachineInv, DevicesOk, NoteKeys;
    StepCoupled(s, Admit(a));
  }

  lemma ApplyShows(s: State, k: Keys, a: Action, rest: seq<Action>)
    requires Shows(s, k, [a] + rest) && (a == SourceState(PRESS) || a == Replay(PRESS))
    ensures Enabled(s, ApplyNext)
    ensures var n := if a.Replay? then k.(output := k.output + {KEY_A}) else k.(source := k.source + {KEY_A});
            Shows(Next(s, ApplyNext), n, rest)
  {
    hide Coupled, Written, WriteAction, Maintain, Mirror, Only;
    assert s.queue[0] == a && s.queue[1..] == rest && InOrder(s, ApplyNext);
    hide InOrder, Playable;
    PacketAttached(s.m, a);
    AppliedMirror(s);
    StepCoupled(s, ApplyNext);
    OnlyPress(s.m.vkTable, k);
  }

  lemma PacketAttached(m: Machine, a: Action)
    requires a.SourceState? || a.Replay?
    ensures Maintain(WriteAction(m, a)).fwd.sink.attached == m.fwd.sink.attached
  {
    hide Maintain, SetApplied, Write, NoteKeys;
    MaintainAttached(WriteAction(m, a));
  }

  function Letting(b: nat): Input { Keyboard(0, b, {ScanCode, Up}, 0, 0) }

  /** Synthesis lets go of a key its source still holds, and presses it again. */
  lemma OnlyLets(vk: map<nat, nat>)
    ensures AllInputs(vk, Only(Keys({KEY_A}, {KEY_A}, {})), [Letting(KEY_A)], false, false, SOMEBODY) ==
            Only(Keys({}, {KEY_A}, {KEY_A}))
  {
    var v, x := Only(Keys({KEY_A}, {KEY_A}, {})), Letting(KEY_A);
    assert [x][1..] == [] && Resolve(vk, x) == Some(KEY_A);
    assert AllInputs(vk, v, [x], false, false, SOMEBODY) == OneInput(vk, v, x, false, SOMEBODY);
    assert ShiftKeys(Keys({KEY_A}, {KEY_A}, {}), KEY_A, false) == Keys({}, {KEY_A}, {KEY_A});
    var w := PressOrRelease(v, KEY_A, false, true, SOMEBODY);
    assert w.claims == map[];
    assert w.slots == Only(Keys({}, {KEY_A}, {KEY_A})).slots;
  }

  lemma OnlyRestores(vk: map<nat, nat>)
    ensures var v := AllInputs(vk, Only(Keys({}, {KEY_A}, {KEY_A})), [Pressing(KEY_A)], false, false, SOMEBODY);
            v.claims == map[] && |v.slots| == SLOTS && v.slots[0].Some? && v.slots[0].value.target == TARGET
  {
    var v, x := Only(Keys({}, {KEY_A}, {KEY_A})), Pressing(KEY_A);
    assert [x][1..] == [] && Resolve(vk, x) == Some(KEY_A);
    assert AllInputs(vk, v, [x], false, false, SOMEBODY) == OneInput(vk, v, x, false, SOMEBODY);
    assert HasDisplaced(v.slots[0], KEY_A);
    assert Restorable(v.slots, KEY_A);
  }

  function SetupSteps(): seq<Step> {
    [OpenSource(true, false, Endless), Admit(SourceState(PRESS)), Admit(Replay(PRESS)), ApplyNext, ApplyNext]
  }

  lemma SetupRuns(d: Devices)
    requires d.attached
    ensures var s := Start(d, map[]);
            Legal(s, SetupSteps()) && Shows(Run(s, SetupSteps()), Keys({KEY_A}, {KEY_A}, {}), [])
  {
    hide Next, Enabled, Start, Coupled, Written;
    var s0, steps := Start(d, map[]), SetupSteps();
    Opened0(d);
    var s1 := Next(s0, steps[0]);
    OpenShows(d);
    AdmitShows(s1, NO_KEYS, SourceState(PRESS));
    var s2 := Next(s1, steps[1]);
    AdmitShows(s2, NO_KEYS, Replay(PRESS));
    var s3 := Next(s2, steps[2]);
    assert [] + [SourceState(PRESS)] + [Replay(PRESS)] == [SourceState(PRESS)] + [Replay(PRESS)];
    ApplyShows(s3, NO_KEYS, SourceState(PRESS), [Replay(PRESS)]);
    assert {} + {KEY_A} == {KEY_A};
    var s4 := Next(s3, steps[3]);
    assert [Replay(PRESS)] == [Replay(PRESS)] + [];
    ApplyShows(s4, Keys({}, {KEY_A}, {}), Replay(PRESS), []);
    OneStep(s4, steps[4..]);
    OneStep(s3, steps[3..]);
    OneStep(s2, steps[2..]);
    OneStep(s1, steps[1..]);
    OneStep(s0, steps);
  }

  lemma LetShows(s: State)
    requires Shows(s, Keys({KEY_A}, {KEY_A}, {}), [])
    ensures Shows(PlayBatch(s, [Letting(KEY_A)], SOMEBODY), Keys({}, {KEY_A}, {KEY_A}), [])
  {
    hide Coupled, Written, PlayBatch, Only;
    SafeBatch(s, [Letting(KEY_A)], SOMEBODY);
    OnlyLets(s.m.vkTable);
    OnlySwept(Keys({}, {KEY_A}, {KEY_A}));
  }

  /** The source closed at once: no slot of the written view is left. */
  lemma ClosedNow(f: Forward, kinds: map<nat, Kind>)
    requires DevicesOk(f, kinds) && Find(f, TARGET, Enqueued).Some?
    requires forall j :: 0 < j < SLOTS ==> SlotAt(f.devices[j], Applied).None?
    ensures var g := ApplyClose(Close(f, TARGET), TARGET);
            (forall j :: 0 <= j < |g.devices| ==> SlotAt(g.devices[j], Applied).None?)
              && g.sink.attached == f.sink.attached
  {
    assert DeviceOk(f.devices[0], 0, f.serial, kinds);
    hide ReleaseOutputs, DevicesOk;
    assert Find(f, TARGET, Enqueued) == Some(0) && SlotOf(f, TARGET) == Some(0);
    ReleaseOutputsAt(Close(f, TARGET), 0, Applied, {});
  }

  lemma PressHolds(m: Machine, kinds: map<nat, Kind>)
    requires DevicesOk(m.fwd, kinds) && NoSources(Written(m)) && m.applied == map[] && m.fwd.sink.attached
    ensures var g := Maintain(SendBatch(m, [Pressing(KEY_A)], false, SOMEBODY)); Holds(g.applied, SOMEBODY, KEY_A)
  {
    var n := m.(pendingHigh := 0);
    PressMeans(m.vkTable, Written(m), KEY_A, SOMEBODY);
    assert !IsDead(m.fwd, SOMEBODY, Applied);
    hide SendInputs, AllInputs, Maintain, DevicesOk, IsDead;
    SafeBatchesStayInStep(n, kinds, [Pressing(KEY_A)], false, false, SOMEBODY);
    var g := SendBatch(m, [Pressing(KEY_A)], false, SOMEBODY);
    assert g.applied == Hold(map[], SOMEBODY, KEY_A);
    MaintainKeepsOwner(g, SOMEBODY);
  }

  function LastSteps(): seq<Step> {
    [Admit(Synth([Pressing(KEY_A)], false, SOMEBODY)), AdmitClose(TARGET, false), ApplyNext]
  }

  /** The press is admitted while the source still has the displaced key to restore. */
  lemma PressRestores(s: State)
    requires Shows(s, Keys({}, {KEY_A}, {KEY_A}), [])
    ensures var t := Next(s, Admit(Synth([Pressing(KEY_A)], false, SOMEBODY)));
            && Inv(t) && t.m.enqueued == map[] && t.m.applied == map[] && t.m.fwd.sink.attached
            && Written(t.m) == Written(s.m) && Find(t.m.fwd, TARGET, Enqueued).Some?
  {
    var a := Synth([Pressing(KEY_A)], false, SOMEBODY);
    var t := Next(s, Admit(a));
    assert Swept(Admitted(s.m)) == Written(s.m);
    assert !Gone(Admitted(s.m).slots, SOMEBODY);
    OnlyRestores(s.m.vkTable);
    CoupledParts(s);
    AdmittedView(s, a);
    AdmitApart(s, a);
    AdmitForward(s, a);
    AdmitKept(s, a);
    hide Coupled, NoteSynth, AllInputs, MachineInv, DevicesOk, Only, Gone;
    assert Admitted(t.m).slots[0].Some? && Admitted(t.m).slots[0].value.target == TARGET;
    LocateFind(t.m.fwd, t.kinds, TARGET, Enqueued);
  }

  lemma CloseParts(s: State)
    requires Shows(s, Keys({}, {KEY_A}, {KEY_A}), [])
    ensures Legal(s, LastSteps()) && Run(s, LastSteps()).queue == [] && !Together(Run(s, LastSteps()))
  {
    var a, steps := Synth([Pressing(KEY_A)], false, SOMEBODY), LastSteps();
    hide MachineInv, AdmitAction, Coupled, WriteAction;
    PressRestores(s);
    var t := Next(s, Admit(a));
    OthersFree(t, s);
    var u := Next(t, AdmitClose(TARGET, false));
    ClosedOnly(t);
    PressHolds(u.m, u.kinds);
    CloseLeaves(s, t, u, a);
  }

  lemma OthersFree(t: State, s: State)
    requires Written(t.m) == Written(s.m) && Shows(s, Keys({}, {KEY_A}, {KEY_A}), [])
    ensures forall j :: 0 < j < |t.m.fwd.devices| ==> SlotAt(t.m.fwd.devices[j], Applied).None?
  {
    hide Coupled;
    var slots := Written(t.m).slots;
    assert forall j :: 0 <= j < |t.m.fwd.devices| ==> slots[j] == SlotAt(t.m.fwd.devices[j], Applied);
  }

  lemma ClosedOnly(t: State)
    requires Inv(t) && Find(t.m.fwd, TARGET, Enqueued).Some?
    requires forall j :: 0 < j < |t.m.fwd.devices| ==> SlotAt(t.m.fwd.devices[j], Applied).None?
    ensures var u := Next(t, AdmitClose(TARGET, false));
            && NoSources(Written(u.m)) && DevicesOk(u.m.fwd, u.kinds) && u.m.fwd.sink.attached == t.m.fwd.sink.attached
            && u.m.applied == t.m.applied && u.m.enqueued == t.m.enqueued && u.queue == t.queue
  {
    hide MachineInv, ApplyClose, Close;
    CloseNowKept(t, TARGET);
    ClosedNow(t.m.fwd, t.kinds);
    hide DevicesOk;
  }

  lemma PressLeaves(u: State, a: Action)
    requires a == Synth([Pressing(KEY_A)], false, SOMEBODY) && u.queue == [a] && u.m.enqueued == map[]
    requires DevicesOk(u.m.fwd, u.kinds) && Holds(Maintain(WriteAction(u.m, a)).applied, SOMEBODY, KEY_A)
    ensures Enabled(u, ApplyNext) && var v := Next(u, ApplyNext); v.queue == [] && !Together(v)
  {
    assert u.queue == [a] + [];
    Applying(u, a, []);
    hide SendBatch, Maintain, DevicesOk, Next, Enabled, Pressing;
    MaintainFrame(WriteAction(u.m, a));
    SendBatchOk(u.m, u.kinds, a.inputs, false, SOMEBODY);
    var v := Next(u, ApplyNext);
    assert SOMEBODY in Written(v.m).claims && Admitted(v.m).claims == map[];
  }

  lemma CloseLeaves(s: State, t: State, u: State, a: Action)
    requires a == Synth([Pressing(KEY_A)], false, SOMEBODY) && t == Next(s, Admit(a))
             && Enabled(t, AdmitClose(TARGET, false))
    requires u == Next(t, AdmitClose(TARGET, false)) && u.queue == [a] && u.m.enqueued == map[]
    requires DevicesOk(u.m.fwd, u.kinds) && Holds(Maintain(WriteAction(u.m, a)).applied, SOMEBODY, KEY_A)
    ensures Legal(s, LastSteps()) && Run(s, LastSteps()).queue == [] && !Together(Run(s, LastSteps()))
  {
    var steps := LastSteps();
    PressLeaves(u, a);
    hide Maintain, WriteAction, Next, DevicesOk, Together;
    OneStep(u, steps[2..]);
    OneStep(t, steps[1..]);
    OneStep(s, steps);
  }

  function CloseSteps(): seq<Step> { SetupSteps() + BatchSteps([Letting(KEY_A)], SOMEBODY) + LastSteps() }

  /** A close that a full queue could not order leaves the written view with a claim that the
      admitted view does not have: the press was admitted as the restore of a key the source
      held, and finds no source to restore it to. */
  lemma CloseOvertakes(d: Devices)
    requires d.attached
    ensures var s := Start(d, map[]);
            Legal(s, CloseSteps()) && Run(s, CloseSteps()).queue == [] && !Together(Run(s, CloseSteps()))
  {
    hide Start, Shows, Together, SetupSteps, LastSteps, BatchSteps, PlayBatch, Next, Enabled;
    var s := Start(d, map[]);
    SetupRuns(d);
    var t := Run(s, SetupSteps());
    LetShows(t);
    BatchRuns(t, [Letting(KEY_A)], SOMEBODY);
    RunAppends(s, SetupSteps(), BatchSteps([Letting(KEY_A)], SOMEBODY));
    CloseParts(PlayBatch(t, [Letting(KEY_A)], SOMEBODY));
    RunAppends(s, SetupSteps() + BatchSteps([Letting(KEY_A)], SOMEBODY), LastSteps());
  }

  // ---------------------------------------------------------------- refused and missing devices

  function Click(down: bool): Packet {
    Packet(TARGET, [KeyEvent(BTN_LEFT, if down then 1 else 0)], false, true)
  }

  /** The only source: a mouse in the first slot whose clone accepts no write. */
  function Mouse0(failed: bool, applied: set<nat>, enqueued: set<nat>): Device {
    Device(TARGET, TARGET, true, false, false, true, failed, false, Left(0), Keys(applied, {}, {}),
           Keys(enqueued, {}, {}))
  }

  ghost predicate FirstMouse(s: State, d: Device, queue: seq<Action>) {
    && |s.m.fwd.devices| == SLOTS && s.m.fwd.devices[0] == d && s.queue == queue && TARGET in s.kinds
    && s.kinds[TARGET] == Kind(false, true)
  }

  lemma MouseOpened(d: Devices)
    ensures Enabled(Start(d, map[]), OpenSource(false, true, Left(0)))
    ensures FirstMouse(Next(Start(d, map[]), OpenSource(false, true, Left(0))), Mouse0(false, {}, {}), [])
  {}

  lemma ClickAdmitted(s: State, held: set<nat>, down: bool)
    requires FirstMouse(s, Mouse0(false, {}, held), s.queue)
    ensures Enabled(s, Admit(Replay(Click(down))))
    ensures FirstMouse(Next(s, Admit(Replay(Click(down)))), Mouse0(false, {}, Toggle(held, BTN_LEFT, down)),
                       s.queue + [Replay(Click(down))])
  {
    var p := Click(down);
    assert KeyOf(p) == Some(p.events[0]);
    NoteKeysAt(s.m.fwd, p, Enqueued, false);
    hide NoteKeys;
    assert Find(s.m.fwd, TARGET, Enqueued) == Some(0);
  }

  /** The clone refuses the report, which counts a press and does not count a release. */
  lemma ClickWritten(f: Forward, failed: bool, held: set<nat>, down: bool)
    requires |f.devices| == SLOTS && f.devices[0] == Mouse0(failed, held, {}) && (down || BTN_LEFT in held)
    ensures var g := Write(f, Click(down)); |g.devices| == SLOTS && g.devices[0] == Mouse0(true, held + {BTN_LEFT}, {})
  {
    var p := Click(down);
    assert KeyOf(p) == Some(p.events[0]) && Find(f, TARGET, Applied) == Some(0);
    assert p.events[..0] == [];
    assert NoteWritten(held, p.events, false) == held + {BTN_LEFT};
    hide NoteWritten;
  }

  lemma ClickRefused(s: State, failed: bool, held: set<nat>, down: bool, rest: seq<Action>)
    requires FirstMouse(s, Mouse0(failed, held, {}), [Replay(Click(down))] + rest) && (down || BTN_LEFT in held)
    ensures Enabled(s, ApplyNext)
    ensures FirstMouse(Next(s, ApplyNext), Mouse0(true, held + {BTN_LEFT}, {}), rest)
  {
    var p := Click(down);
    Applying(s, Replay(p), rest);
    ClickWritten(s.m.fwd, failed, held, down);
    hide Next, Enabled, Write, SetApplied, Maintain, ReleaseByPacket;
    MaintainFrame(WriteAction(s.m, Replay(p)));
  }

  function CloneSteps(): seq<Step> {
    [OpenSource(false, true, Left(0)), Admit(Replay(Click(true))), Admit(Replay(Click(false))), ApplyNext, ApplyNext]
  }

  /** A clone that refuses writes leaves the written view with a button that the admitted
      view has seen released. */
  lemma RefusingCloneParts(d: Devices)
    ensures var s := Start(d, map[]);
            Legal(s, CloneSteps()) && Run(s, CloneSteps()).queue == [] && !Together(Run(s, CloneSteps()))
  {
    hide Next, Enabled, Start, FirstMouse;
    var s0, steps := Start(d, map[]), CloneSteps();
    MouseOpened(d);
    var s1 := Next(s0, steps[0]);
    assert s1.queue == [] by { MouseQueue(s1, Mouse0(false, {}, {}), []); }
    ClickAdmitted(s1, {}, true);
    assert Toggle({}, BTN_LEFT, true) == {BTN_LEFT} && Toggle({BTN_LEFT}, BTN_LEFT, false) == {};
    var s2 := Next(s1, steps[1]);
    MouseQueue(s2, Mouse0(false, {}, {BTN_LEFT}), [] + [Replay(Click(true))]);
    ClickAdmitted(s2, {BTN_LEFT}, false);
    var s3 := Next(s2, steps[2]);
    assert s2.queue + [Replay(Click(false))] == [Replay(Click(true))] + [Replay(Click(false))];
    ClickRefused(s3, false, {}, true, [Replay(Click(false))]);
    assert {} + {BTN_LEFT} == {BTN_LEFT} == {BTN_LEFT} + {BTN_LEFT};
    var s4 := Next(s3, steps[3]);
    assert [Replay(Click(false))] == [Replay(Click(false))] + [];
    ClickRefused(s4, true, {BTN_LEFT}, false, []);
    var s5 := Next(s4, steps[4]);
    ClickApart(s5);
    OneStep(s4, steps[4..]);
    OneStep(s3, steps[3..]);
    OneStep(s2, steps[2..]);
    OneStep(s1, steps[1..]);
    OneStep(s0, steps);
  }

  lemma MouseQueue(s: State, d: Device, queue: seq<Action>)
    requires FirstMouse(s, d, queue)
    ensures s.queue == queue
  {}

  lemma ClickApart(s: State)
    requires FirstMouse(s, Mouse0(true, {BTN_LEFT}, {}), [])
    ensures s.queue == [] && !Together(s)
  {
    assert Written(s.m).slots[0] == Some(Source(TARGET, false, true, Keys({BTN_LEFT}, {}, {})));
    assert Admitted(s.m).slots[0] == Some(Source(TARGET, false, true, Keys({}, {}, {})));
  }

  /** Without a sink even a safe batch is admitted and not played. */
  lemma NoSinkParts(d: Devices)
    requires !d.attached
    ensures var s, steps := Start(d, map[]), BatchSteps([Pressing(KEY_A)], SOMEBODY);
            Legal(s, steps) && Run(s, steps).queue == [] && !Together(Run(s, steps))
  {
    var s, a := Start(d, map[]), Synth([Pressing(KEY_A)], false, SOMEBODY);
    StartCoupled(d, map[]);
    CoupledParts(s);
    BatchRuns(s, [Pressing(KEY_A)], SOMEBODY);
    AdmittedView(s, a);
    AdmitForward(s, a);
    AdmitApart(s, a);
    PressMeans(s.m.vkTable, Admitted(s.m), KEY_A, SOMEBODY);
    var t := Next(s, Admit(a));
    hide NoteSynth, Coupled, Inv, AllInputs;
    assert WriteAction(t.m, a) == t.m && Maintain(t.m) == t.m;
    assert SOMEBODY in Swept(Admitted(t.m)).claims && Written(t.m).claims == map[];
  }
}
