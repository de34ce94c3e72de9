/** Every step of a FIFO run keeps the two views coupled, so a drained queue leaves them
    equal and what a query reads is what the sink holds. */
module CoupledRuns {
  import opened Codes
  import opened Claims
  import opened Forwarding
  import opened Synthesis
  import opened Broker
  import opened Pointwise
  import opened ViewModel
  import opened SinkInvariant
  import opened SynthInvariant
  import opened BrokerInvariant
  import opened TwoViews
  import opened Sweeping
  import opened Coupling
  import opened Draining
  import opened Joining

  /** The part of the coupling that is about the two views and the queue. */
  ghost predicate Matched(vk: map<nat, nat>, w: ViewState, queue: seq<Action>, a: ViewState) {
    Clean(w) && Ready(vk, w, queue) && Drained(vk, w, queue) == Swept(a)
  }

  /** The part that is about names. */
  ghost predicate NamesKnown(s: State) {
    && (forall t :: t in s.kinds ==> t != 0)
    && KnownOwners(s.kinds, s.m.applied) && KnownOwners(s.kinds, s.m.enqueued)
    && (forall k :: 0 <= k < |s.queue| ==> Dated(s, s.queue[k]))
  }

  lemma CoupledIs(s: State)
    ensures Coupled(s) <==>
            Inv(s) && Healthy(s.m.fwd) && EpochsOk(s) && NamesKnown(s)
              && Matched(s.m.vkTable, Written(s.m), s.queue, Admitted(s.m))
  {
    hide Inv, Healthy, EpochsOk, Clean, Ready, Drained, Swept;
  }

  // ---------------------------------------------------------------- admission

  lemma AdmitApart(s: State, a: Action)
    requires Coupled(s) && ActionAllowed(s, a)
    ensures var g := AdmitAction(s.m, a);
            && Written(g) == Written(s.m) && Healthy(g.fwd) && g.fwd.epoch == s.m.fwd.epoch && g.vkTable == s.m.vkTable
            && g.appliedEpoch == s.m.appliedEpoch && g.applied == s.m.applied
            && (if a.Synth? then g.enqueuedEpoch == s.m.fwd.epoch else g.enqueuedEpoch == s.m.enqueuedEpoch)
  {
    CoupledParts(s);
    hide Coupled, MachineInv, DevicesOk, Healthy, SlotsAt, EpochsOk, NoteKeys, NoteInputs, ReleaseAllFrom;
    var m := s.m;
    match a
    case SourceState(p) => NotedView(m.fwd, s.kinds, p, Enqueued, true);
    case Replay(p) => NotedView(m.fwd, s.kinds, p, Enqueued, false);
    case Synth(inputs, _, o) =>
      var w := SweepEnqueued(m);
      NoteInputsView(w.vkTable, w.fwd, s.kinds, w.enqueued, inputs, IsDead(w.fwd, o, Enqueued), false, o);
      NoteInputsKeepSink(s, inputs, o);
    case ReleaseAll => EmptiedView(m.fwd, s.kinds, Enqueued);
    case _ =>
  }

  lemma NoteInputsKeepSink(s: State, inputs: seq<Input>, o: Owner)
    requires MachineInv(s.m) && DevicesOk(s.m.fwd, s.kinds)
    ensures var w := SweepEnqueued(s.m);
            Quiet(s.m.fwd, NoteInputs(w.vkTable, w.fwd, w.enqueued, inputs, IsDead(w.fwd, o, Enqueued), false, o).fwd)
  {
    var w := SweepEnqueued(s.m);
    NoteInputsQuiet(w.vkTable, w.fwd, w.enqueued, inputs, IsDead(w.fwd, o, Enqueued), false, o);
  }

  lemma {:induction false} NoteButtonsQuiet(f: Forward, t: Table, ts: seq<Transition>, moved: bool, o: Owner)
    ensures Quiet(f, NoteButtons(f, t, ts, moved, o).fwd)
    decreases |ts|
  {
    hide ShiftKey, ShiftsAny;
    if ts != [] {
      if ts[0].button.None? {
        NoteButtonsQuiet(f, t, ts[1..], moved, o);
      } else {
        var k := ApplyKey(f, t, Enqueued, ts[0].button.value, ts[0].down, !moved, o);
        NoteButtonsQuiet(k.fwd, k.table, ts[1..], moved, o);
      }
    }
  }

  lemma {:induction false} NoteInputsQuiet(vk: map<nat, nat>, f: Forward, t: Table, inputs: seq<Input>, dead: bool,
                                           moved: bool, o: Owner)
    ensures Quiet(f, NoteInputs(vk, f, t, inputs, dead, moved, o).fwd)
    decreases |inputs|
  {
    hide ShiftKey, ShiftsAny, Played, NoteButtons;
    if inputs != [] {
      match Played(inputs[0], dead)
      case None => NoteInputsQuiet(vk, f, t, inputs[1..], dead, moved, o);
      case Some(i) =>
        if i.Mouse? {
          NoteButtonsQuiet(f, t, Transitions(i), moved || MovesAbsolutely(i), o);
        }
        var k := NoteInput(vk, f, t, i, moved, o);
        NoteInputsQuiet(vk, k.fwd, k.table, inputs[1..], dead, moved || MovesAbsolutely(i), o);
    }
  }

  lemma AdmitCoupled(s: State, a: Action)
    requires Coupled(s) && ActionAllowed(s, a) && InOrder(s, Admit(a))
    ensures Coupled(Next(s, Admit(a)))
  {
    hide Coupled, Inv, AdmitAction, Mirror, Drained, Ready, Healthy, Swept, Written, Clean;
    var t, vk := Next(s, Admit(a)), s.m.vkTable;
    CoupledIs(s);
    CoupledIs(t);
    AdmitKept(s, a);
    AdmitApart(s, a);
    AdmittedMirror(s, a);
    DrainedAppend(vk, Written(s.m), s.queue, a);
  }

  // ---------------------------------------------------------------- the sequencer

  lemma MirrorClaims(vk: map<nat, nat>, v: ViewState, a: Action)
    requires Clean(v)
    ensures forall o :: o in Mirror(vk, v, a).claims ==> o in v.claims || (a.Synth? && o == a.owner)
  {
    if !a.EndOf? && !a.CloseOf? {
      MeaningKeepsClean(vk, v, a);
    }
  }

  lemma ApplyNextCoupled(s: State)
    requires Coupled(s) && s.queue != [] && InOrder(s, ApplyNext)
    ensures Coupled(Next(s, ApplyNext))
  {
    hide Coupled, Inv, WriteAction, Maintain, Meaning, Healthy, ReadyNow, SlotsAt, Clean, Swept;
    var t, a := Next(s, ApplyNext), s.queue[0];
    CoupledIs(s);
    CoupledIs(t);
    ApplyNextKept(s);
    AppliedMirror(s);
    MirrorClaims(s.m.vkTable, Written(s.m), a);
    CleanIsSwept(Meaning(s.m.vkTable, Written(s.m), a));
    assert Dated(s, a);
    assert t.kinds == s.kinds && t.queue == s.queue[1..] && t.m.enqueued == Admitted(t.m).claims
           && t.m.applied == Written(t.m).claims;
  }

  // ---------------------------------------------------------------- the reader

  lemma EndAdmittedSlot(f: Forward, kinds: map<nat, Kind>, i: nat, next: nat)
    requires DevicesOk(f, kinds) && Healthy(f) && i < |f.devices| && f.devices[i].Live() && !f.devices[i].closing
    ensures var d, g := f.devices[i], EndGrabAt(f, i, Enqueued, f.devices[i].enqueued.source, next);
            && SlotsAt(g, Enqueued) == SlotsAt(f, Enqueued)[i := Some(EndSource(SlotAt(d, Enqueued).value, next))]
            && SlotsAt(g, Applied) == SlotsAt(f, Applied) && Healthy(g)
  {
    KeysFit(f, kinds);
    HealthyAt(f, i);
    var g := EndGrabAt(f, i, Enqueued, f.devices[i].enqueued.source, next);
    EndGrabAtAt(f, i, Enqueued, f.devices[i].enqueued.source, next);
    hide EndGrabAt, DevicesOk;
    assert SlotsAt(g, Applied) == SlotsAt(f, Applied);
  }

  lemma EndAdmitted(s: State, target: nat)
    requires DevicesOk(s.m.fwd, s.kinds) && Healthy(s.m.fwd) && Find(s.m.fwd, target, Enqueued).Some?
    ensures var f, t := s.m.fwd, Ending(s, target, true);
            var next := MakeTarget(f.serial, Find(f, target, Enqueued).value);
            && SlotsAt(t.m.fwd, Enqueued) == EndSlot(SlotsAt(f, Enqueued), next)
            && SlotsAt(t.m.fwd, Applied) == SlotsAt(f, Applied) && Healthy(t.m.fwd) && t.m.fwd.epoch == f.epoch + 1
  {
    var f := s.m.fwd;
    var i := Find(f, target, Enqueued).value;
    var next := MakeTarget(f.serial, i);
    assert f.devices[i].Live() && !f.devices[i].closing && f.devices[i].targetE < next && i < SLOTS by {
      assert DeviceOk(f.devices[i], i, f.serial, s.kinds);
      TargetParts(f.serial, i);
    }
    TargetParts(f.serial, i);
    hide EndGrabAt, DevicesOk, Healthy, MakeTarget;
    EndAdmittedSlot(f, s.kinds, i, next);
    EndGrabEpoch(f, i, Enqueued, f.devices[i].enqueued.source, next);
    SameSlots(EndGrabAt(f, i, Enqueued, f.devices[i].enqueued.source, next), Ending(s, target, true).m.fwd);
  }

  /** A claim of an ended grab stays dead when a fresh name is issued. */
  lemma EndStaysGone(slots: seq<Option<Source>>, next: nat, o: Owner)
    requires Gone(slots, o) && o.target != next
    ensures Gone(EndSlot(slots, next), o)
  {}

  /** Queuing an end or a close that the admitted view has already taken. */
  lemma ReaderCoupled(s: State, t: State, a: Action)
    requires Coupled(s) && !a.Synth? && Inv(t) && Healthy(t.m.fwd)
    requires t.queue == s.queue + [a] && t.m.vkTable == s.m.vkTable && Dated(t, a) && ReadyNow(Swept(Admitted(s.m)), a)
    requires Written(t.m) == Written(s.m) && Admitted(t.m) == Meaning(s.m.vkTable, Admitted(s.m), a)
    requires t.m.applied == s.m.applied && t.m.enqueued == s.m.enqueued
    requires t.m.appliedEpoch == s.m.appliedEpoch && t.m.enqueuedEpoch == s.m.enqueuedEpoch
             && t.m.fwd.epoch == s.m.fwd.epoch + 1
    requires (forall x :: x in s.kinds ==> x in t.kinds) && (forall x :: x in t.kinds ==> x in s.kinds || x != 0)
    requires forall o :: o in s.m.enqueued && Gone(Admitted(s.m).slots, o) ==> Gone(Admitted(t.m).slots, o)
    ensures Coupled(t)
  {
    hide Coupled, Inv, Healthy, Drained, Ready, ReadyNow, Swept, SlotsAt, Gone, Clean, Meaning;
    CoupledIs(s);
    CoupledIs(t);
    SweepFirst(s.m.vkTable, Admitted(s.m), a);
    DrainedAppend(s.m.vkTable, Written(s.m), s.queue, a);
  }

  /** The fresh name of an ended grab's slot is no claim's, so no dead claim revives. */
  lemma EndIssues(s: State, target: nat)
    requires DevicesOk(s.m.fwd, s.kinds) && Find(s.m.fwd, target, Enqueued).Some? && KnownOwners(s.kinds, s.m.enqueued)
    ensures var t, v, next := Ending(s, target, true), Admitted(s.m),
            MakeTarget(s.m.fwd.serial, Find(s.m.fwd, target, Enqueued).value);
            && t.kinds == s.kinds[next := t.kinds[next]] && next != 0
            && forall o :: o in v.claims && Gone(v.slots, o) ==> Gone(EndSlot(v.slots, next), o)
  {
    var t, v, next := Ending(s, target, true), Admitted(s.m),
      MakeTarget(s.m.fwd.serial, Find(s.m.fwd, target, Enqueued).value);
    TargetParts(s.m.fwd.serial, Find(s.m.fwd, target, Enqueued).value);
    assert next !in s.kinds;
    hide DevicesOk, EndGrab, SlotsAt, MakeTarget;
    forall o | o in v.claims && Gone(v.slots, o)
      ensures Gone(EndSlot(v.slots, next), o)
    {
      EndStaysGone(v.slots, next, o);
    }
  }

  lemma EndCoupled(s: State, target: nat)
    requires Coupled(s) && Find(s.m.fwd, target, Enqueued).Some?
    ensures Coupled(Ending(s, target, true))
  {
    hide Coupled, Inv, SlotsAt, Healthy, DevicesOk, EndGrab, EndSlot, Gone, MakeTarget, KnownOwners;
    CoupledParts(s);
    EndGrabKept(s, target);
    EndAdmitted(s, target);
    EndIssues(s, target);
    ReaderCoupled(s, Ending(s, target, true), EndOf(MakeTarget(s.m.fwd.serial, Find(s.m.fwd, target, Enqueued).value)));
  }

  lemma CloseAdmitted(s: State, target: nat)
    requires DevicesOk(s.m.fwd, s.kinds) && Healthy(s.m.fwd) && Find(s.m.fwd, target, Enqueued).Some? && target != 0
    ensures var f, t := s.m.fwd, Closing(s, target, true);
            && Locate(SlotsAt(f, Enqueued), target).Some?
            && SlotsAt(t.m.fwd, Enqueued) == CloseSlot(SlotsAt(f, Enqueued), target)
            && SlotsAt(t.m.fwd, Applied) == SlotsAt(f, Applied) && Healthy(t.m.fwd) && t.m.fwd.epoch == f.epoch + 1
  {
    LocateFind(s.m.fwd, s.kinds, target, Enqueued);
  }

  lemma CloseStaysGone(slots: seq<Option<Source>>, target: nat, o: Owner)
    requires Gone(slots, o)
    ensures Gone(CloseSlot(slots, target), o)
  {}

  lemma CloseCoupled(s: State, target: nat)
    requires Coupled(s) && Find(s.m.fwd, target, Enqueued).Some?
    ensures Coupled(Closing(s, target, true))
  {
    var t, v := Closing(s, target, true), Admitted(s.m);
    hide Coupled, Inv, Healthy;
    CoupledParts(s);
    assert target in s.kinds by {
      var i := Find(s.m.fwd, target, Enqueued).value;
      assert DeviceOk(s.m.fwd.devices[i], i, s.m.fwd.serial, s.kinds);
    }
    hide SlotsAt, DevicesOk;
    CloseKept(s, target);
    CloseAdmitted(s, target);
    forall o | o in v.claims && Gone(v.slots, o)
      ensures Gone(CloseSlot(v.slots, target), o)
    {
      CloseStaysGone(v.slots, target, o);
    }
    hide CloseSlot, Gone;
    ReaderCoupled(s, t, CloseOf(target));
  }

  lemma OpenViews(s: State, keyboard: bool, clone: bool)
    requires DevicesOk(s.m.fwd, s.kinds) && Healthy(s.m.fwd)
    requires FirstFree(s.m.fwd.devices, 0) < |s.m.fwd.devices|
    ensures var f, t, i := s.m.fwd, Opening(s, keyboard, clone, Endless), FirstFree(s.m.fwd.devices, 0);
            var src := Source(MakeTarget(f.serial, i), keyboard, clone, NO_KEYS);
            && SlotsAt(f, Applied)[i].None? && SlotsAt(f, Enqueued)[i].None?
            && Written(t.m) == AddSlot(Written(s.m), i, src) && Admitted(t.m) == AddSlot(Admitted(s.m), i, src)
            && Healthy(t.m.fwd) && t.m.fwd.epoch == s.m.fwd.epoch
  {}

  lemma OpenCoupled(s: State, keyboard: bool, clone: bool)
    requires Coupled(s)
    ensures Coupled(Opening(s, keyboard, clone, Endless))
  {
    hide Coupled, Inv, Healthy, DevicesOk, AddSlot, Joins, Drained, Ready, Swept, Clean, SlotsAt;
    var f, t := s.m.fwd, Opening(s, keyboard, clone, Endless);
    var i := FirstFree(f.devices, 0);
    CoupledParts(s);
    CoupledIs(s);
    if i < |f.devices| {
      CoupledIs(t);
      OpenKept(s, keyboard, clone, Endless);
      OpenViews(s, keyboard, clone);
      OpenJoins(s, i, Source(MakeTarget(f.serial, i), keyboard, clone, NO_KEYS));
      OpenNamed(s, t);
    } else {
      assert t == s;
    }
  }

  /** Both views take the new source in the same way. */
  lemma OpenJoins(s: State, i: nat, src: Source)
    requires NamesKnown(s) && DevicesOk(s.m.fwd, s.kinds) && i < SLOTS && src.target == MakeTarget(s.m.fwd.serial, i)
             && src.keys == NO_KEYS
    requires SlotsAt(s.m.fwd, Applied)[i].None? && SlotsAt(s.m.fwd, Enqueued)[i].None?
    requires Matched(s.m.vkTable, Written(s.m), s.queue, Admitted(s.m))
    ensures Matched(s.m.vkTable, AddSlot(Written(s.m), i, src), s.queue, AddSlot(Admitted(s.m), i, src))
    ensures Clean(AddSlot(Admitted(s.m), i, src)) <==> Clean(Admitted(s.m))
  {
    TargetParts(s.m.fwd.serial, i);
    Earlier(s, src.target);
    hide DevicesOk, SlotsAt, Drained, Ready, Swept, Clean, MakeTarget;
    DrainedJoins(s.m.vkTable, Written(s.m), i, src, s.queue);
    SweptJoins(Written(s.m), i, src);
    SweptJoins(Admitted(s.m), i, src);
  }

  lemma OpenNamed(s: State, t: State)
    requires NamesKnown(s) && (forall x :: x in s.kinds ==> x in t.kinds)
             && (forall x :: x in t.kinds ==> x in s.kinds || x != 0)
    requires t.queue == s.queue && t.m.applied == s.m.applied && t.m.enqueued == s.m.enqueued
    ensures NamesKnown(t)
  {}

  /** Every name in use was issued before the next serial. */
  lemma Earlier(s: State, target: nat)
    requires NamesKnown(s) && DevicesOk(s.m.fwd, s.kinds) && s.m.fwd.serial <= target / 256 && target > 0
    ensures forall k :: 0 <= k < |s.queue| ==> Predates(s.queue[k], target)
    ensures forall o :: o in s.m.applied || o in s.m.enqueued ==> o.target != target
  {
    assert forall t :: t in s.kinds ==> t < target;
    forall k | 0 <= k < |s.queue|
      ensures Predates(s.queue[k], target)
    {
      assert Dated(s, s.queue[k]);
    }
  }

  // ---------------------------------------------------------------- upkeep

  lemma QueryCoupled(s: State)
    requires Coupled(s)
    ensures Coupled(Next(s, Query))
  {
    hide Coupled, Inv, DevicesOk, Healthy, Drained, Ready, Gone, IsDead, SlotsAt;
    var t := Next(s, Query);
    CoupledIs(s);
    CoupledIs(t);
    QueryKept(s);
    CoupledParts(s);
    SweptEnqueuedView(s);
    CleanIsSwept(Admitted(s.m));
    assert t.m.enqueued == Admitted(t.m).claims;
  }

  lemma IdleCoupled(s: State)
    requires Coupled(s)
    ensures Coupled(Next(s, Idle))
  {
    hide Coupled, Inv, DevicesOk, Healthy, Drained, Ready, Maintain, SlotsAt, Clean, Swept;
    var t := Next(s, Idle);
    CoupledIs(s);
    CoupledIs(t);
    IdleKept(s);
    CoupledParts(s);
    MaintainedView(s.m, s.kinds);
    CleanIsSwept(Written(s.m));
    assert t.m.enqueued == Admitted(t.m).claims && t.m.applied == Written(t.m).claims;
  }

  lemma CollectedView(s: State, i: nat)
    requires Healthy(s.m.fwd)
    ensures var t := Next(s, CollectSlot(i));
            Written(t.m) == Written(s.m) && Admitted(t.m) == Admitted(s.m) && Healthy(t.m.fwd)
              && t == s.(m := s.m.(fwd := t.m.fwd)) && t.m.fwd.epoch == s.m.fwd.epoch
  {}

  lemma CollectCoupled(s: State, i: nat)
    requires Coupled(s)
    ensures Coupled(Next(s, CollectSlot(i)))
  {
    hide Coupled, Inv, Drained, Ready, Clean, SlotsAt, Healthy, Collect;
    CoupledIs(s);
    CoupledIs(Next(s, CollectSlot(i)));
    CollectKept(s, i);
    CollectedView(s, i);
  }

  // ---------------------------------------------------------------- runs

  lemma StepCoupled(s: State, step: Step)
    requires Coupled(s) && Enabled(s, step) && InOrder(s, step)
    ensures Coupled(Next(s, step))
  {
    hide Coupled, AdmitAction, WriteAction, Opening, Ending, Closing;
    match step
    case OpenSource(keyboard, clone, _) => OpenCoupled(s, keyboard, clone);
    case Admit(a) => AdmitCoupled(s, a);
    case AdmitEnd(target, _) => EndCoupled(s, target);
    case AdmitClose(target, _) => CloseCoupled(s, target);
    case ApplyNext => ApplyNextCoupled(s);
    case Query => QueryCoupled(s);
    case Idle => IdleCoupled(s);
    case CollectSlot(i) => CollectCoupled(s, i);
  }

  /** A run in which every step is taken in FIFO order. */
  predicate Orderly(s: State, steps: seq<Step>)
    decreases |steps|
  {
    steps == [] || (Enabled(s, steps[0]) && InOrder(s, steps[0]) && Orderly(Next(s, steps[0]), steps[1..]))
  }

  lemma {:induction false} RunCoupled(s: State, steps: seq<Step>)
    requires Coupled(s) && Orderly(s, steps)
    ensures Legal(s, steps) && Coupled(Run(s, steps))
    decreases |steps|
  {
    hide Coupled, Next, Enabled, InOrder;
    if steps != [] {
      StepCoupled(s, steps[0]);
      RunCoupled(Next(s, steps[0]), steps[1..]);
    }
  }

  lemma StartCoupled(d: Devices, vkTable: map<nat, nat>)
    requires forall v :: v in vkTable ==> vkTable[v] <= KEY_MAX
    ensures Coupled(Start(d, vkTable))
  {
    StartOk(d, vkTable);
    var s := Start(d, vkTable);
    hide Inv;
    assert Written(s.m) == Admitted(s.m);
    CleanIsSwept(Admitted(s.m));
  }

  /** In every state of every FIFO run, applying what is queued would bring the written
      view to the admitted one; so once the queue is empty the two views agree on every
      source's keys and, but for claims of ended grabs, on who holds what. */
  lemma ViewsAgreeWhenDrained(d: Devices, vkTable: map<nat, nat>, steps: seq<Step>)
    requires forall v :: v in vkTable ==> vkTable[v] <= KEY_MAX
    requires Orderly(Start(d, vkTable), steps)
    ensures Legal(Start(d, vkTable), steps)
    ensures var s := Run(Start(d, vkTable), steps);
            && Drained(s.m.vkTable, Written(s.m), s.queue) == Swept(Admitted(s.m))
            && (s.queue == [] ==> Written(s.m) == Swept(Admitted(s.m)))
  {
    StartCoupled(d, vkTable);
    RunCoupled(Start(d, vkTable), steps);
  }

  /** What the queries report of a key: synthesis's admitted holds, after the sweep a
      query makes, and the admitted output of every source a target still names. */
  predicate Reported(m: Machine, code: nat) {
    || Held(Sweep(m.fwd, m.enqueued, Enqueued), code)
    || exists i :: 0 <= i < |m.fwd.devices| && Reports(m.fwd, i, code)
  }

  predicate Reports(f: Forward, i: nat, code: nat)
    requires i < |f.devices|
  {
    var d := f.devices[i];
    d.keyboard && Find(f, d.targetE, Enqueued) == Some(i) && code in d.enqueued.output
  }

  lemma ReportsHeld(s: State, i: nat, code: nat)
    requires Coupled(s) && s.queue == [] && IsKeyboardKey(code) && i < |s.m.fwd.devices|
    ensures Reports(s.m.fwd, i, code) <==> s.m.fwd.devices[i].HoldsOnSink(code)
  {
    var f := s.m.fwd;
    var d := f.devices[i];
    assert DeviceOk(d, i, f.serial, s.kinds);
    assert SlotsAt(f, Applied)[i] == SlotsAt(f, Enqueued)[i];
    assert SlotAt(d, Applied) == SlotAt(d, Enqueued);
  }

  /** Once the queue drains, what the queries report of a keyboard key is what the sink
      holds, provided no source held a key when the sink was attached. */
  lemma QueriesMatchTheSink(d: Devices, vkTable: map<nat, nat>, steps: seq<Step>, code: nat)
    requires forall v :: v in vkTable ==> vkTable[v] <= KEY_MAX
    requires Orderly(Start(d, vkTable), steps) && IsKeyboardKey(code)
    ensures Legal(Start(d, vkTable), steps)
    ensures var s := Run(Start(d, vkTable), steps);
            s.queue == [] && s.m.fwd.orphans == {} ==>
              && (Reported(s.m, code) ==> code in s.m.fwd.sink.down)
              && (s.m.fwd.sink.Up() && code in s.m.fwd.sink.down ==> Reported(s.m, code))
  {
    StartCoupled(d, vkTable);
    RunCoupled(Start(d, vkTable), steps);
    var s := Run(Start(d, vkTable), steps);
    if s.queue == [] && s.m.fwd.orphans == {} {
      DrainedQueries(s, code);
    }
  }

  lemma DrainedQueries(s: State, code: nat)
    requires Coupled(s) && s.queue == [] && s.m.fwd.orphans == {} && IsKeyboardKey(code)
    ensures Reported(s.m, code) ==> code in s.m.fwd.sink.down
    ensures s.m.fwd.sink.Up() && code in s.m.fwd.sink.down ==> Reported(s.m, code)
  {
    var m := s.m;
    DrainedHolds(s, code);
    assert Sweep(m.fwd, m.enqueued, Enqueued) == m.applied by { DrainedClaims(s); }
    forall i | 0 <= i < |m.fwd.devices|
      ensures Reports(m.fwd, i, code) <==> m.fwd.devices[i].HoldsOnSink(code)
    {
      ReportsHeld(s, i, code);
    }
    hide Coupled, Reports, Sweep;
  }

  lemma DrainedHolds(s: State, code: nat)
    requires Coupled(s) && s.m.fwd.orphans == {} && IsKeyboardKey(code)
    ensures Held(s.m.applied, code) || HeldBySources(s.m.fwd.devices, code) ==> code in s.m.fwd.sink.down
    ensures s.m.fwd.sink.Up() && code in s.m.fwd.sink.down ==>
            Held(s.m.applied, code) || HeldBySources(s.m.fwd.devices, code)
  {
    assert MachineInv(s.m);
    hide Coupled;
  }

  lemma DrainedClaims(s: State)
    requires Coupled(s) && s.queue == []
    ensures Sweep(s.m.fwd, s.m.enqueued, Enqueued) == s.m.applied
  {
    CoupledParts(s);
    forall o
      ensures IsDead(s.m.fwd, o, Enqueued) <==> Gone(SlotsAt(s.m.fwd, Enqueued), o)
    {
      DeadIsGone(s.m, s.kinds, o, Enqueued);
    }
    hide IsDead, Gone, SlotsAt;
    assert Swept(Admitted(s.m)) == Written(s.m);
    assert Sweep(s.m.fwd, s.m.enqueued, Enqueued) == Swept(Admitted(s.m)).claims;
  }
}
