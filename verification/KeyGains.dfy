/** What can give a source a key: only a packet that reports it pressed adds to what the
    source holds, and only the replay of one adds to what is or may again be held for it
    downstream. Synthesis, releases, ends, closes and upkeep never do. */
module KeyGains {
  import opened Codes
  import opened Claims
  import opened Forwarding
  import opened Synthesis
  import opened Broker
  import opened Pointwise
  import opened SynthInvariant
  import opened BrokerInvariant

  /** What is held downstream for a source, or would be if it were restored. */
  predicate Backed(k: Keys, c: nat) { c in k.output || c in k.displaced }

  predicate NoGain(k: Keys, n: Keys) {
    n.output + n.displaced <= k.output + k.displaced && n.source <= k.source
  }

  /** No source gains a key in either view. */
  predicate Gainless(f: Forward, g: Forward) {
    && |g.devices| == |f.devices|
    && forall j :: 0 <= j < |f.devices| ==> NoGain(f.devices[j].applied, g.devices[j].applied)
                                            && NoGain(f.devices[j].enqueued, g.devices[j].enqueued)
  }

  lemma GainlessTrans(f: Forward, g: Forward, h: Forward)
    requires Gainless(f, g) && Gainless(g, h)
    ensures Gainless(f, h)
  {
    forall j | 0 <= j < |f.devices|
      ensures NoGain(f.devices[j].applied, h.devices[j].applied) && NoGain(f.devices[j].enqueued, h.devices[j].enqueued)
    {
      assert NoGain(f.devices[j].applied, g.devices[j].applied) && NoGain(g.devices[j].applied, h.devices[j].applied);
    }
  }

  lemma SameGainless(f: Forward, g: Forward)
    requires g.devices == f.devices
    ensures Gainless(f, g)
  {}

  lemma BecameGainless(f: Forward, g: Forward, view: View)
    requires |g.devices| == |f.devices|
    requires forall j :: 0 <= j < |f.devices| ==> Became(f.devices[j], g.devices[j], view, g.devices[j].At(view))
    requires forall j :: 0 <= j < |f.devices| ==> NoGain(f.devices[j].At(view), g.devices[j].At(view))
    ensures Gainless(f, g)
  {
    forall j | 0 <= j < |f.devices|
      ensures NoGain(f.devices[j].applied, g.devices[j].applied) && NoGain(f.devices[j].enqueued, g.devices[j].enqueued)
    {
      assert Became(f.devices[j], g.devices[j], view, g.devices[j].At(view));
      assert NoGain(f.devices[j].At(view), g.devices[j].At(view));
    }
  }

  lemma SlotGainless(f: Forward, g: Forward, i: nat)
    requires i < |f.devices| && OnlySlot(f, g, i)
    requires NoGain(f.devices[i].applied, g.devices[i].applied) && NoGain(f.devices[i].enqueued, g.devices[i].enqueued)
    ensures Gainless(f, g)
  {}

  // ---------------------------------------------------------------- synthesis

  lemma ShiftGainless(f: Forward, code: nat, view: View, restore: bool)
    ensures Gainless(f, ShiftKey(f, code, view, restore))
  {
    var g := ShiftKey(f, code, view, restore);
    hide ShiftKey;
    ShiftKeyAt(f, code, view, restore);
    forall j | 0 <= j < |f.devices|
      ensures Became(f.devices[j], g.devices[j], view, g.devices[j].At(view))
              && NoGain(f.devices[j].At(view), g.devices[j].At(view))
    {
      assert Became(f.devices[j], g.devices[j], view, ShiftedKeys(f.devices[j], code, view, restore));
      ShiftsNoGain(f.devices[j].At(view), code, restore);
    }
    BecameGainless(f, g, view);
  }

  lemma ShiftsNoGain(k: Keys, code: nat, restore: bool)
    ensures NoGain(k, ShiftKeys(k, code, restore))
  {
    assert NoGain(k, ShiftCode(k, code, restore));
  }

  lemma ApplyKeyGainless(f: Forward, t: Table, view: View, code: nat, down: bool, restore: bool, o: Owner)
    ensures Gainless(f, ApplyKey(f, t, view, code, down, restore, o).fwd)
  {
    hide ShiftKey, ShiftsAny, Gainless;
    ShiftGainless(f, code, view, down);
    SameGainless(f, f);
  }

  lemma {:induction false} NoteButtonsGainless(f: Forward, t: Table, ts: seq<Transition>, moved: bool, o: Owner)
    ensures Gainless(f, NoteButtons(f, t, ts, moved, o).fwd)
    decreases |ts|
  {
    hide ApplyKey, Gainless;
    SameGainless(f, f);
    if ts != [] {
      if ts[0].button.None? {
        NoteButtonsGainless(f, t, ts[1..], moved, o);
      } else {
        var k := ApplyKey(f, t, Enqueued, ts[0].button.value, ts[0].down, !moved, o);
        ApplyKeyGainless(f, t, Enqueued, ts[0].button.value, ts[0].down, !moved, o);
        NoteButtonsGainless(k.fwd, k.table, ts[1..], moved, o);
        GainlessTrans(f, k.fwd, NoteButtons(k.fwd, k.table, ts[1..], moved, o).fwd);
      }
    }
  }

  lemma NoteInputGainless(vk: map<nat, nat>, f: Forward, t: Table, i: Input, moved: bool, o: Owner)
    ensures Gainless(f, NoteInput(vk, f, t, i, moved, o).fwd)
  {
    hide ApplyKey, Gainless, NoteButtons, Transitions;
    SameGainless(f, f);
    if i.Mouse? {
      NoteButtonsGainless(f, t, Transitions(i), moved || MovesAbsolutely(i), o);
    } else if Resolve(vk, i).Some? {
      ApplyKeyGainless(f, t, Enqueued, CanonicalButton(Resolve(vk, i).value), Up !in i.keyFlags, true, o);
    }
  }

  lemma {:induction false} NoteInputsGainless(vk: map<nat, nat>, f: Forward, t: Table, inputs: seq<Input>, dead: bool,
                                              moved: bool, o: Owner)
    ensures Gainless(f, NoteInputs(vk, f, t, inputs, dead, moved, o).fwd)
    decreases |inputs|
  {
    hide NoteInput, Gainless, Played;
    SameGainless(f, f);
    if inputs != [] {
      match Played(inputs[0], dead)
      case None => NoteInputsGainless(vk, f, t, inputs[1..], dead, moved, o);
      case Some(i) =>
        var k := NoteInput(vk, f, t, i, moved, o);
        NoteInputGainless(vk, f, t, i, moved, o);
        NoteInputsGainless(vk, k.fwd, k.table, inputs[1..], dead, moved || MovesAbsolutely(i), o);
        GainlessTrans(f, k.fwd, NoteInputs(vk, f, t, inputs, dead, moved, o).fwd);
    }
  }

  lemma RouteButtonGainless(m: Machine, b: nat, down: bool, moved: bool, o: Owner)
    ensures Gainless(m.fwd, RouteButton(m, b, down, moved, o).m.fwd)
  {
    hide ApplyKey, Gainless, UpdateGeneric;
    var k := ApplyKey(m.fwd, m.applied, Applied, b, down, !moved, o);
    ApplyKeyGainless(m.fwd, m.applied, Applied, b, down, !moved, o);
    SameGainless(k.fwd, RouteButton(m, b, down, moved, o).m.fwd);
    GainlessTrans(m.fwd, k.fwd, RouteButton(m, b, down, moved, o).m.fwd);
  }

  lemma {:induction false} RouteButtonsGainless(m: Machine, ts: seq<Transition>, moved: bool, o: Owner)
    ensures Gainless(m.fwd, RouteButtons(m, ts, moved, o).m.fwd)
    decreases |ts|
  {
    hide RouteButton, Gainless;
    SameGainless(m.fwd, m.fwd);
    if ts != [] && ts[0].button.Some? {
      var s := RouteButton(m, ts[0].button.value, ts[0].down, moved, o);
      RouteButtonGainless(m, ts[0].button.value, ts[0].down, moved, o);
      RouteButtonsGainless(s.m, ts[1..], moved, o);
      GainlessTrans(m.fwd, s.m.fwd, RouteButtons(s.m, ts[1..], moved, o).m.fwd);
    }
  }

  lemma SendMouseGainless(m: Machine, i: Input, moved: bool, o: Owner)
    requires i.Mouse?
    ensures Gainless(m.fwd, SendMouse(m, i, moved, o).m.fwd)
  {
    hide Motion, VerticalWheel, SidewaysWheel, RouteButtons, Transitions, Gainless;
    var g := SendMouse(m, i, moved, o).m;
    var c := SidewaysWheel(VerticalWheel(Motion(m, i).m, i).m, i).m;
    if g.fwd.devices == m.fwd.devices {
      SameGainless(m.fwd, g.fwd);
    } else {
      RouteButtonsGainless(c, Transitions(i), moved || MovesAbsolutely(i), o);
      SameGainless(m.fwd, c.fwd);
      GainlessTrans(m.fwd, c.fwd, g.fwd);
    }
  }

  lemma SendKeyGainless(m: Machine, key: nat, down: bool, o: Owner)
    ensures Gainless(m.fwd, SendKeyCode(m, key, down, o).fwd)
  {
    hide ApplyKey, UpdateGeneric, Repress, Gainless;
    var code := CanonicalButton(key);
    var g := if down && !Holds(m.applied, o, code) then m.(fwd := Repress(m.fwd, code)) else m;
    var k := ApplyKey(g.fwd, g.applied, Applied, code, down, true, o);
    SameGainless(m.fwd, g.fwd);
    ApplyKeyGainless(g.fwd, g.applied, Applied, code, down, true, o);
    GainlessTrans(m.fwd, g.fwd, k.fwd);
    SameGainless(k.fwd, SendKeyCode(m, key, down, o).fwd);
    GainlessTrans(m.fwd, k.fwd, SendKeyCode(m, key, down, o).fwd);
  }

  lemma SendOneGainless(m: Machine, i: Input, moved: bool, o: Owner)
    ensures Gainless(m.fwd, SendOne(m, i, moved, o).fwd)
  {
    hide SendMouse, SendKeyCode, SendUnit, Gainless;
    if i.Mouse? {
      SendMouseGainless(m, i, moved, o);
    } else if Unicode !in i.keyFlags && Resolve(m.vkTable, i).Some? {
      SendKeyGainless(m, Resolve(m.vkTable, i).value, Up !in i.keyFlags, o);
    } else {
      SameGainless(m.fwd, SendOne(m, i, moved, o).fwd);
    }
  }

  lemma {:induction false} SendInputsGainless(m: Machine, inputs: seq<Input>, dead: bool, moved: bool, o: Owner)
    ensures Gainless(m.fwd, SendInputs(m, inputs, dead, moved, o).fwd)
    decreases |inputs|
  {
    hide SendOne, Gainless, Played;
    SameGainless(m.fwd, m.fwd);
    if inputs != [] {
      match Played(inputs[0], dead)
      case None => SendInputsGainless(m, inputs[1..], dead, moved, o);
      case Some(i) =>
        var n := SendOne(m, i, moved, o);
        SendOneGainless(m, i, moved, o);
        SendInputsGainless(n, inputs[1..], dead, moved || MovesAbsolutely(i), o);
        GainlessTrans(m.fwd, n.fwd, SendInputs(m, inputs, dead, moved, o).fwd);
    }
  }

  lemma SendBatchGainless(m: Machine, inputs: seq<Input>, continues: bool, o: Owner)
    ensures Gainless(m.fwd, SendBatch(m, inputs, continues, o).fwd)
  {
    hide SendInputs, Gainless, IsDead;
    SameGainless(m.fwd, m.fwd);
    if m.fwd.sink.attached {
      SendInputsGainless(if continues then m else m.(pendingHigh := 0), inputs, IsDead(m.fwd, o, Applied), false, o);
    }
  }

  // ---------------------------------------------------------------- releases, ends and closes

  lemma ReleaseAllGainless(f: Forward, kinds: map<nat, Kind>, view: View)
    requires DevicesOk(f, kinds)
    ensures Gainless(f, ReleaseAllFrom(f, 0, view))
  {
    KeysFit(f, kinds);
    ReleaseAllAt(f, 0, view);
    hide ReleaseAllFrom, DevicesOk;
    var g := ReleaseAllFrom(f, 0, view);
    forall j | 0 <= j < |f.devices|
      ensures Became(f.devices[j], g.devices[j], view, g.devices[j].At(view))
              && NoGain(f.devices[j].At(view), g.devices[j].At(view))
    {
      assert Became(f.devices[j], g.devices[j], view, Emptied(f.devices[j], view));
    }
    BecameGainless(f, g, view);
  }

  lemma EndGrabGainless(f: Forward, kinds: map<nat, Kind>, i: nat, view: View, keep: set<nat>, next: nat)
    requires DevicesOk(f, kinds) && i < |f.devices|
    ensures Gainless(f, EndGrabAt(f, i, view, keep, next))
  {
    KeysFit(f, kinds);
    EndGrabAtAt(f, i, view, keep, next);
    hide EndGrabAt, DevicesOk;
    SlotGainless(f, EndGrabAt(f, i, view, keep, next), i);
  }

  lemma ApplyEndGainless(f: Forward, kinds: map<nat, Kind>, next: nat, held: Option<set<nat>>)
    requires DevicesOk(f, kinds)
    ensures Gainless(f, ApplyEndGrab(f, next, held))
  {
    hide EndGrabAt, DevicesOk, Gainless;
    SameGainless(f, f);
    var slot := SlotOf(f, next);
    if slot.Some? {
      var keep := if held.Some? then held.value else f.devices[slot.value].applied.source;
      EndGrabGainless(f, kinds, slot.value, Applied, keep, next);
    }
  }

  lemma EndGainless(f: Forward, kinds: map<nat, Kind>, target: nat)
    requires DevicesOk(f, kinds)
    ensures Gainless(f, EndGrab(f, target))
  {
    hide EndGrabAt, DevicesOk, Gainless;
    SameGainless(f, f);
    var found := Find(f, target, Enqueued);
    if found.Some? {
      var i := found.value;
      var g := EndGrabAt(f, i, Enqueued, f.devices[i].enqueued.source, MakeTarget(f.serial, i));
      EndGrabGainless(f, kinds, i, Enqueued, f.devices[i].enqueued.source, MakeTarget(f.serial, i));
      SameGainless(g, EndGrab(f, target));
      GainlessTrans(f, g, EndGrab(f, target));
    }
  }

  lemma ApplyCloseGainless(f: Forward, kinds: map<nat, Kind>, target: nat)
    requires DevicesOk(f, kinds)
    ensures Gainless(f, ApplyClose(f, target))
  {
    var slot := SlotOf(f, target);
    if slot.Some? {
      KeysFit(f, kinds);
      ReleaseOutputsAt(f, slot.value, Applied, {});
      hide ReleaseOutputs, DevicesOk;
      SlotGainless(f, ApplyClose(f, target), slot.value);
    }
  }

  lemma CloseGainless(f: Forward, target: nat)
    ensures Gainless(f, Close(f, target))
  {}

  // ---------------------------------------------------------------- packets

  predicate Aims(target: nat, i: nat) { target % 256 == i + 1 }

  predicate Presses(p: Packet, i: nat, c: nat) { Aims(p.target, i) && KeyOf(p) == Some(KeyEvent(c, 1)) }

  /** The action brings the source in slot i a press of c. */
  predicate Raises(a: Action, i: nat, c: nat, source: bool) {
    if source then a.SourceState? && Presses(a.p, i, c) else a.Replay? && Presses(a.p, i, c)
  }

  /** A slot's keys gain c only if it was raised, in the one set the action is about. */
  predicate Gains(d: Device, e: Device, view: View, a: Action, i: nat, c: nat) {
    && (c in e.At(view).source ==> c in d.At(view).source || Raises(a, i, c, true))
    && (Backed(e.At(view), c) ==> Backed(d.At(view), c) || Raises(a, i, c, false))
  }

  lemma GainlessGains(f: Forward, g: Forward, view: View, a: Action, i: nat, c: nat)
    requires Gainless(f, g) && i < |f.devices|
    ensures |g.devices| == |f.devices| && Gains(f.devices[i], g.devices[i], view, a, i, c)
  {
    assert NoGain(f.devices[i].At(view), g.devices[i].At(view));
    var k, n := f.devices[i].At(view), g.devices[i].At(view);
    assert c in n.output + n.displaced ==> c in k.output + k.displaced;
  }

  lemma NoteGains(f: Forward, p: Packet, view: View, source: bool, i: nat, at: View, c: nat)
    requires PacketOk(p) && i < |f.devices|
    ensures var a := if source then SourceState(p) else Replay(p);
            |NoteKeys(f, p, view, source).devices| == |f.devices|
            && Gains(f.devices[i], NoteKeys(f, p, view, source).devices[i], at, a, i, c)
  {
    NoteKeysAt(f, p, view, source);
    hide NoteKeys;
  }

  lemma CloneGains(f: Forward, j: nat, p: Packet, c: nat)
    requires j < |f.devices| && PacketOk(p)
    ensures var n := WriteToClone(f, j, p).devices[j].applied.output;
            c in n ==> c in f.devices[j].applied.output || KeyOf(p) == Some(KeyEvent(c, 1))
  {
    if p.events != [] {
      NoteWrittenLast(f.devices[j].applied.output, p.events, true);
      NoteWrittenLast(f.devices[j].applied.output, p.events, false);
    }
  }

  lemma CloneKeepsRest(f: Forward, j: nat, p: Packet)
    requires j < |f.devices|
    ensures var d, e := f.devices[j], WriteToClone(f, j, p).devices[j];
            e.applied.source == d.applied.source && e.applied.displaced == d.applied.displaced
  {}

  lemma WriteGains(f: Forward, p: Packet, i: nat, at: View, c: nat)
    requires PacketOk(p) && i < |f.devices|
    ensures |Write(f, p).devices| == |f.devices| && Gains(f.devices[i], Write(f, p).devices[i], at, Replay(p), i, c)
  {
    var found := Find(f, p.target, Applied);
    if found.Some? {
      var j := found.value;
      WriteToSinkAt(f, j, p);
      WriteToCloneAt(f, j, p);
      CloneGains(f, j, p, c);
      CloneKeepsRest(f, j, p);
    }
    hide WriteToSink, WriteToClone, Reconcile;
  }

  // ---------------------------------------------------------------- steps

  lemma AdmitGains(s: State, a: Action, i: nat, view: View, c: nat)
    requires DevicesOk(s.m.fwd, s.kinds) && ActionAllowed(s, a) && i < SLOTS
    ensures var g := AdmitAction(s.m, a).fwd;
            |g.devices| == SLOTS && Gains(s.m.fwd.devices[i], g.devices[i], view, a, i, c)
  {
    var m, f := s.m, s.m.fwd;
    assert |f.devices| == SLOTS;
    hide DevicesOk, NoteKeys, NoteInputs, ReleaseAllFrom, ReleaseByPacket, Gainless, IsDead;
    match a
    case SourceState(p) => NoteGains(f, p, Enqueued, true, i, view, c);
    case Replay(p) => NoteGains(f, p, Enqueued, false, i, view, c);
    case Synth(inputs, _, o) =>
      var w := SweepEnqueued(m);
      NoteInputsGainless(w.vkTable, w.fwd, w.enqueued, inputs, IsDead(w.fwd, o, Enqueued), false, o);
      GainlessGains(f, AdmitAction(m, a).fwd, view, a, i, c);
    case ReleaseAll =>
      ReleaseAllGainless(f, s.kinds, Enqueued);
      GainlessGains(f, ReleaseAllFrom(f, 0, Enqueued), view, a, i, c);
    case _ =>
  }

  lemma WriteActionGainless(s: State, a: Action)
    requires DevicesOk(s.m.fwd, s.kinds) && !a.SourceState? && !a.Replay?
    ensures Gainless(s.m.fwd, WriteAction(s.m, a).fwd)
  {
    hide DevicesOk, SetApplied, SendBatch, ReleaseGeneric, Recreate, ReleaseAllFrom, ApplyClose, ApplyEndGrab, Gainless;
    var m, f := s.m, s.m.fwd;
    match a
    case Synth(inputs, continues, o) => SendBatchGainless(m, inputs, continues, o);
    case ReleaseAll =>
      var g := ReleaseGeneric(m);
      SameGainless(f, g.fwd);
      SameDevicesOk(f, g.fwd, s.kinds);
      ReleaseAllGainless(g.fwd, s.kinds, Applied);
      GainlessTrans(f, g.fwd, WriteAction(m, a).fwd);
    case EndOf(next) => ApplyEndGainless(f, s.kinds, next, None);
    case CloseOf(target) => ApplyCloseGainless(f, s.kinds, target);
    case RecreateSynth(devices) => RecreateFrame(m, devices); SameGainless(f, WriteAction(m, a).fwd);
    case _ => SameGainless(f, WriteAction(m, a).fwd);
  }

  lemma WriteActionGains(s: State, a: Action, i: nat, view: View, c: nat)
    requires DevicesOk(s.m.fwd, s.kinds) && PendingOk(s, a) && i < SLOTS
    ensures var g := WriteAction(s.m, a).fwd;
            |g.devices| == SLOTS && Gains(s.m.fwd.devices[i], g.devices[i], view, a, i, c)
  {
    var f := s.m.fwd;
    assert |f.devices| == SLOTS;
    match a
    case SourceState(p) => NoteGains(f, p, Applied, true, i, view, c);
    case Replay(p) =>
      WriteGains(f, p, i, view, c);
      hide Write, SetApplied;
    case _ =>
      WriteActionGainless(s, a);
      hide WriteAction;
      GainlessGains(f, WriteAction(s.m, a).fwd, view, a, i, c);
  }

  lemma OpenGainless(s: State, keyboard: bool, clone: bool, budget: Budget)
    requires DevicesOk(s.m.fwd, s.kinds)
    ensures Gainless(s.m.fwd, Opening(s, keyboard, clone, budget).m.fwd)
  {}

  lemma EndStepGainless(s: State, target: nat, queued: bool)
    requires DevicesOk(s.m.fwd, s.kinds) && Find(s.m.fwd, target, Enqueued).Some?
    ensures Gainless(s.m.fwd, Ending(s, target, queued).m.fwd)
  {
    hide EndGrab, ApplyEndGrab, DevicesOk, Gainless;
    var f := s.m.fwd;
    var q, i := Ending(s, target, true), Find(f, target, Enqueued).value;
    EndGainless(f, s.kinds, target);
    if !queued {
      EndGrabDevices(s, target);
      ApplyEndGainless(q.m.fwd, q.kinds, MakeTarget(f.serial, i), Some(f.devices[i].enqueued.source));
      GainlessTrans(f, q.m.fwd, Ending(s, target, queued).m.fwd);
    }
  }

  lemma CloseStepGainless(s: State, target: nat, queued: bool)
    requires Inv(s) && Find(s.m.fwd, target, Enqueued).Some?
    ensures Gainless(s.m.fwd, Closing(s, target, queued).m.fwd)
  {
    hide Close, ApplyClose, Gainless, MachineInv, DevicesOk;
    var f := s.m.fwd;
    CloseGainless(f, target);
    CloseKept(s, target);
    if !queued {
      ApplyCloseGainless(Close(f, target), s.kinds, target);
      GainlessTrans(f, Close(f, target), ApplyClose(Close(f, target), target));
    }
  }

  /** Steps that bring no packet. */
  lemma PlainGainless(s: State, step: Step)
    requires Inv(s) && Enabled(s, step) && !step.Admit? && !step.ApplyNext?
    ensures Gainless(s.m.fwd, Next(s, step).m.fwd)
  {
    assert DevicesOk(s.m.fwd, s.kinds);
    hide Inv, DevicesOk, Opening, Ending, Closing, Maintain, SweepEnqueued, Collect, Gainless;
    match step
    case OpenSource(keyboard, clone, budget) => OpenGainless(s, keyboard, clone, budget);
    case AdmitEnd(target, queued) => EndStepGainless(s, target, queued);
    case AdmitClose(target, queued) => CloseStepGainless(s, target, queued);
    case Query => SweepFrame(s.m); SameGainless(s.m.fwd, Next(s, step).m.fwd);
    case Idle => MaintainFrame(s.m); SameGainless(s.m.fwd, Next(s, step).m.fwd);
    case CollectSlot(i) => CollectGainless(s.m.fwd, i);
  }

  lemma SweepFrame(m: Machine)
    ensures SweepEnqueued(m).fwd == m.fwd
  {}

  lemma CollectGainless(f: Forward, i: nat)
    ensures Gainless(f, Collect(f, i))
  {}

  /** The action a step brings to a view. */
  function Brought(s: State, step: Step, view: View): Option<Action>
    requires Enabled(s, step)
  {
    if step.Admit? && view.Enqueued? then Some(step.a)
    else if step.ApplyNext? && view.Applied? then Some(s.queue[0]) else None
  }

  predicate StepRaises(s: State, step: Step, view: View, i: nat, c: nat, source: bool)
    requires Enabled(s, step)
  {
    Brought(s, step, view).Some? && Raises(Brought(s, step, view).value, i, c, source)
  }

  lemma AdmitKeepsApplied(s: State, a: Action, i: nat, c: nat)
    requires DevicesOk(s.m.fwd, s.kinds) && ActionAllowed(s, a) && i < SLOTS
    ensures var d, g := s.m.fwd.devices[i], AdmitAction(s.m, a).fwd;
            |g.devices| == SLOTS && NoGain(d.applied, g.devices[i].applied)
  {
    var f, g := s.m.fwd, AdmitAction(s.m, a).fwd;
    assert |f.devices| == SLOTS;
    if a.SourceState? || a.Replay? {
      NoteKeysAt(f, a.p, Enqueued, a.SourceState?);
      hide NoteKeys, DevicesOk;
    } else {
      AdmitPlain(s, a);
      hide AdmitAction, DevicesOk;
      assert NoGain(f.devices[i].applied, g.devices[i].applied);
    }
  }

  lemma AdmitPlain(s: State, a: Action)
    requires DevicesOk(s.m.fwd, s.kinds) && !a.SourceState? && !a.Replay?
    ensures Gainless(s.m.fwd, AdmitAction(s.m, a).fwd)
  {
    hide DevicesOk, NoteInputs, ReleaseAllFrom, Gainless, IsDead;
    SameGainless(s.m.fwd, s.m.fwd);
    if a.Synth? {
      var w := SweepEnqueued(s.m);
      NoteInputsGainless(w.vkTable, w.fwd, w.enqueued, a.inputs, IsDead(w.fwd, a.owner, Enqueued), false, a.owner);
    } else if a.ReleaseAll? {
      ReleaseAllGainless(s.m.fwd, s.kinds, Enqueued);
    }
  }

  lemma WriteKeepsEnqueued(s: State, a: Action, i: nat)
    requires DevicesOk(s.m.fwd, s.kinds) && PendingOk(s, a) && i < SLOTS
    ensures var d, g := s.m.fwd.devices[i], WriteAction(s.m, a).fwd;
            |g.devices| == SLOTS && NoGain(d.enqueued, g.devices[i].enqueued)
  {
    var f, g := s.m.fwd, WriteAction(s.m, a).fwd;
    assert |f.devices| == SLOTS;
    if a.SourceState? || a.Replay? {
      NoteKeysAt(f, a.p, Applied, true);
      WriteAt(f, a.p);
      hide NoteKeys, Write, SetApplied, DevicesOk;
    } else {
      WriteActionGainless(s, a);
      hide WriteAction, DevicesOk;
      assert NoGain(f.devices[i].enqueued, g.devices[i].enqueued);
    }
  }

  /** In every step a source gains a key in a view only if the step brings it a press there. */
  lemma StepGains(s: State, step: Step, i: nat, view: View, c: nat)
    requires Inv(s) && Enabled(s, step) && i < SLOTS
    ensures |s.m.fwd.devices| == SLOTS && |Next(s, step).m.fwd.devices| == SLOTS
    ensures var k, n := s.m.fwd.devices[i].At(view), Next(s, step).m.fwd.devices[i].At(view);
            && (c in n.source ==> c in k.source || StepRaises(s, step, view, i, c, true))
            && (Backed(n, c) ==> Backed(k, c) || StepRaises(s, step, view, i, c, false))
  {
    assert DevicesOk(s.m.fwd, s.kinds) && |s.m.fwd.devices| == SLOTS;
    if step.Admit? {
      hide Inv, AdmitAction, DevicesOk;
      AdmitGains(s, step.a, i, view, c);
      AdmitKeepsApplied(s, step.a, i, c);
    } else if step.ApplyNext? {
      var a := s.queue[0];
      assert PendingOk(s, a);
      hide Inv, WriteAction, DevicesOk, PendingOk, Maintain;
      MaintainFrame(WriteAction(s.m, a));
      WriteActionGains(s, a, i, view, c);
      WriteKeepsEnqueued(s, a, i);
    } else {
      hide Inv, DevicesOk;
      PlainGainless(s, step);
      hide Next;
      GainlessGains(s.m.fwd, Next(s, step).m.fwd, view, ReleaseAll, i, c);
    }
  }

  // ---------------------------------------------------------------- runs

  /** Nothing queued for the view, and nothing the run admits, brings the source a press of c. */
  predicate Unpressed(queue: seq<Action>, steps: seq<Step>, i: nat, c: nat, view: View, source: bool) {
    && (forall k :: 0 <= k < |steps| && steps[k].Admit? ==> !Raises(steps[k].a, i, c, source))
    && (view.Applied? ==> forall k :: 0 <= k < |queue| ==> !Raises(queue[k], i, c, source))
  }

  lemma UnpressedNext(s: State, steps: seq<Step>, i: nat, c: nat, view: View, source: bool)
    requires steps != [] && Enabled(s, steps[0]) && Unpressed(s.queue, steps, i, c, view, source)
    ensures !StepRaises(s, steps[0], view, i, c, source)
    ensures Unpressed(Next(s, steps[0]).queue, steps[1..], i, c, view, source)
  {
    hide AdmitAction, WriteAction, Maintain, Presses, EndGrab, ApplyEndGrab, Close, ApplyClose, Open, SweepEnqueued,
         Collect, MakeTarget;
    assert steps[0].Admit? ==> !Raises(steps[0].a, i, c, source);
    assert forall k :: 0 <= k < |steps[1..]| ==> steps[1..][k] == steps[k + 1];
  }

  /** A key the source has let go of, and is not reported to press, it does not hold. */
  lemma {:induction false} SourceStays(s: State, steps: seq<Step>, i: nat, c: nat, view: View)
    requires Inv(s) && Legal(s, steps) && i < SLOTS && Unpressed(s.queue, steps, i, c, view, true)
    ensures |s.m.fwd.devices| == SLOTS && |Run(s, steps).m.fwd.devices| == SLOTS
    ensures c in Run(s, steps).m.fwd.devices[i].At(view).source ==> c in s.m.fwd.devices[i].At(view).source
    decreases |steps|
  {
    assert |s.m.fwd.devices| == SLOTS;
    if steps != [] {
      StepKept(s, steps[0]);
      StepGains(s, steps[0], i, view, c);
      UnpressedNext(s, steps, i, c, view, true);
      hide Inv, Next, Enabled, Unpressed, StepRaises;
      SourceStays(Next(s, steps[0]), steps[1..], i, c, view);
    }
  }

  /** A key not held downstream, and not to be restored, stays so until its press is replayed. */
  lemma {:induction false} BackingStays(s: State, steps: seq<Step>, i: nat, c: nat, view: View)
    requires Inv(s) && Legal(s, steps) && i < SLOTS && Unpressed(s.queue, steps, i, c, view, false)
    ensures |s.m.fwd.devices| == SLOTS && |Run(s, steps).m.fwd.devices| == SLOTS
    ensures Backed(Run(s, steps).m.fwd.devices[i].At(view), c) ==> Backed(s.m.fwd.devices[i].At(view), c)
    decreases |steps|
  {
    assert |s.m.fwd.devices| == SLOTS;
    if steps != [] {
      StepKept(s, steps[0]);
      StepGains(s, steps[0], i, view, c);
      UnpressedNext(s, steps, i, c, view, false);
      hide Inv, Next, Enabled, Unpressed, StepRaises, Backed;
      BackingStays(Next(s, steps[0]), steps[1..], i, c, view);
    }
  }
}
