/** Targets name grabs, and a target whose grab ended names nothing ever again. */
module Targets {
  import opened Codes
  import opened Claims
  import opened Forwarding
  import opened Synthesis
  import opened Broker
  import opened Pointwise
  import opened SynthInvariant
  import opened BrokerInvariant

  /** The target's grab is over in a view: its slot is free, going, or names a later grab. */
  predicate Dead(s: State, target: nat, view: View) {
    && target in s.kinds
    && match SlotOf(s.m.fwd, target)
       case None => true
       case Some(i) =>
         var d := s.m.fwd.devices[i];
         !d.Live() || (view.Enqueued? && d.closing) || target < d.Target(view)
  }

  lemma SucceedsTrans(s: State, t: State, u: State)
    requires SlotsSucceed(s, t) && SlotsSucceed(t, u) && s.m.fwd.serial <= t.m.fwd.serial
    requires DevicesOk(t.m.fwd, t.kinds)
    ensures SlotsSucceed(s, u)
  {
    forall j | 0 <= j < |s.m.fwd.devices|
      ensures Succeeds(s.m.fwd.devices[j], u.m.fwd.devices[j], s.m.fwd.serial)
    {
      var d, e, x := s.m.fwd.devices[j], t.m.fwd.devices[j], u.m.fwd.devices[j];
      assert Succeeds(d, e, s.m.fwd.serial) && Succeeds(e, x, t.m.fwd.serial);
      if x.Live() && e.Live() && x.targetA / 256 < s.m.fwd.serial {
        assert e.targetA <= x.targetA;
      }
    }
  }

  lemma ApplyNextSucceeds(s: State)
    requires Inv(s) && s.queue != []
    ensures SlotsSucceed(s, Next(s, ApplyNext))
  {
    var t, a := Next(s, ApplyNext), s.queue[0];
    assert PendingOk(s, a);
    hide MachineInv, PendingOk, SlotsSucceed, WriteAction, SameMeta;
    WriteMachine(s, a);
    MaintainFrame(WriteAction(s.m, a));
    WriteSucceeds(s, t, a);
  }

  lemma EndNowSucceeds(s: State, target: nat)
    requires Inv(s) && Find(s.m.fwd, target, Enqueued).Some?
    ensures SlotsSucceed(s, Ending(s, target, false))
  {
    hide MachineInv, EndGrab, ApplyEndGrab, SlotsSucceed, MakeTarget, DevicesOk;
    var f := s.m.fwd;
    var i := Find(f, target, Enqueued).value;
    var q, t := Ending(s, target, true), Ending(s, target, false);
    EndGrabDevices(s, target);
    EndGrabDeviceOk(s, target);
    KeysFit(q.m.fwd, q.kinds);
    hide Inv, DeviceOk;
    ApplyEndGrabMeta(q.m.fwd, MakeTarget(f.serial, i), Some(f.devices[i].enqueued.source));
    MetaSucceeds(q, t);
    SucceedsTrans(s, q, t);
  }

  lemma CloseSucceeds(s: State, target: nat)
    requires DevicesOk(s.m.fwd, s.kinds)
    ensures SlotsSucceed(s, Closing(s, target, true))
  {}

  lemma CloseNowSucceeds(s: State, target: nat)
    requires Inv(s) && Find(s.m.fwd, target, Enqueued).Some?
    ensures SlotsSucceed(s, Closing(s, target, false))
  {
    var q, t := Closing(s, target, true), Closing(s, target, false);
    CloseSucceeds(s, target);
    CloseKept(s, target);
    assert q.m.fwd.serial == s.m.fwd.serial;
    hide ApplyClose, Close, SlotsSucceed, MachineInv, DevicesOk;
    KeysFit(q.m.fwd, q.kinds);
    hide Inv;
    ApplyCloseMeta(q.m.fwd, target);
    MetaSucceeds(q, t);
    SucceedsTrans(s, q, t);
  }

  lemma OpenSucceeds(s: State, keyboard: bool, clone: bool, budget: Budget)
    requires DevicesOk(s.m.fwd, s.kinds)
    ensures SlotsSucceed(s, Opening(s, keyboard, clone, budget))
  {
    var f, t := s.m.fwd, Opening(s, keyboard, clone, budget);
    var i := FirstFree(f.devices, 0);
    if i < |f.devices| {
      TargetParts(f.serial, i);
      assert MakeTarget(f.serial, i) !in s.kinds;
    }
  }

  /** In every step a slot keeps its source and its targets only grow, or it takes a
      target never issued before. */
  lemma StepSucceeds(s: State, step: Step)
    requires Inv(s) && Enabled(s, step)
    ensures SlotsSucceed(s, Next(s, step))
  {
    assert DevicesOk(s.m.fwd, s.kinds);
    hide Inv, DevicesOk, SlotsSucceed, AdmitAction, WriteAction, Opening, Ending, Closing, Maintain;
    match step
    case OpenSource(keyboard, clone, budget) => OpenSucceeds(s, keyboard, clone, budget);
    case Admit(a) => AdmitSucceeds(s, a);
    case AdmitEnd(target, queued) => if queued { EndGrabDevices(s, target); } else { EndNowSucceeds(s, target); }
    case AdmitClose(target, queued) => if queued { CloseSucceeds(s, target); } else { CloseNowSucceeds(s, target); }
    case ApplyNext => ApplyNextSucceeds(s);
    case Query => SameMetaSucceeds(s, Next(s, step));
    case Idle => MaintainFrame(s.m); SameMetaSucceeds(s, Next(s, step));
    case CollectSlot(i) => CollectSucceeds(s, i);
  }

  lemma AdmitSucceeds(s: State, a: Action)
    requires Inv(s) && ActionAllowed(s, a)
    ensures SlotsSucceed(s, Next(s, Admit(a)))
  {
    AdmitForward(s, a);
    hide Inv, AdmitAction, SlotsSucceed;
    SameMetaSucceeds(s, Next(s, Admit(a)));
  }

  lemma CollectSucceeds(s: State, i: nat)
    ensures SlotsSucceed(s, Next(s, CollectSlot(i)))
  {}

  // ---------------------------------------------------------------- issuing

  /** The target a step issues. */
  function Issued(s: State, step: Step): Option<nat>
    requires Enabled(s, step)
  {
    match step
    case OpenSource(_, _, _) =>
      var i := FirstFree(s.m.fwd.devices, 0);
      if i == |s.m.fwd.devices| then None else Some(MakeTarget(s.m.fwd.serial, i))
    case AdmitEnd(target, _) => Some(MakeTarget(s.m.fwd.serial, Find(s.m.fwd, target, Enqueued).value))
    case _ => None
  }

  /** A step that issues a target issues one that no earlier step did, and no step
      forgets or changes what was issued. */
  lemma IssuesAfresh(s: State, step: Step)
    requires Inv(s) && Enabled(s, step)
    ensures Issued(s, step).Some? ==> Issued(s, step).value !in s.kinds && Issued(s, step).value in Next(s, step).kinds
    ensures forall x :: x in s.kinds ==> x in Next(s, step).kinds && Next(s, step).kinds[x] == s.kinds[x]
  {
    StepSucceeds(s, step);
    if step.OpenSource? && FirstFree(s.m.fwd.devices, 0) < |s.m.fwd.devices| {
      TargetParts(s.m.fwd.serial, FirstFree(s.m.fwd.devices, 0));
    } else if step.AdmitEnd? {
      TargetParts(s.m.fwd.serial, Find(s.m.fwd, step.target, Enqueued).value);
    }
    hide AdmitAction, WriteAction, Maintain, EndGrab, ApplyEndGrab, Closing;
  }

  // ---------------------------------------------------------------- death

  lemma DeadPersists(s: State, t: State, target: nat, view: View)
    requires DevicesOk(s.m.fwd, s.kinds) && DevicesOk(t.m.fwd, t.kinds) && SlotsSucceed(s, t) && Dead(s, target, view)
    ensures Dead(t, target, view)
  {
    var slot := SlotOf(s.m.fwd, target);
    if slot.Some? {
      var i := slot.value;
      assert Succeeds(s.m.fwd.devices[i], t.m.fwd.devices[i], s.m.fwd.serial);
      assert DeviceOk(t.m.fwd.devices[i], i, t.m.fwd.serial, t.kinds);
    }
  }

  /** A packet of a dead target changes no key set and writes nothing. */
  lemma DeadPacketsDoNothing(s: State, p: Packet, source: bool)
    requires DevicesOk(s.m.fwd, s.kinds) && p.target != 0
    ensures Dead(s, p.target, Applied) ==>
            Write(s.m.fwd, p) == s.m.fwd && NoteKeys(s.m.fwd, p, Applied, source) == s.m.fwd
    ensures Dead(s, p.target, Enqueued) ==> NoteKeys(s.m.fwd, p, Enqueued, source) == s.m.fwd
  {
    var slot := SlotOf(s.m.fwd, p.target);
    if slot.Some? {
      assert DeviceOk(s.m.fwd.devices[slot.value], slot.value, s.m.fwd.serial, s.kinds);
    }
  }

  lemma {:induction false} DeadForever(s: State, steps: seq<Step>, target: nat, view: View)
    requires Inv(s) && Legal(s, steps) && Dead(s, target, view)
    ensures Inv(Run(s, steps)) && Dead(Run(s, steps), target, view)
    decreases |steps|
  {
    if steps != [] {
      var t := Next(s, steps[0]);
      StepKept(s, steps[0]);
      StepSucceeds(s, steps[0]);
      assert DevicesOk(s.m.fwd, s.kinds) && DevicesOk(t.m.fwd, t.kinds);
      hide Inv, Next, Enabled, Dead, DevicesOk, SlotsSucceed;
      DeadPersists(s, t, target, view);
      DeadForever(t, steps[1..], target, view);
    }
  }

  lemma EndAims(s: State, target: nat)
    requires DevicesOk(s.m.fwd, s.kinds) && Find(s.m.fwd, target, Enqueued).Some?
    ensures var f, t, i := s.m.fwd, Ending(s, target, true), Find(s.m.fwd, target, Enqueued).value;
            && |t.m.fwd.devices| == |f.devices| && t.m.fwd.devices[i].targetE == MakeTarget(f.serial, i)
            && target in s.kinds && target < MakeTarget(f.serial, i)
  {
    var f := s.m.fwd;
    var i := Find(f, target, Enqueued).value;
    assert DeviceOk(f.devices[i], i, f.serial, s.kinds);
    TargetParts(f.serial, i);
    EndGrabSlot(s, target);
    hide DevicesOk, EndGrab, MakeTarget;
  }

  lemma EndKills(s: State, target: nat, queued: bool)
    requires Inv(s) && Find(s.m.fwd, target, Enqueued).Some?
    ensures Dead(Ending(s, target, queued), target, Enqueued)
  {
    hide MachineInv, DevicesOk, EndGrab, ApplyEndGrab, MakeTarget, SlotsSucceed;
    var f := s.m.fwd;
    var i := Find(f, target, Enqueued).value;
    EndAims(s, target);
    var q, t := Ending(s, target, true), Ending(s, target, queued);
    if !queued {
      EndGrabDevices(s, target);
      KeysFit(q.m.fwd, q.kinds);
      ApplyEndGrabMeta(q.m.fwd, MakeTarget(f.serial, i), Some(f.devices[i].enqueued.source));
      hide Inv;
      assert Meta(t.m.fwd.devices[i]) == Meta(q.m.fwd.devices[i].(targetA := t.m.fwd.devices[i].targetA));
      assert Meta(t.m.fwd.devices[i]).targetE == Meta(q.m.fwd.devices[i]).targetE;
    }
  }

  lemma CloseKills(s: State, target: nat, queued: bool)
    requires Inv(s) && Find(s.m.fwd, target, Enqueued).Some?
    ensures Dead(Closing(s, target, queued), target, Enqueued)
  {
    var i := Find(s.m.fwd, target, Enqueued).value;
    assert DeviceOk(s.m.fwd.devices[i], i, s.m.fwd.serial, s.kinds);
  }

  /** Written output that passes the end of a grab leaves the grab's old target dead. */
  lemma ApplyEndKills(s: State, next: nat, held: Option<set<nat>>, target: nat)
    requires Inv(s) && Find(s.m.fwd, target, Applied) == SlotOf(s.m.fwd, next) && SlotOf(s.m.fwd, next).Some?
    requires target != 0 && target < next
    ensures Dead(s.(m := s.m.(fwd := ApplyEndGrab(s.m.fwd, next, held))), target, Applied)
  {
    var f := s.m.fwd;
    var i := SlotOf(f, next).value;
    assert DeviceOk(f.devices[i], i, f.serial, s.kinds);
    KeysFit(f, s.kinds);
    hide Inv, DevicesOk, EndGrabAt;
    AimedAt(f, i, if held.Some? then held.value else f.devices[i].applied.source, next);
    hide DeviceOk;
  }

  lemma AimedAt(f: Forward, i: nat, keep: set<nat>, next: nat)
    requires i < |f.devices| && KeysOk(f.devices[i].applied)
    ensures var g := EndGrabAt(f, i, Applied, keep, next);
            |g.devices| == |f.devices| && g.devices[i].targetA == next && g.devices[i].Live() == f.devices[i].Live()
  {
    EndGrabAtAt(f, i, Applied, keep, next);
    hide EndGrabAt;
  }

  lemma ApplyCloseKills(s: State, target: nat)
    requires Inv(s) && SlotOf(s.m.fwd, target).Some? && s.m.fwd.devices[SlotOf(s.m.fwd, target).value].closing
             && target in s.kinds
    ensures Dead(s.(m := s.m.(fwd := ApplyClose(s.m.fwd, target))), target, Applied)
  {
    hide ReleaseOutputs;
  }

  /** From a reachable state in which a target is dead in a view, however the run goes on,
      no packet of that target changes a key set in that view or writes anything, even
      once its slot is reused. */
  lemma StaleTargetsStayDead(d: Devices, vkTable: map<nat, nat>, before: seq<Step>, after: seq<Step>, p: Packet,
                             source: bool)
    requires forall v :: v in vkTable ==> vkTable[v] <= KEY_MAX
    requires Legal(Start(d, vkTable), before) && Legal(Run(Start(d, vkTable), before), after) && p.target != 0
    ensures var s := Run(Start(d, vkTable), before);
            var f := Run(s, after).m.fwd;
            && (Dead(s, p.target, Applied) ==> Write(f, p) == f && NoteKeys(f, p, Applied, source) == f)
            && (Dead(s, p.target, Enqueued) ==> NoteKeys(f, p, Enqueued, source) == f)
  {
    StartOk(d, vkTable);
    RunKept(Start(d, vkTable), before);
    var s := Run(Start(d, vkTable), before);
    RunKept(s, after);
    var t := Run(s, after);
    assert DevicesOk(t.m.fwd, t.kinds);
    if Dead(s, p.target, Applied) {
      DeadForever(s, after, p.target, Applied);
    }
    if Dead(s, p.target, Enqueued) {
      DeadForever(s, after, p.target, Enqueued);
    }
    hide Inv, DevicesOk, Dead, Write, NoteKeys;
    DeadPacketsDoNothing(t, p, source);
  }

  /** While a slot stays open its written target never moves back, whatever order the
      ends of its grabs are applied in. */
  lemma WrittenTargetOnlyGrows(s: State, step: Step)
    requires Inv(s) && Enabled(s, step)
    ensures var f, g := s.m.fwd, Next(s, step).m.fwd;
            |g.devices| == |f.devices|
            && forall i :: 0 <= i < |f.devices| && f.devices[i].Live() && g.devices[i].Live() ==>
                 f.devices[i].targetA <= g.devices[i].targetA
  {
    StepSucceeds(s, step);
    var f, g := s.m.fwd, Next(s, step).m.fwd;
    assert DevicesOk(f, s.kinds);
    hide Next, Inv;
    forall i | 0 <= i < |f.devices| && f.devices[i].Live() && g.devices[i].Live()
      ensures f.devices[i].targetA <= g.devices[i].targetA
    {
      assert DeviceOk(f.devices[i], i, f.serial, s.kinds);
      assert Succeeds(f.devices[i], g.devices[i], f.serial);
    }
  }
}
