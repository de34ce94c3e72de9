/** Synthesis displaces a held key by releasing it and restores it by pressing it again. */
module Displacement {
  import opened Codes
  import opened Claims
  import opened Forwarding
  import opened Synthesis
  import opened Broker
  import opened Pointwise
  import opened SinkInvariant
  import opened SynthInvariant
  import opened BrokerInvariant
  import opened KeyGains

  /** The key comes back exactly as it was: it was held both by the source and
      downstream, or it was not held downstream and nothing was owed. */
  predicate Returns(k: Keys, code: nat) {
    if code in k.output then code in k.source else code !in k.displaced
  }

  predicate ReturnsBoth(k: Keys, code: nat) { Returns(k, code) && Returns(k, ButtonAlias(code)) }

  function Bounced(k: Keys, code: nat): Keys { ShiftKeys(ShiftKeys(k, code, false), code, true) }

  lemma BouncedKeys(k: Keys, code: nat)
    ensures Bounced(k, code).source == k.source
    ensures forall c :: c != code && c != ButtonAlias(code) ==>
              && (c in Bounced(k, code).output <==> c in k.output)
              && (c in Bounced(k, code).displaced <==> c in k.displaced)
    ensures forall c :: c == code || c == ButtonAlias(code) ==>
              && (c in Bounced(k, code).output <==> (if c in k.output then c in k.source else c in k.displaced))
              && c !in Bounced(k, code).displaced
    ensures Bounced(k, code).output == k.output <==> ReturnsBoth(k, code)
  {
    var r := Bounced(k, code).output;
    if ReturnsBoth(k, code) {
      assert r == k.output;
    } else {
      var c := if Returns(k, code) then ButtonAlias(code) else code;
      assert c in r <==> c !in k.output;
    }
  }

  /** Every live source gets code and its alias back as they were. */
  predicate AllReturn(f: Forward, code: nat, view: View) {
    forall i :: 0 <= i < |f.devices| && f.devices[i].Live() ==> ReturnsBoth(f.devices[i].At(view), code)
  }

  function BounceKey(f: Forward, code: nat, view: View): Forward {
    ShiftKey(ShiftKey(f, code, view, false), code, view, true)
  }

  predicate SameOutputs(f: Forward, g: Forward, view: View) {
    |g.devices| == |f.devices|
      && forall i :: 0 <= i < |f.devices| ==> g.devices[i].At(view).output == f.devices[i].At(view).output
  }

  lemma BouncedDevice(f: Forward, code: nat, view: View, i: nat)
    requires code <= KEY_MAX && i < |f.devices|
    ensures |BounceKey(f, code, view).devices| == |f.devices|
    ensures var d, e := f.devices[i], BounceKey(f, code, view).devices[i];
            && Became(d, e, view, if d.Live() then Bounced(d.At(view), code) else d.At(view))
            && (e.At(view).output == d.At(view).output <==> (d.Live() ==> ReturnsBoth(d.At(view), code)))
  {
    var g := ShiftKey(f, code, view, false);
    hide ShiftKey;
    ShiftKeyAt(f, code, view, false);
    ShiftKeyAt(g, code, view, true);
    assert Became(f.devices[i], g.devices[i], view, ShiftedKeys(f.devices[i], code, view, false));
    hide ShiftKeys, ReturnsBoth;
    BouncedKeys(f.devices[i].At(view), code);
  }

  /** Releasing a key and restoring it returns every source's outputs exactly if each
      live source that held it downstream still holds it, and no other was owed it. */
  lemma ReleaseThenRestore(f: Forward, code: nat, view: View)
    requires code <= KEY_MAX
    ensures SameOutputs(f, BounceKey(f, code, view), view) <==> AllReturn(f, code, view)
  {
    var g := BounceKey(f, code, view);
    forall i | 0 <= i < |f.devices|
      ensures |g.devices| == |f.devices|
      ensures g.devices[i].At(view).output == f.devices[i].At(view).output <==>
              (f.devices[i].Live() ==> ReturnsBoth(f.devices[i].At(view), code))
    {
      BouncedDevice(f, code, view, i);
    }
    hide BounceKey, ReturnsBoth;
  }

  /** And then the sink holds what it held before, as long as it accepts writes. */
  lemma ReleaseThenRestoreSink(f: Forward, code: nat)
    requires code <= KEY_MAX && SinkInv(f) && f.sink.Steady() && f.orphans == {} && AllReturn(f, code, Applied)
    ensures BounceKey(f, code, Applied).sink.down == f.sink.down
  {
    var g := BounceKey(f, code, Applied);
    ReleaseThenRestore(f, code, Applied);
    ShiftKeyKeeps(f, code, Applied, false);
    ShiftKeyKeeps(ShiftKey(f, code, Applied, false), code, Applied, true);
    assert Quiet(f, g);
    forall i | 0 <= i < |f.devices|
      ensures g.devices[i].Live() == f.devices[i].Live() && g.devices[i].keyboard == f.devices[i].keyboard
    {
      BouncedDevice(f, code, Applied, i);
    }
    hide BounceKey, AllReturn;
    forall c
      ensures Wanted(g, c) <==> Wanted(f, c)
    {
      HoldersFrame(f.devices, g.devices, c);
    }
    assert forall c :: c in g.sink.down <==> c in f.sink.down;
  }

  /** In every reachable state only keys a source still holds are displaced, in both views. */
  lemma OnlyHeldKeysAreDisplaced(d: Devices, vkTable: map<nat, nat>, steps: seq<Step>)
    requires forall v :: v in vkTable ==> vkTable[v] <= KEY_MAX
    requires Legal(Start(d, vkTable), steps)
    ensures var f := Run(Start(d, vkTable), steps).m.fwd;
            forall i :: 0 <= i < |f.devices| ==>
              f.devices[i].applied.displaced <= f.devices[i].applied.source
                && f.devices[i].enqueued.displaced <= f.devices[i].enqueued.source
  {
    StartOk(d, vkTable);
    RunKept(Start(d, vkTable), steps);
    var s := Run(Start(d, vkTable), steps);
    hide MachineInv;
    KeysFit(s.m.fwd, s.kinds);
  }

  // ---------------------------------------------------------------- what a restore gives back

  /** What a restore adds to a source's output: the displaced of the two names of the key. */
  lemma RestoreAdds(f: Forward, code: nat, view: View, i: nat)
    requires i < |f.devices|
    ensures |ShiftKey(f, code, view, true).devices| == |f.devices|
    ensures var d, e := f.devices[i], ShiftKey(f, code, view, true).devices[i];
            e.At(view).output == d.At(view).output +
                                 if d.Live() && code <= KEY_MAX then d.At(view).displaced * {code, ButtonAlias(code)}
                                   else {}
  {
    ShiftKeyAt(f, code, view, true);
    hide ShiftKey;
    assert Became(f.devices[i], ShiftKey(f, code, view, true).devices[i], view,
           ShiftedKeys(f.devices[i], code, view, true));
  }

  lemma RestoreWithin(f: Forward, code: nat, view: View, i: nat)
    requires i < |f.devices| && f.devices[i].At(view).displaced <= f.devices[i].At(view).source
    ensures |ShiftKey(f, code, view, true).devices| == |f.devices|
    ensures ShiftKey(f, code, view, true).devices[i].At(view).output <=
            f.devices[i].At(view).output + f.devices[i].At(view).source
  {
    RestoreAdds(f, code, view, i);
    hide ShiftKey;
  }

  /** After every run, in either view, a restore gives each source exactly the displaced keys
      it restores, all of them keys the source holds. */
  lemma RestoresOnlyHeldKeys(d: Devices, vkTable: map<nat, nat>, steps: seq<Step>, code: nat, view: View)
    requires forall v :: v in vkTable ==> vkTable[v] <= KEY_MAX
    requires Legal(Start(d, vkTable), steps)
    ensures var f := Run(Start(d, vkTable), steps).m.fwd;
            var g := ShiftKey(f, code, view, true);
            |g.devices| == |f.devices| && forall i :: 0 <= i < |f.devices| ==>
              g.devices[i].At(view).output <= f.devices[i].At(view).output + f.devices[i].At(view).source
  {
    var f := Run(Start(d, vkTable), steps).m.fwd;
    OnlyHeldKeysAreDisplaced(d, vkTable, steps);
    hide Run, Legal, Start, ShiftKey;
    var g := ShiftKey(f, code, view, true);
    forall i | 0 <= i < |f.devices|
      ensures g.devices[i].At(view).output <= f.devices[i].At(view).output + f.devices[i].At(view).source
    {
      assert f.devices[i].applied.displaced <= f.devices[i].applied.source;
      assert f.devices[i].enqueued.displaced <= f.devices[i].enqueued.source;
      RestoreWithin(f, code, view, i);
    }
  }

  /** A restore in this view gives slot i no c that it does not have. */
  predicate Withheld(f: Forward, view: View, i: nat, c: nat)
    requires i < |f.devices|
  {
    forall code :: 0 <= code <= KEY_MAX ==>
      (c in ShiftKey(f, code, view, true).devices[i].At(view).output ==> c in f.devices[i].At(view).output)
  }

  lemma NotDisplaced(f: Forward, view: View, i: nat, c: nat)
    requires i < |f.devices| && c !in f.devices[i].At(view).displaced
    ensures Withheld(f, view, i, c)
  {
    forall code | 0 <= code <= KEY_MAX
      ensures c in ShiftKey(f, code, view, true).devices[i].At(view).output ==> c in f.devices[i].At(view).output
    {
      RestoreAdds(f, code, view, i);
    }
  }

  /** From any reachable state in which a source does not hold a key, in either view, however
      the run goes on without a report that it presses the key again, no restore gives the
      key back to it. */
  lemma LetGoIsFinal(d: Devices, vkTable: map<nat, nat>, before: seq<Step>, after: seq<Step>, i: nat, c: nat,
                     view: View)
    requires forall v :: v in vkTable ==> vkTable[v] <= KEY_MAX
    requires Legal(Start(d, vkTable), before) && Legal(Run(Start(d, vkTable), before), after) && i < SLOTS
    requires Unpressed(Run(Start(d, vkTable), before).queue, after, i, c, view, true)
    ensures var s := Run(Start(d, vkTable), before);
            var f := Run(s, after).m.fwd;
            && |s.m.fwd.devices| == |f.devices| == SLOTS
            && (c !in s.m.fwd.devices[i].At(view).source ==>
                  c !in f.devices[i].At(view).source && c !in f.devices[i].At(view).displaced
                    && Withheld(f, view, i, c))
  {
    StartOk(d, vkTable);
    RunKept(Start(d, vkTable), before);
    var s := Run(Start(d, vkTable), before);
    RunKept(s, after);
    SourceStays(s, after, i, c, view);
    var t := Run(s, after);
    hide MachineInv, Start, Legal, Run, Unpressed, Withheld;
    KeysFit(t.m.fwd, t.kinds);
    if c !in s.m.fwd.devices[i].At(view).source {
      NotDisplaced(t.m.fwd, view, i, c);
    }
  }

  /** The step ends the grab of slot i in the view: admission of the end, the end reached by
      written output, or an end that a full queue could not order. */
  predicate Ends(s: State, step: Step, i: nat, view: View) {
    match step
    case AdmitEnd(target, queued) => Find(s.m.fwd, target, Enqueued) == Some(i) && (view.Enqueued? || !queued)
    case ApplyNext =>
      && view.Applied? && s.queue != [] && s.queue[0].EndOf? && SlotOf(s.m.fwd, s.queue[0].next) == Some(i)
      && s.m.fwd.devices[i].Live() && s.m.fwd.devices[i].targetA < s.queue[0].next
    case _ => false
  }

  predicate Cleared(f: Forward, g: Forward, i: nat, view: View)
    requires i < |f.devices|
  {
    |g.devices| == |f.devices| && g.devices[i].At(view).displaced == {}
      && g.devices[i].At(view).output <= f.devices[i].At(view).output
  }

  lemma ClearedAt(f: Forward, kinds: map<nat, Kind>, i: nat, view: View, keep: set<nat>, next: nat)
    requires DevicesOk(f, kinds) && i < |f.devices|
    ensures var g := EndGrabAt(f, i, view, keep, next);
            Cleared(f, g, i, view) && OnlySlot(f, g, i)
              && (view.Applied? ==> g.devices[i].enqueued == f.devices[i].enqueued)
  {
    KeysFit(f, kinds);
    EndGrabAtAt(f, i, view, keep, next);
    hide EndGrabAt, DevicesOk;
  }

  lemma AdmittedEndClears(s: State, target: nat, i: nat)
    requires DevicesOk(s.m.fwd, s.kinds) && Find(s.m.fwd, target, Enqueued) == Some(i)
    ensures Cleared(s.m.fwd, EndGrab(s.m.fwd, target), i, Enqueued)
    ensures EndGrab(s.m.fwd, target).devices[i].applied == s.m.fwd.devices[i].applied
  {
    var f := s.m.fwd;
    KeysFit(f, s.kinds);
    EndGrabAtAt(f, i, Enqueued, f.devices[i].enqueued.source, MakeTarget(f.serial, i));
    hide EndGrabAt, DevicesOk;
  }

  /** An end applied at once, to the slot its admission has just given a fresh target. */
  lemma EndNowClears(s: State, target: nat, i: nat)
    requires DevicesOk(s.m.fwd, s.kinds) && Find(s.m.fwd, target, Enqueued) == Some(i)
    ensures var f, g := s.m.fwd, Ending(s, target, false).m.fwd; Cleared(f, g, i, Enqueued) && Cleared(f, g, i, Applied)
  {
    hide Find, DevicesOk, EndGrab, ApplyEndGrab, MakeTarget, OnlySlot, EndOk, SlotsSucceed;
    var f, q := s.m.fwd, Ending(s, target, true);
    AdmittedEndClears(s, target, i);
    EndGrabDevices(s, target);
    EndReaches(s, target, i);
    AppliedEndNow(q.m.fwd, q.kinds, MakeTarget(f.serial, i), i, f.devices[i].enqueued.source);
    ClearedBoth(f, q.m.fwd, Ending(s, target, false).m.fwd, i);
  }

  lemma AppliedEndNow(f: Forward, kinds: map<nat, Kind>, next: nat, i: nat, held: set<nat>)
    requires DevicesOk(f, kinds) && SlotOf(f, next) == Some(i) && f.devices[i].Live() && f.devices[i].targetA < next
    ensures var g := ApplyEndGrab(f, next, Some(held));
            Cleared(f, g, i, Applied) && g.devices[i].enqueued == f.devices[i].enqueued
  {
    hide DevicesOk, EndGrabAt;
    ClearedAt(f, kinds, i, Applied, held, next);
  }

  lemma ClearedBoth(f: Forward, q: Forward, g: Forward, i: nat)
    requires i < |f.devices| && Cleared(f, q, i, Enqueued) && q.devices[i].applied == f.devices[i].applied
    requires Cleared(q, g, i, Applied) && g.devices[i].enqueued == q.devices[i].enqueued
    ensures Cleared(f, g, i, Enqueued) && Cleared(f, g, i, Applied)
  {}

  lemma EndReaches(s: State, target: nat, i: nat)
    requires DevicesOk(s.m.fwd, s.kinds) && Find(s.m.fwd, target, Enqueued) == Some(i)
    ensures var f, next := Ending(s, target, true).m.fwd, MakeTarget(s.m.fwd.serial, i);
            SlotOf(f, next) == Some(i) && f.devices[i].Live() && f.devices[i].targetA < next
  {
    var f := s.m.fwd;
    assert DeviceOk(f.devices[i], i, f.serial, s.kinds);
    TargetParts(f.serial, i);
    EndGrabSlot(s, target);
    hide DevicesOk, EndGrab, MakeTarget;
  }

  lemma EndClears(s: State, step: Step, i: nat, view: View)
    requires Inv(s) && Enabled(s, step) && i < SLOTS && Ends(s, step, i, view)
    ensures |s.m.fwd.devices| == SLOTS && Cleared(s.m.fwd, Next(s, step).m.fwd, i, view)
  {
    assert DevicesOk(s.m.fwd, s.kinds) && |s.m.fwd.devices| == SLOTS;
    hide Inv, DevicesOk, EndGrab, ApplyEndGrab;
    if step.AdmitEnd? {
      if step.queued {
        AdmittedEndClears(s, step.target, i);
      } else {
        EndNowClears(s, step.target, i);
      }
    } else {
      AppliedEndClears(s, i);
    }
  }

  lemma AppliedEndClears(s: State, i: nat)
    requires DevicesOk(s.m.fwd, s.kinds) && i < |s.m.fwd.devices| && Ends(s, ApplyNext, i, Applied)
    ensures Cleared(s.m.fwd, Next(s, ApplyNext).m.fwd, i, Applied)
  {
    var f, next := s.m.fwd, s.queue[0].next;
    hide DevicesOk, EndGrabAt, OnlySlot, Next, KeysOk;
    ClearedAt(f, s.kinds, i, Applied, f.devices[i].applied.source, next);
    EndWritten(s);
  }

  lemma EndWritten(s: State)
    requires s.queue != [] && s.queue[0].EndOf?
    ensures Next(s, ApplyNext).m.fwd.devices == ApplyEndGrab(s.m.fwd, s.queue[0].next, None).devices
  {
    hide ApplyEndGrab, Maintain;
    MaintainFrame(WriteAction(s.m, s.queue[0]));
  }

  /** After a grab ends in a view, however the run goes on without the replay of a press, a
      key that was not held downstream at the end (though it may have been displaced) is
      neither held nor displaced, and no restore gives it back. */
  lemma EndedGrabIsFinal(d: Devices, vkTable: map<nat, nat>, before: seq<Step>, end: Step, after: seq<Step>, i: nat,
                         c: nat, view: View)
    requires forall v :: v in vkTable ==> vkTable[v] <= KEY_MAX
    requires Legal(Start(d, vkTable), before) && Enabled(Run(Start(d, vkTable), before), end) && i < SLOTS
    requires Ends(Run(Start(d, vkTable), before), end, i, view)
    requires Legal(Next(Run(Start(d, vkTable), before), end), after)
    requires Unpressed(Next(Run(Start(d, vkTable), before), end).queue, after, i, c, view, false)
    ensures var s := Run(Start(d, vkTable), before);
            var f := Run(Next(s, end), after).m.fwd;
            && |s.m.fwd.devices| == |f.devices| == SLOTS
            && (c !in s.m.fwd.devices[i].At(view).output ==>
               !Backed(f.devices[i].At(view), c) && Withheld(f, view, i, c))
  {
    StartOk(d, vkTable);
    RunKept(Start(d, vkTable), before);
    var s := Run(Start(d, vkTable), before);
    StepKept(s, end);
    EndClears(s, end, i, view);
    BackingStays(Next(s, end), after, i, c, view);
    hide Inv, Start, Legal, Run, Next, Unpressed, Withheld, Ends;
    var t := Run(Next(s, end), after);
    if c !in s.m.fwd.devices[i].At(view).output {
      NotDisplaced(t.m.fwd, view, i, c);
    }
  }
}
