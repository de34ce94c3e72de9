/** The coupling of the two views over whole runs of the broker. */
module Coupling {
  import opened Codes
  import opened Claims
  import opened Forwarding
  import opened Synthesis
  import opened Broker
  import opened Pointwise
  import opened ViewModel
  import opened SinkInvariant
  import opened SynthInvariant
  import opened BrokerInvariant
  import opened TwoViews
  import opened SafeInputs
  import opened Sweeping

  predicate KnownOwner(kinds: map<nat, Kind>, o: Owner) { o.target == 0 || o.target in kinds }

  predicate KnownOwners(kinds: map<nat, Kind>, t: Table) { forall o :: o in t ==> KnownOwner(kinds, o) }

  /** A queued close finds the source it closes. */
  predicate ReadyNow(v: ViewState, a: Action) { a.CloseOf? ==> Locate(v.slots, a.target).Some? }

  predicate Ready(vkTable: map<nat, nat>, v: ViewState, queue: seq<Action>)
    decreases |queue|
  {
    queue == [] || (ReadyNow(v, queue[0]) && Ready(vkTable, Mirror(vkTable, v, queue[0]), queue[1..]))
  }

  /** The names an action uses were issued before it was queued. */
  predicate Dated(s: State, a: Action) {
    match a
    case SourceState(p) => p.target in s.kinds
    case Replay(p) => p.target in s.kinds
    case Synth(_, _, o) => KnownOwner(s.kinds, o)
    case EndOf(next) => next in s.kinds
    case CloseOf(target) => target in s.kinds
    case _ => true
  }

  ghost predicate EpochsOk(s: State) {
    && s.m.appliedEpoch <= s.m.fwd.epoch && s.m.enqueuedEpoch <= s.m.fwd.epoch
    && (s.m.enqueuedEpoch == s.m.fwd.epoch ==> Clean(Admitted(s.m)))
  }

  /** The written view, once what is queued has been mirrored, is the admitted view
      without the claims of ended grabs. */
  ghost predicate Coupled(s: State) {
    && Inv(s) && Healthy(s.m.fwd) && EpochsOk(s)
    && (forall t :: t in s.kinds ==> t != 0)
    && KnownOwners(s.kinds, s.m.applied) && KnownOwners(s.kinds, s.m.enqueued)
    && (forall k :: 0 <= k < |s.queue| ==> Dated(s, s.queue[k]))
    && Clean(Written(s.m))
    && Ready(s.m.vkTable, Written(s.m), s.queue)
    && Drained(s.m.vkTable, Written(s.m), s.queue) == Swept(Admitted(s.m))
  }

  /** A batch that will be played as it was admitted: there is a sink, and either all its
      inputs are safe, or its writes are accepted and its owner has room for a claim. */
  predicate Playable(m: Machine, inputs: seq<Input>, o: Owner) {
    && m.fwd.sink.attached
    && (AllSafe(inputs, IsDead(m.fwd, o, Applied), m.absReady) || (Flowing(m) && Room(m.applied, o)))
  }

  /** Steps of a FIFO run: clones accept writes, batches are played as they were admitted,
      and nothing overtakes the queue. */
  predicate InOrder(s: State, step: Step) {
    match step
    case OpenSource(_, _, budget) => budget.Endless?
    case Admit(a) => a.Synth? ==> KnownOwner(s.kinds, a.owner)
    case ApplyNext => s.queue != [] && s.queue[0].Synth? ==> Playable(s.m, s.queue[0].inputs, s.queue[0].owner)
    case AdmitEnd(_, queued) => queued
    case AdmitClose(_, queued) => queued
    case _ => true
  }

  // ---------------------------------------------------------------- queues

  lemma {:induction false} DrainedAppend(vkTable: map<nat, nat>, v: ViewState, queue: seq<Action>, a: Action)
    ensures Drained(vkTable, v, queue + [a]) == Mirror(vkTable, Drained(vkTable, v, queue), a)
    ensures Ready(vkTable, v, queue + [a]) <==> Ready(vkTable, v, queue) && ReadyNow(Drained(vkTable, v, queue), a)
    decreases |queue|
  {
    hide Mirror, ReadyNow;
    if queue == [] {
      assert queue + [a] == [a];
      assert Drained(vkTable, v, [a]) == Drained(vkTable, Mirror(vkTable, v, a), [a][1..]);
    } else {
      assert (queue + [a])[1..] == queue[1..] + [a];
      DrainedAppend(vkTable, Mirror(vkTable, v, queue[0]), queue[1..], a);
    }
  }

  // ---------------------------------------------------------------- admission

  lemma DeadIsGone(m: Machine, kinds: map<nat, Kind>, o: Owner, view: View)
    requires DevicesOk(m.fwd, kinds) && Healthy(m.fwd)
    ensures IsDead(m.fwd, o, view) <==> Gone(SlotsAt(m.fwd, view), o)
  {
    if o.target != 0 {
      LocateFind(m.fwd, kinds, o.target, view);
    }
    hide SlotsAt;
  }

  lemma SweptEnqueuedView(s: State)
    requires DevicesOk(s.m.fwd, s.kinds) && Healthy(s.m.fwd) && EpochsOk(s)
    ensures Admitted(SweepEnqueued(s.m)) == Swept(Admitted(s.m))
  {
    CleanIsSwept(Admitted(s.m));
    forall o
      ensures IsDead(s.m.fwd, o, Enqueued) <==> Gone(SlotsAt(s.m.fwd, Enqueued), o)
    {
      DeadIsGone(s.m, s.kinds, o, Enqueued);
    }
    hide IsDead, Gone, SlotsAt;
    assert Sweep(s.m.fwd, s.m.enqueued, Enqueued) == Swept(Admitted(s.m)).claims;
  }

  lemma NoteSynthView(s: State, inputs: seq<Input>, o: Owner)
    requires DevicesOk(s.m.fwd, s.kinds) && Healthy(s.m.fwd) && EpochsOk(s)
             && forall v :: v in s.m.vkTable ==> s.m.vkTable[v] <= KEY_MAX
    ensures var v := Admitted(s.m);
            Admitted(NoteSynth(s.m, inputs, o)) == AllInputs(s.m.vkTable, Swept(v), inputs, Gone(v.slots, o), false, o)
  {
    SweptEnqueuedView(s);
    DeadIsGone(s.m, s.kinds, o, Enqueued);
    var w := SweepEnqueued(s.m);
    NoteInputsView(w.vkTable, w.fwd, s.kinds, w.enqueued, inputs, IsDead(w.fwd, o, Enqueued), false, o);
    hide NoteInputs, AllInputs, IsDead, Gone, SlotsAt;
  }

  /** Admission does to the admitted view what the action means. */
  lemma AdmittedView(s: State, a: Action)
    requires Coupled(s) && ActionAllowed(s, a)
    ensures var v := Admitted(s.m);
            Admitted(AdmitAction(s.m, a)) == Meaning(s.m.vkTable, if a.Synth? then Swept(v) else v, a)
  {
    hide Coupled, Inv, MachineInv;
    assert DevicesOk(s.m.fwd, s.kinds) && EpochsOk(s) && Healthy(s.m.fwd) && (forall t :: t in s.kinds ==> t != 0)
           && (forall v :: v in s.m.vkTable ==> s.m.vkTable[v] <= KEY_MAX) by { CoupledParts(s); }
    hide DevicesOk, Healthy, EpochsOk;
    match a
    case SourceState(p) => NotedView(s.m.fwd, s.kinds, p, Enqueued, true);
    case Replay(p) => NotedView(s.m.fwd, s.kinds, p, Enqueued, false);
    case Synth(inputs, _, owner) => NoteSynthView(s, inputs, owner); hide NoteSynth, AllInputs, Gone;
    case ReleaseAll => EmptiedView(s.m.fwd, s.kinds, Enqueued); hide ReleaseAllFrom, EmptyAll;
    case _ =>
  }

  lemma CoupledParts(s: State)
    requires Coupled(s)
    ensures DevicesOk(s.m.fwd, s.kinds) && EpochsOk(s) && Healthy(s.m.fwd) && MachineInv(s.m)
            && (forall t :: t in s.kinds ==> t != 0)
    ensures forall v :: v in s.m.vkTable ==> s.m.vkTable[v] <= KEY_MAX
    ensures Inv(s) && KnownOwners(s.kinds, s.m.enqueued)
  {}

  lemma AdmittedMirror(s: State, a: Action)
    requires Coupled(s) && ActionAllowed(s, a)
    ensures Swept(Admitted(AdmitAction(s.m, a))) == Mirror(s.m.vkTable, Swept(Admitted(s.m)), a)
    ensures Clean(Admitted(s.m)) || a.Synth? ==> Clean(Admitted(AdmitAction(s.m, a)))
    ensures forall o :: o in Admitted(AdmitAction(s.m, a)).claims ==> o in s.m.enqueued || (a.Synth? && o == a.owner)
  {
    var v, vk := Admitted(s.m), s.m.vkTable;
    AdmittedView(s, a);
    CleanIsSwept(v);
    if Clean(v) {
      MeaningKeepsClean(vk, v, a);
    }
    MeaningKeepsClean(vk, Swept(v), a);
    if !a.Synth? {
      MeaningTargets(vk, v, a);
      SweepFirst(vk, v, a);
    }
    hide Coupled, AdmitAction, Meaning, Admitted, Gone;
  }

  lemma MeaningTargets(vk: map<nat, nat>, v: ViewState, a: Action)
    requires !a.Synth? && !a.EndOf? && !a.CloseOf?
    ensures forall o :: Gone(v.slots, o) <==> Gone(Meaning(vk, v, a).slots, o)
    ensures forall o :: o in Meaning(vk, v, a).claims ==> o in v.claims
  {
    var w := Meaning(vk, v, a);
    assert SameTargets(v.slots, w.slots);
    forall o
      ensures Gone(v.slots, o) <==> Gone(w.slots, o)
    {
      GoneSame(v.slots, w.slots, o);
    }
    if a.Replay? {
      ReleaseByPacketKeys(v.claims, a.p, |a.p.events|);
    }
    hide ReleaseByPacket, Gone;
  }
}
