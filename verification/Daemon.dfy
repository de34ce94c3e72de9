/** The broker in place: the synthesizer around its forwarding table, and the output queue.
    Every step leaves the state the state machine of `Broker` steps to, so what is proved of
    every run of the machine holds of the objects. */
module Daemons {
  import opened Codes
  import opened Claims
  import opened Forwarding
  import opened Synthesis
  import opened Broker
  import opened SinkInvariant
  import opened BrokerInvariant
  import opened ClaimTables
  import opened Forwarders
  import opened Synthesizers
  import opened KeyBits

  class Daemon {
    const synth: Synthesizer
    var queue: seq<Action>
    ghost var kinds: map<nat, Kind> // what the reader knows of the sources it opened

    ghost predicate Valid()
      reads this, synth.Repr
    {
      synth.Valid() && this !in synth.Repr
    }

    ghost function Now(): State
      reads this, synth.Repr
    {
      State(synth.State(), queue, kinds)
    }

    constructor (d: Devices, keys: map<nat, nat>)
      requires forall v :: v in keys ==> keys[v] <= KEY_MAX
      ensures Valid() && Now() == Start(d, keys) && fresh(synth.Repr)
    {
      hide AttachSink, Start, ClaimTable.Valid;
      var forwarder := new Forwarder();
      forwarder.Attach(d.attached, d.sinkBudget);
      Beginning(d, keys);
      var s := new Synthesizer(forwarder, keys);
      s.NoteDevices(d);
      synth := s;
      queue, kinds := [], map[];
    }

    // -------------------------------------------------------------- admission

    method AdmitNow(a: Action)
      requires Valid() && ActionAllowed(Now(), a)
      modifies this, synth.Repr
      ensures Valid() && Now() == Next(old(Now()), Admit(a))
    {
      hide ClaimTable.Valid, NoteKeys, NoteSynth, ReleaseByPacket, DropMatching, ReleaseAllFrom;
      match a {
        case SourceState(p) => synth.forwarder.NotePacketKeys(p, Enqueued, true);
        case Replay(p) =>
          synth.forwarder.NotePacketKeys(p, Enqueued, false);
          synth.NotePhysicalRelease(p);
        case Synth(inputs, _, owner) => synth.NoteEnqueuedSynth(inputs, owner);
        case ReleaseOwner(filter) => synth.ReleaseEnqueuedOwner(filter);
        case ReleaseAll =>
          synth.ForgetAdmitted();
          synth.forwarder.ReleaseEverything(Enqueued);
        case ReleaseSynth => synth.ForgetAdmitted();
        case RecreateSynth(_) => synth.ForgetAdmitted();
      }
      queue := queue + [a];
    }

    method OpenNow(keyboard: bool, clone: bool, budget: Budget)
      requires Valid()
      modifies this, synth.Repr
      ensures Valid() && Now() == Next(old(Now()), OpenSource(keyboard, clone, budget))
    {
      hide ClaimTable.Valid;
      ghost var f := synth.forwarder.State();
      var target := synth.forwarder.OpenSlot(keyboard, clone, budget);
      kinds := Learn(kinds, f, synth.forwarder.State(), Kind(keyboard, clone), FirstFree(f.devices, 0));
    }

    /** The end of a grab, queued unless the queue is full. */
    method EndNow(target: nat, queued: bool)
      requires Valid() && Find(Now().m.fwd, target, Enqueued).Some?
      modifies this, synth.Repr
      ensures Valid() && Now() == Next(old(Now()), AdmitEnd(target, queued))
    {
      hide ClaimTable.Valid, EndGrab, ApplyEndGrab, MakeTarget, Find, Synthesizer.Valid;
      ghost var f := synth.forwarder.State();
      ghost var i := Find(f, target, Enqueued).value;
      var next, held := EndAdmitted(target);
      if queued {
        queue := queue + [EndOf(next)];
      } else {
        ApplyEnd(next, held);
      }
      kinds := kinds[next := Kind(f.devices[i].keyboard, f.devices[i].clone)];
    }

    method EndAdmitted(target: nat) returns (next: nat, held: set<nat>)
      requires Valid() && Find(Now().m.fwd, target, Enqueued).Some?
      modifies synth.Repr
      ensures Valid() && synth.State() == old(synth.State()).(fwd := EndGrab(old(synth.State()).fwd, target))
      ensures var f := old(synth.State()).fwd;
              var i := Find(f, target, Enqueued).value;
              next == MakeTarget(f.serial, i) && held == f.devices[i].enqueued.source
    {
      hide ClaimTable.Valid, EndGrab, MakeTarget;
      next, held := synth.forwarder.EndGrabOf(target);
    }

    method ApplyEnd(next: nat, held: set<nat>)
      requires Valid()
      modifies synth.Repr
      ensures Valid()
              && synth.State() == old(synth.State()).(fwd := ApplyEndGrab(old(synth.State()).fwd, next, Some(held)))
    {
      hide ClaimTable.Valid, ApplyEndGrab;
      synth.forwarder.ApplyEndGrabOf(next, Some(held));
    }

    method CloseNow(target: nat, queued: bool)
      requires Valid() && Find(Now().m.fwd, target, Enqueued).Some?
      modifies this, synth.Repr
      ensures Valid() && Now() == Next(old(Now()), AdmitClose(target, queued))
    {
      hide ClaimTable.Valid, Close, ApplyClose, SlotOf;
      synth.forwarder.CloseOf(target);
      if queued {
        queue := queue + [CloseOf(target)];
      } else {
        synth.forwarder.ApplyCloseOf(target);
      }
    }

    // -------------------------------------------------------------- the sequencer

    method Perform(a: Action)
      requires Valid()
      modifies synth.Repr
      ensures Valid() && synth.State() == WriteAction(old(synth.State()), a)
    {
      hide ClaimTable.Valid, NoteKeys, Write, SetApplied, SendBatch, ReleaseByPacket, DropMatching, ReleaseAllFrom,
           ReleaseGeneric, Recreate, ApplyEndGrab, ApplyClose;
      match a {
        case SourceState(p) => synth.forwarder.NotePacketKeys(p, Applied, true);
        case Replay(p) =>
          synth.forwarder.WritePacket(p);
          synth.PhysicalRelease(p);
        case Synth(inputs, continues, owner) => synth.SendInput(inputs, continues, owner);
        case ReleaseOwner(filter) => synth.ReleaseAppliedOwner(filter);
        case ReleaseAll =>
          synth.ReleaseAllGeneric();
          synth.forwarder.ReleaseEverything(Applied);
        case ReleaseSynth => synth.ReleaseAllGeneric();
        case RecreateSynth(devices) => synth.RecreateDevices(devices);
        case EndOf(next) => synth.forwarder.ApplyEndGrabOf(next, None);
        case CloseOf(target) => synth.forwarder.ApplyCloseOf(target);
      }
    }

    /** Takes the head of the queue, performs it and releases what it left without a grab. */
    method ApplyHead()
      requires Valid() && queue != []
      modifies this, synth.Repr
      ensures Valid() && Now() == Next(old(Now()), ApplyNext)
    {
      hide WriteAction, Maintain, ClaimTable.Valid;
      var a := queue[0];
      queue := queue[1..];
      Perform(a);
      synth.MaintainOutput();
    }

    // -------------------------------------------------------------- runs

    method Take(step: Step)
      requires Valid() && Enabled(Now(), step)
      modifies this, synth.Repr
      ensures Valid() && Now() == Next(old(Now()), step)
    {
      hide AdmitAction, WriteAction, Maintain, SweepEnqueued, Opening, Ending, Closing, Collect, ClaimTable.Valid;
      match step {
        case OpenSource(keyboard, clone, budget) => OpenNow(keyboard, clone, budget);
        case Admit(a) => AdmitNow(a);
        case AdmitEnd(target, queued) => EndNow(target, queued);
        case AdmitClose(target, queued) => CloseNow(target, queued);
        case ApplyNext => ApplyHead();
        case Query => synth.SweepAdmitted();
        case Idle => synth.MaintainOutput();
        case CollectSlot(i) => synth.forwarder.CollectRetired(i);
      }
    }

    method Play(steps: seq<Step>)
      requires Valid() && Legal(Now(), steps)
      modifies this, synth.Repr
      ensures Valid() && Now() == Run(old(Now()), steps)
    {
      hide Next, Enabled, ClaimTable.Valid;
      var k := 0;
      while k < |steps|
        invariant k <= |steps| && Valid() && Legal(Now(), steps[k..])
                  && Run(Now(), steps[k..]) == Run(old(Now()), steps)
      {
        assert steps[k..][0] == steps[k] && steps[k..][1..] == steps[k + 1..];
        Take(steps[k]);
        k := k + 1;
      }
    }
  }

  const UNATTACHED := Forward(seq(SLOTS, _ => FREE), 1, 0, Sink(false, false, Left(0), {}, {}), [], 0, {})

  lemma Beginning(d: Devices, keys: map<nat, nat>)
    ensures Start(d, keys) == State(Machine(AttachSink(UNATTACHED, d.attached, d.sinkBudget), map[], 0, map[], 0, {},
                                            d.attached && d.absReady, !d.attached, d.budget, 0, 0, 0, keys), [], map[])
  {
    var f := AttachSink(UNATTACHED, d.attached, d.sinkBudget);
    assert forall c :: !HeldBySources(f.devices, c);
    assert f.orphans == {};
  }

  /** After any run on the objects themselves the in-place sink holds what is wanted of it,
      and its synthesis bits are the ones its claim table supports. */
  method Serve(d: Devices, keys: map<nat, nat>, steps: seq<Step>) returns (daemon: Daemon)
    requires (forall v :: v in keys ==> keys[v] <= KEY_MAX) && Legal(Start(d, keys), steps)
    ensures daemon.Valid() && daemon.Now() == Run(Start(d, keys), steps)
    ensures var f := daemon.synth.forwarder.State();
            && (forall c :: Wanted(f, c) && c !in f.orphans ==> c in f.sink.down)
            && (f.sink.Up() ==> forall c :: c in f.sink.down ==> Wanted(f, c))
    ensures forall c :: c in daemon.synth.forwarder.sink.synth <==>
              c in Bits(daemon.synth.applied.support) && c !in daemon.synth.onAbs
  {
    hide ClaimTable.Valid, Run, Legal, Start;
    daemon := new Daemon(d, keys);
    daemon.Play(steps);
    SinkHoldsWhatIsWanted(d, keys, steps);
    SynthesisBitsAgreeWithClaims(d, keys, steps);
    SupportIs(daemon.synth.applied);
  }

  lemma SupportIs(t: ClaimTable)
    requires t.Valid()
    ensures forall c :: c in Bits(t.support) <==> Held(t.table, c)
  {
    hide Consistent, Bits;
    forall c
      ensures c in Bits(t.support) <==> Held(t.table, c)
    {
      ConsistentHeld(t.claims[..t.used], t.holders[..], t.held, t.table, c);
    }
  }
}
