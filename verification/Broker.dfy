/** The whole broker as a state machine: the reader opens and ends sources, output is
    admitted to a queue, and the sequencer writes it in queue order. */
module Broker {
  import opened Codes
  import opened Claims
  import opened Forwarding
  import opened Synthesis

  /** What the reader knows of the source a target names. */
  datatype Kind = Kind(keyboard: bool, clone: bool)

  datatype Action =
    | SourceState(p: Packet)
    | Replay(p: Packet)
    | Synth(inputs: seq<Input>, continues: bool, owner: Owner)
    | ReleaseOwner(filter: Owner)
    | ReleaseAll
    | ReleaseSynth
    | RecreateSynth(devices: Devices)
    | EndOf(next: nat)
    | CloseOf(target: nat)

  datatype Step =
    | OpenSource(keyboard: bool, clone: bool, budget: Budget)
    | Admit(a: Action)
    | AdmitEnd(target: nat, queued: bool)
    | AdmitClose(target: nat, queued: bool)
    | ApplyNext
    | Query
    | Idle
    | CollectSlot(i: nat)

  datatype State = State(m: Machine, queue: seq<Action>, kinds: map<nat, Kind>)

  /** Admission moves the ENQUEUED view. */
  function AdmitAction(m: Machine, a: Action): Machine {
    match a
    case SourceState(p) => m.(fwd := NoteKeys(m.fwd, p, Enqueued, true))
    case Replay(p) =>
      m.(fwd := NoteKeys(m.fwd, p, Enqueued, false), enqueued := ReleaseByPacket(m.enqueued, p, |p.events|))
    case Synth(inputs, _, owner) => NoteSynth(m, inputs, owner)
    case ReleaseOwner(filter) => m.(enqueued := DropMatching(m.enqueued, filter))
    case ReleaseAll => m.(enqueued := map[], fwd := ReleaseAllFrom(m.fwd, 0, Enqueued))
    case ReleaseSynth => m.(enqueued := map[])
    case RecreateSynth(_) => m.(enqueued := map[])
    case EndOf(_) => m
    case CloseOf(_) => m
  }

  /** The sequencer moves the APPLIED view and writes. */
  function WriteAction(m: Machine, a: Action): Machine {
    match a
    case SourceState(p) => m.(fwd := NoteKeys(m.fwd, p, Applied, true))
    case Replay(p) => SetApplied(m.(fwd := Write(m.fwd, p)), ReleaseByPacket(m.applied, p, |p.events|))
    case Synth(inputs, continues, owner) => SendBatch(m, inputs, continues, owner)
    case ReleaseOwner(filter) => SetApplied(m, DropMatching(m.applied, filter))
    case ReleaseAll => var g := ReleaseGeneric(m); g.(fwd := ReleaseAllFrom(g.fwd, 0, Applied))
    case ReleaseSynth => ReleaseGeneric(m)
    case RecreateSynth(devices) => Recreate(m, devices)
    case EndOf(next) => m.(fwd := ApplyEndGrab(m.fwd, next, None))
    case CloseOf(target) => m.(fwd := ApplyClose(m.fwd, target))
  }

  function Learn(kinds: map<nat, Kind>, before: Forward, after: Forward, kind: Kind, i: nat): map<nat, Kind> {
    if after.serial == before.serial then kinds else kinds[MakeTarget(before.serial, i) := kind]
  }

  function Opening(s: State, keyboard: bool, clone: bool, budget: Budget): State {
    var f := s.m.fwd;
    var g := Open(f, keyboard, clone, budget);
    s.(m := s.m.(fwd := g), kinds := Learn(s.kinds, f, g, Kind(keyboard, clone), FirstFree(f.devices, 0)))
  }

  /** The end of a grab moves admitted output now, and written output in queue order,
      or now as well if the queue is full. */
  function Ending(s: State, target: nat, queued: bool): State
    requires Find(s.m.fwd, target, Enqueued).Some?
  {
    var f := s.m.fwd;
    var i := Find(f, target, Enqueued).value;
    var held := f.devices[i].enqueued.source;
    var next := MakeTarget(f.serial, i);
    var g := EndGrab(f, target);
    State(s.m.(fwd := if queued then g else ApplyEndGrab(g, next, Some(held))),
          if queued then s.queue + [EndOf(next)] else s.queue,
          s.kinds[next := Kind(f.devices[i].keyboard, f.devices[i].clone)])
  }

  function Closing(s: State, target: nat, queued: bool): State {
    var g := Close(s.m.fwd, target);
    s.(m := s.m.(fwd := if queued then g else ApplyClose(g, target)),
       queue := if queued then s.queue + [CloseOf(target)] else s.queue)
  }

  predicate PacketAllowed(s: State, p: Packet) {
    PacketOk(p) && p.target in s.kinds && Suits(s.kinds[p.target].keyboard, s.kinds[p.target].clone, p)
  }

  predicate ActionAllowed(s: State, a: Action) {
    match a
    case SourceState(p) => PacketAllowed(s, p)
    case Replay(p) => PacketAllowed(s, p)
    case EndOf(_) => false
    case CloseOf(_) => false
    case _ => true
  }

  /** The reader ends and closes only a grab it holds the target of. */
  predicate Enabled(s: State, step: Step) {
    match step
    case Admit(a) => ActionAllowed(s, a)
    case AdmitEnd(target, _) => Find(s.m.fwd, target, Enqueued).Some?
    case AdmitClose(target, _) => Find(s.m.fwd, target, Enqueued).Some?
    case ApplyNext => s.queue != []
    case _ => true
  }

  function Next(s: State, step: Step): State
    requires Enabled(s, step)
  {
    match step
    case OpenSource(keyboard, clone, budget) => Opening(s, keyboard, clone, budget)
    case Admit(a) => s.(m := AdmitAction(s.m, a), queue := s.queue + [a])
    case AdmitEnd(target, queued) => Ending(s, target, queued)
    case AdmitClose(target, queued) => Closing(s, target, queued)
    case ApplyNext => s.(m := Maintain(WriteAction(s.m, s.queue[0])), queue := s.queue[1..])
    case Query => s.(m := SweepEnqueued(s.m))
    case Idle => s.(m := Maintain(s.m))
    case CollectSlot(i) => s.(m := s.m.(fwd := Collect(s.m.fwd, i)))
  }

  predicate Legal(s: State, steps: seq<Step>)
    decreases |steps|
  {
    steps == [] || (Enabled(s, steps[0]) && Legal(Next(s, steps[0]), steps[1..]))
  }

  function Run(s: State, steps: seq<Step>): State
    requires Legal(s, steps)
    decreases |steps|
  {
    if steps == [] then s else Run(Next(s, steps[0]), steps[1..])
  }

  /** No source, no hold, and devices as they came up. */
  function Start(d: Devices, vkTable: map<nat, nat>): State {
    State(Machine(Forward(seq(SLOTS, _ => FREE), 1, 0, Sink(d.attached, false, d.sinkBudget, {}, {}), [], 0, {}),
                  map[], 0, map[], 0, {}, d.attached && d.absReady, !d.attached, d.budget, 0, 0, 0, vkTable), [], map[])
  }
}
