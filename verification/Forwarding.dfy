/** Forwarded sources and the sink, as functions on values: one function per
    operation of src/platform/linux_forward.c. `Forwarder` is the in-place form. */
module Forwarding {
  import opened Codes

  /** A position in the output queue: what was written, and what was admitted. */
  datatype View = Applied | Enqueued

  /** How many more writes the kernel accepts on a descriptor. A failure latches,
      so every pattern of failures is some budget. */
  datatype Budget = Endless | Left(n: nat) {
    predicate Accepts() { Endless? || n > 0 }
    function Spend(): Budget { if Left? && n > 0 then Left(n - 1) else this }
  }

  datatype Keys = Keys(output: set<nat>, source: set<nat>, displaced: set<nat>)
  const NO_KEYS := Keys({}, {}, {})

  /** One grabbed source's slot. `clone` says it has an output of its own. */
  datatype Device = Device(targetA: nat, targetE: nat, open: bool, closing: bool, keyboard: bool,
                           clone: bool, failed: bool, retiring: bool, budget: Budget,
                           applied: Keys, enqueued: Keys) {
    predicate Live() { open && !retiring }
    function Target(view: View): nat { if view.Applied? then targetA else targetE }
    function At(view: View): Keys { if view.Applied? then applied else enqueued }
    function With(view: View, keys: Keys): Device {
      if view.Applied? then this.(applied := keys) else this.(enqueued := keys)
    }
    function Aim(view: View, target: nat): Device {
      if view.Applied? then this.(targetA := target) else this.(targetE := target)
    }
    predicate OnSink(code: nat) { keyboard && IsKeyboardKey(code) }
    predicate HoldsOnSink(code: nat) { Live() && OnSink(code) && code in applied.output }
  }

  const FREE := Device(0, 0, false, false, false, false, false, false, Endless, NO_KEYS, NO_KEYS)
  const SLOTS := 128

  /** An event accepted by an output. A sink event also records whether anyone
      wanted its key at that moment. */
  datatype Out =
    | ToSink(event: Event, wanted: bool)
    | ToClone(slot: nat, event: Event)
    | ToPointer(event: Event)
    | ToAbsolute(event: Event)

  datatype Sink = Sink(attached: bool, failed: bool, budget: Budget, down: set<nat>, synth: set<nat>) {
    predicate Up() { attached && !failed }
    predicate Accepts() { Up() && budget.Accepts() }
    /** Attached, and never refusing a write. */
    predicate Steady() { Up() && budget.Endless? }
  }

  /** trace[mark..] is what was written since the sink was attached, and orphans
      are the keys live sources held at that moment. */
  datatype Forward = Forward(devices: seq<Device>, serial: nat, epoch: nat, sink: Sink,
                             trace: seq<Out>, mark: nat, orphans: set<nat>)

  datatype Packet = Packet(target: nat, events: seq<Event>, suppressed: bool, clone: bool)

  /** What operations on key sets leave alone. */
  predicate Quiet(f: Forward, g: Forward) {
    && |g.devices| == |f.devices| && g.serial == f.serial && g.epoch == f.epoch
    && g.mark == f.mark && g.orphans == f.orphans
    && g.sink.synth == f.sink.synth && g.sink.attached == f.sink.attached
    && (f.sink.Steady() ==> g.sink.Steady())
  }

  // ---------------------------------------------------------------- targets

  function MakeTarget(serial: nat, slot: nat): nat { serial * 256 + slot + 1 }

  /** The slot a target names, whether or not it still names that slot's grab. */
  function SlotOf(f: Forward, target: nat): Option<nat> {
    var low := target % 256;
    if low == 0 || low > |f.devices| then None else Some(low - 1)
  }

  function Find(f: Forward, target: nat, view: View): (r: Option<nat>)
    ensures r.Some? ==> r.value < |f.devices|
  {
    match SlotOf(f, target)
    case None => None
    case Some(i) => if f.devices[i].Target(view) == target && !f.devices[i].retiring then Some(i) else None
  }

  // ---------------------------------------------------------------- the sink

  predicate HeldBySources(devices: seq<Device>, code: nat) {
    exists i :: 0 <= i < |devices| && devices[i].HoldsOnSink(code)
  }

  predicate Wanted(f: Forward, code: nat) {
    code in f.sink.synth || HeldBySources(f.devices, code)
  }

  function NoteKey(keys: set<nat>, e: Event, ok: bool): set<nat> {
    if e.IsKey() && e.value != 2 && (ok || e.value != 0)
    then (if e.value != 0 then keys + {e.code} else keys - {e.code})
    else keys
  }

  /** The keys an output has down after a report: a refused report counts its presses only. */
  function NoteWritten(keys: set<nat>, events: seq<Event>, ok: bool): set<nat> {
    if events == [] then keys
    else NoteKey(NoteWritten(keys, events[..|events| - 1], ok), events[|events| - 1], ok)
  }

  function Stamp(f: Forward, events: seq<Event>): (r: seq<Out>)
    ensures |r| == |events|
  {
    seq(|events|, i requires 0 <= i < |events| => ToSink(events[i], Wanted(f, events[i].code)))
  }

  function WriteSink(f: Forward, events: seq<Event>): (r: Forward)
    ensures r.devices == f.devices
    ensures Quiet(f, r)
  {
    var s := f.sink;
    f.(sink := s.(failed := s.failed || (s.Up() && !s.budget.Accepts()),
                  budget := if s.Up() then s.budget.Spend() else s.budget,
                  down := NoteWritten(s.down, events, s.Accepts())),
       trace := if s.Accepts() then f.trace + Stamp(f, events) else f.trace)
  }

  predicate NeedsRepress(f: Forward, code: nat) {
    !IsModifierOrLock(code) && IsKeyboardKey(code) && code in f.sink.down
  }

  function Tap(f: Forward, code: nat): (r: Forward)
    ensures r.devices == f.devices && Quiet(f, r)
  {
    var down := if code in f.sink.down then 1 else 0;
    WriteSink(f, [KeyEvent(code, 1 - down), KeyEvent(code, down)])
  }

  /** The sink already shows what its holders want of code. */
  predicate InLine(f: Forward, code: nat) { Wanted(f, code) <==> code in f.sink.down }

  function Reconcile(f: Forward, code: nat): (r: Forward)
    ensures r.devices == f.devices
    ensures Quiet(f, r)
  {
    if InLine(f, code) then f else WriteSink(f, [KeyEvent(code, if Wanted(f, code) then 1 else 0)])
  }

  /** Whether Reconcile reports success. */
  predicate ReconcileOk(f: Forward, code: nat) { InLine(f, code) || f.sink.Accepts() }

  function SinkKey(f: Forward, code: nat, held: bool): (r: Forward)
    ensures r.devices == f.devices && Quiet(f, r.(sink := r.sink.(synth := f.sink.synth)))
  {
    if code > KEY_MAX then f
    else Reconcile(f.(sink := f.sink.(synth := if held then f.sink.synth + {code} else f.sink.synth - {code})), code)
  }

  function Repress(f: Forward, code: nat): (r: Forward)
    ensures r.devices == f.devices && Quiet(f, r)
  {
    if code <= KEY_MAX && NeedsRepress(f, code) then Tap(f, code) else f
  }

  /** Ends synthesis's holds of the keys from code up, lowest first. */
  function ClearSynth(f: Forward, code: nat): (r: Forward)
    ensures r.devices == f.devices && Quiet(f, r.(sink := r.sink.(synth := f.sink.synth)))
    decreases KEY_MAX + 1 - code
  {
    if code > KEY_MAX then f
    else ClearSynth(if code in f.sink.synth then SinkKey(f, code, false) else f, code + 1)
  }

  /** The sink is replaced by one that has no key down. */
  function AttachSink(f: Forward, attached: bool, budget: Budget): Forward {
    f.(sink := Sink(attached, false, budget, {}, {}), mark := |f.trace|,
       orphans := set c | 0 <= c <= KEY_MAX && HeldBySources(f.devices, c))
  }

  // ---------------------------------------------------------------- key sets

  function SetDevice(f: Forward, i: nat, d: Device): Forward
    requires i < |f.devices|
  {
    f.(devices := f.devices[i := d])
  }

  function WriteClone(f: Forward, i: nat, events: seq<Event>): (r: Forward)
    requires i < |f.devices|
    ensures Quiet(f, r)
  {
    var d := f.devices[i];
    if d.failed then f
    else if d.budget.Accepts() then
      var outs := seq(|events|, k requires 0 <= k < |events| => ToClone(i, events[k]));
      SetDevice(f, i, d.(budget := d.budget.Spend())).(trace := f.trace + outs)
    else SetDevice(f, i, d.(failed := true))
  }

  function Toggle(keys: set<nat>, code: nat, on: bool): set<nat> {
    if on then keys + {code} else keys - {code}
  }

  /** Puts a key into or out of a source's output set; in the written view its output is told. */
  function SetOutput(f: Forward, i: nat, view: View, code: nat, held: bool): (r: Forward)
    requires i < |f.devices|
    ensures Quiet(f, r)
  {
    var d := f.devices[i];
    var k := d.At(view);
    var g := SetDevice(f, i, d.With(view, k.(output := Toggle(k.output, code, held))));
    if view.Enqueued? then g
    else if d.OnSink(code) then Reconcile(g, code)
    else if d.clone then WriteClone(g, i, [KeyEvent(code, if held then 1 else 0)])
    else g
  }

  /** Releases the outputs from code up that are not in keep, lowest first. */
  function ReleaseFrom(f: Forward, i: nat, view: View, keep: set<nat>, code: nat): (r: Forward)
    requires i < |f.devices|
    ensures Quiet(f, r)
    decreases KEY_MAX + 1 - code
  {
    if code > KEY_MAX then f
    else
      var g := if code in f.devices[i].At(view).output && code !in keep then SetOutput(f, i, view, code, false) else f;
      ReleaseFrom(g, i, view, keep, code + 1)
  }

  function KeepDisplaced(f: Forward, i: nat, view: View, keep: set<nat>): (r: Forward)
    requires i < |f.devices|
    ensures Quiet(f, r)
  {
    var k := f.devices[i].At(view);
    SetDevice(f, i, f.devices[i].With(view, k.(displaced := k.displaced * keep)))
  }

  /** Empties a source's output and displaced sets of everything outside keep. */
  function ReleaseOutputs(f: Forward, i: nat, view: View, keep: set<nat>): (r: Forward)
    requires i < |f.devices|
    ensures Quiet(f, r)
  {
    KeepDisplaced(ReleaseFrom(f, i, view, keep, 0), i, view, keep)
  }

  /** Ends a grab in one view, keeping the holds in keep and aiming the slot at next. */
  function EndGrabAt(f: Forward, i: nat, view: View, keep: set<nat>, next: nat): (r: Forward)
    requires i < |f.devices|
    ensures |r.devices| == |f.devices|
  {
    var g := KeepDisplaced(ReleaseOutputs(f, i, view, keep), i, view, {});
    SetDevice(g, i, g.devices[i].Aim(view, next)).(epoch := g.epoch + 1)
  }

  /** A grab ends in the admitted view, and its slot is given a fresh target. */
  function EndGrab(f: Forward, target: nat): Forward {
    match Find(f, target, Enqueued)
    case None => f
    case Some(i) =>
      EndGrabAt(f, i, Enqueued, f.devices[i].enqueued.source, MakeTarget(f.serial, i)).(serial := f.serial + 1)
  }

  /** A grab ends in the written view, unless the slot is past it. The kept keys are held, or
      what this view has recorded of the source. */
  function ApplyEndGrab(f: Forward, next: nat, held: Option<set<nat>>): Forward {
    match SlotOf(f, next)
    case None => f
    case Some(i) =>
      var d := f.devices[i];
      if d.Live() && d.targetA < next
      then EndGrabAt(f, i, Applied, if held.Some? then held.value else d.applied.source, next)
      else f
  }

  function FirstFree(devices: seq<Device>, i: nat): (r: nat)
    requires i <= |devices|
    ensures i <= r <= |devices|
    ensures forall j :: i <= j < r ==> devices[j].open
    ensures r < |devices| ==> !devices[r].open
    decreases |devices| - i
  {
    if i == |devices| || !devices[i].open then i else FirstFree(devices, i + 1)
  }

  function Opened(target: nat, keyboard: bool, clone: bool, budget: Budget): Device {
    Device(target, target, true, false, keyboard, clone, false, false, budget, NO_KEYS, NO_KEYS)
  }

  function Open(f: Forward, keyboard: bool, clone: bool, budget: Budget): Forward {
    var i := FirstFree(f.devices, 0);
    if i == |f.devices| then f
    else SetDevice(f, i, Opened(MakeTarget(f.serial, i), keyboard, clone, budget)).(serial := f.serial + 1)
  }

  function Close(f: Forward, target: nat): Forward {
    match Find(f, target, Enqueued)
    case None => f
    case Some(i) =>
      SetDevice(f, i, f.devices[i].(enqueued := NO_KEYS, targetE := 0, closing := true)).(epoch := f.epoch + 1)
  }

  function ApplyClose(f: Forward, target: nat): Forward {
    match SlotOf(f, target)
    case None => f
    case Some(i) =>
      if f.devices[i].closing && f.devices[i].Live() then
        var g := ReleaseOutputs(f, i, Applied, {});
        var d := g.devices[i];
        SetDevice(g, i, if d.clone then d.(applied := NO_KEYS, enqueued := NO_KEYS, retiring := true) else FREE)
        .(epoch := g.epoch + 1)
      else f
  }

  /** Frees the slot of a clone whose readers have drained it. */
  function Collect(f: Forward, i: nat): Forward {
    if i < |f.devices| && f.devices[i].retiring then SetDevice(f, i, FREE) else f
  }

  function ShiftOne(f: Forward, i: nat, code: nat, view: View, restore: bool): (r: Forward)
    requires i < |f.devices|
    ensures Quiet(f, r)
  {
    var d := f.devices[i];
    var k := d.At(view);
    if !d.Live() || code !in (if restore then k.displaced else k.output) then f
    else
      var moved := k.(displaced := Toggle(k.displaced, code, !restore && code in k.source));
      SetOutput(SetDevice(f, i, d.With(view, moved)), i, view, code, restore)
  }

  /** Code and then its alias, on one source. */
  function ShiftSlot(f: Forward, i: nat, code: nat, view: View, restore: bool): (r: Forward)
    requires i < |f.devices|
    ensures Quiet(f, r)
  {
    var g := ShiftOne(f, i, code, view, restore);
    if ButtonAlias(code) != code then ShiftOne(g, i, ButtonAlias(code), view, restore) else g
  }

  function ShiftFrom(f: Forward, i: nat, code: nat, view: View, restore: bool): (r: Forward)
    requires i <= |f.devices|
    ensures Quiet(f, r)
    decreases |f.devices| - i
  {
    if i == |f.devices| then f else ShiftFrom(ShiftSlot(f, i, code, view, restore), i + 1, code, view, restore)
  }

  /** Displaces a key, under both its codes, on every source that outputs it, or undoes that. */
  function ShiftKey(f: Forward, code: nat, view: View, restore: bool): (r: Forward)
    ensures Quiet(f, r)
  {
    if code > KEY_MAX then f else ShiftFrom(f, 0, code, view, restore)
  }

  predicate Shifts(d: Device, code: nat, view: View, restore: bool) {
    var from := if restore then d.At(view).displaced else d.At(view).output;
    d.Live() && (code in from || ButtonAlias(code) in from)
  }

  /** Whether ShiftKey changes any source. */
  predicate ShiftsAny(f: Forward, code: nat, view: View, restore: bool) {
    code <= KEY_MAX && exists i :: 0 <= i < |f.devices| && Shifts(f.devices[i], code, view, restore)
  }

  function ReleaseAllFrom(f: Forward, i: nat, view: View): (r: Forward)
    requires i <= |f.devices|
    ensures Quiet(f, r)
    decreases |f.devices| - i
  {
    if i == |f.devices| then f
    else ReleaseAllFrom(if f.devices[i].Live() then ReleaseOutputs(f, i, view, {}) else f, i + 1, view)
  }

  // ---------------------------------------------------------------- packets

  /** The key a packet ends with. */
  function KeyOf(p: Packet): Option<Event> {
    if p.events != [] && p.events[|p.events| - 1].IsKey() then Some(p.events[|p.events| - 1]) else None
  }

  /** What the reader builds: at most two events, of which only the last is a key,
      with a value evdev can report. */
  predicate PacketOk(p: Packet) {
    && |p.events| <= 2
    && (forall i :: 0 <= i < |p.events| - 1 ==> p.events[i].kind != EV_KEY)
    && (forall i :: 0 <= i < |p.events| && p.events[i].kind == EV_KEY ==> 0 <= p.events[i].value <= 2)
  }

  /** The packet goes to an output its source has, and keyboard keys of a keyboard
      source go to the sink. */
  predicate Suits(keyboard: bool, clone: bool, p: Packet) {
    if p.clone then clone && (KeyOf(p).Some? ==> !(keyboard && IsKeyboardKey(KeyOf(p).value.code))) else keyboard
  }

  function WriteToSink(f: Forward, i: nat, p: Packet): (r: Forward)
    requires i < |f.devices|
    ensures Quiet(f, r)
  {
    var d := f.devices[i];
    match KeyOf(p)
    case None => WriteSink(f, p.events)
    case Some(key) =>
      var repress := key.value == 1 && NeedsRepress(f, key.code);
      var g := if key.value == 2 then f
               else SetDevice(f, i,
                 d.(applied := d.applied.(output := Toggle(d.applied.output, key.code, key.value != 0))));
      if !repress && (if key.value == 2 then key.code !in g.sink.down else InLine(g, key.code)) then g
      else if !repress then WriteSink(g, p.events)
      else
        var h := WriteSink(g, [KeyEvent(key.code, 0)]);
        if g.sink.Accepts() then WriteSink(h, p.events) else h
  }

  function WriteToClone(f: Forward, i: nat, p: Packet): (r: Forward)
    requires i < |f.devices|
    ensures Quiet(f, r)
  {
    var ok := !f.devices[i].failed && f.devices[i].budget.Accepts();
    var g := WriteClone(f, i, p.events);
    var d := g.devices[i];
    SetDevice(g, i, d.(applied := d.applied.(output := NoteWritten(d.applied.output, p.events, ok))))
  }

  /** A packet reaches the sink or its source's clone. A release of a key that is
      not in the source's output set only brings the sink in line. */
  function Write(f: Forward, p: Packet): (r: Forward)
    ensures Quiet(f, r)
  {
    if |p.events| > 2 then f else
    match Find(f, p.target, Applied)
    case None => f
    case Some(i) =>
      var d := f.devices[i];
      var key := KeyOf(p);
      if !(if p.clone then d.clone else d.keyboard) then f
      else if key.Some? && key.value.value == 0 && key.value.code !in d.applied.output
              && ButtonAlias(key.value.code) !in d.applied.output
      then (if p.clone then f else Reconcile(f, key.value.code))
      else if p.clone then WriteToClone(f, i, p)
      else WriteToSink(f, i, p)
  }

  function NoteEvent(k: Keys, e: Event, source: bool): Keys {
    if !e.IsKey() || e.value == 2 then k
    else if !source then k.(output := Toggle(k.output, e.code, e.value != 0))
    else k.(source := Toggle(k.source, e.code, e.value != 0),
            displaced := if e.value == 0 then k.displaced - {e.code} else k.displaced)
  }

  function NoteEvents(k: Keys, events: seq<Event>, source: bool): Keys {
    if events == [] then k
    else NoteEvent(NoteEvents(k, events[..|events| - 1], source), events[|events| - 1], source)
  }

  /** Records the keys of a packet in a view: in the source set, where a release also drops
      the key from the displaced set, or in the output set. */
  function NoteKeys(f: Forward, p: Packet, view: View, source: bool): (r: Forward)
    ensures Quiet(f, r)
  {
    if |p.events| > 2
       || !(exists i :: 0 <= i < |p.events| && p.events[i].kind == EV_KEY && 0 <= p.events[i].value <= 1) then f else
    match Find(f, p.target, view)
    case None => f
    case Some(i) =>
      var d := f.devices[i];
      SetDevice(f, i, d.With(view, NoteEvents(d.At(view), p.events, source)))
  }
}
