/** One view's key state on its own: what each queued action means for the sources'
    key sets and the claims, with no sink, no clone and no write to fail. */
module ViewModel {
  import opened Codes
  import opened Claims
  import opened Forwarding
  import opened Synthesis
  import opened Broker
  import opened Pointwise

  datatype Source = Source(target: nat, keyboard: bool, clone: bool, keys: Keys)

  datatype ViewState = ViewState(slots: seq<Option<Source>>, claims: Table)

  function Locate(slots: seq<Option<Source>>, target: nat): (r: Option<nat>)
    ensures r.Some? ==> r.value < |slots| && slots[r.value].Some?
  {
    var low := target % 256;
    if low == 0 || low > |slots| then None
    else if slots[low - 1].Some? && slots[low - 1].value.target == target then Some(low - 1) else None
  }

  function SetKeys(slots: seq<Option<Source>>, i: nat, keys: Keys): seq<Option<Source>>
    requires i < |slots| && slots[i].Some?
  {
    slots[i := Some(slots[i].value.(keys := keys))]
  }

  function NoteSource(k: Keys, p: Packet): Keys {
    if KeyOf(p).Some? then NoteEvent(k, KeyOf(p).value, true) else k
  }

  function NotePacket(slots: seq<Option<Source>>, p: Packet, source: bool): seq<Option<Source>> {
    match Locate(slots, p.target)
    case None => slots
    case Some(i) =>
      var k := slots[i].value.keys;
      SetKeys(slots, i, if source then NoteSource(k, p) else PacketOutput(k, p))
  }

  function ShiftSource(s: Option<Source>, code: nat, restore: bool): Option<Source> {
    if s.None? || code > KEY_MAX then s else Some(s.value.(keys := ShiftKeys(s.value.keys, code, restore)))
  }

  function ShiftAll(slots: seq<Option<Source>>, code: nat, restore: bool): seq<Option<Source>> {
    seq(|slots|, i requires 0 <= i < |slots| => ShiftSource(slots[i], code, restore))
  }

  predicate HasDisplaced(s: Option<Source>, code: nat) {
    s.Some? && (code in s.value.keys.displaced || ButtonAlias(code) in s.value.keys.displaced)
  }

  predicate Restorable(slots: seq<Option<Source>>, code: nat) {
    code <= KEY_MAX && exists i :: 0 <= i < |slots| && HasDisplaced(slots[i], code)
  }

  function EmptySource(s: Option<Source>): Option<Source> {
    if s.None? then s else Some(s.value.(keys := Keys({}, s.value.keys.source, {})))
  }

  function EmptyAll(slots: seq<Option<Source>>): seq<Option<Source>> {
    seq(|slots|, i requires 0 <= i < |slots| => EmptySource(slots[i]))
  }

  /** The grab's holds that the source still has stay, and nothing is restored. */
  function EndSource(s: Source, next: nat): Source {
    s.(target := next, keys := Keys(s.keys.output * s.keys.source, s.keys.source, {}))
  }

  function EndSlot(slots: seq<Option<Source>>, next: nat): seq<Option<Source>> {
    var low := next % 256;
    if low == 0 || low > |slots| || slots[low - 1].None? || slots[low - 1].value.target >= next then slots
    else slots[low - 1 := Some(EndSource(slots[low - 1].value, next))]
  }

  function CloseSlot(slots: seq<Option<Source>>, target: nat): seq<Option<Source>> {
    match Locate(slots, target)
    case None => slots
    case Some(i) => slots[i := None]
  }

  predicate Gone(slots: seq<Option<Source>>, o: Owner) { o.target != 0 && Locate(slots, o.target).None? }

  /** Claims of grabs that ended are nobody's. */
  function Swept(v: ViewState): ViewState {
    v.(claims := map o | o in v.claims && !Gone(v.slots, o) :: v.claims[o])
  }

  function PressOrRelease(v: ViewState, code: nat, down: bool, restore: bool, o: Owner): ViewState {
    if down then
      if restore && Restorable(v.slots, code) then v.(slots := ShiftAll(v.slots, code, true))
      else v.(claims := Hold(v.claims, o, code))
    else if Holds(v.claims, o, code) then v.(claims := DropKey(v.claims, o, code))
    else ViewState(ShiftAll(v.slots, code, false), ReleaseCode(v.claims, code))
  }

  function Buttons(v: ViewState, ts: seq<Transition>, moved: bool, o: Owner): ViewState
    decreases |ts|
  {
    if ts == [] then v
    else
      var w := if ts[0].button.None? then v else PressOrRelease(v, ts[0].button.value, ts[0].down, !moved, o);
      Buttons(w, ts[1..], moved, o)
  }

  function OneInput(vkTable: map<nat, nat>, v: ViewState, i: Input, moved: bool, o: Owner): ViewState {
    match i
    case Mouse(_, _, _, _, _, _) => Buttons(v, Transitions(i), moved || MovesAbsolutely(i), o)
    case Keyboard(_, _, flags, _, _) =>
      match Resolve(vkTable, i)
      case None => v
      case Some(code) => PressOrRelease(v, CanonicalButton(code), Up !in flags, true, o)
  }

  function AllInputs(vkTable: map<nat, nat>, v: ViewState, inputs: seq<Input>, dead: bool, moved: bool,
                     o: Owner): ViewState
    decreases |inputs|
  {
    if inputs == [] then v
    else
      match Played(inputs[0], dead)
      case None => AllInputs(vkTable, v, inputs[1..], dead, moved, o)
      case Some(i) =>
        AllInputs(vkTable, OneInput(vkTable, v, i, moved, o), inputs[1..], dead, moved || MovesAbsolutely(i), o)
  }

  /** What an action means for a view that has no dead claims. */
  function Meaning(vkTable: map<nat, nat>, v: ViewState, a: Action): ViewState {
    match a
    case SourceState(p) => v.(slots := NotePacket(v.slots, p, true))
    case Replay(p) => ViewState(NotePacket(v.slots, p, false), ReleaseByPacket(v.claims, p, |p.events|))
    case Synth(inputs, _, owner) => AllInputs(vkTable, v, inputs, Gone(v.slots, owner), false, owner)
    case ReleaseOwner(filter) => v.(claims := DropMatching(v.claims, filter))
    case ReleaseAll => ViewState(EmptyAll(v.slots), map[])
    case ReleaseSynth => v.(claims := map[])
    case RecreateSynth(_) => v.(claims := map[])
    case EndOf(next) => v.(slots := EndSlot(v.slots, next))
    case CloseOf(target) => v.(slots := CloseSlot(v.slots, target))
  }

  function Mirror(vkTable: map<nat, nat>, v: ViewState, a: Action): ViewState { Swept(Meaning(vkTable, v, a)) }

  /** The view once everything queued has been mirrored. */
  function Drained(vkTable: map<nat, nat>, v: ViewState, queue: seq<Action>): ViewState
    decreases |queue|
  {
    if queue == [] then v else Drained(vkTable, Mirror(vkTable, v, queue[0]), queue[1..])
  }

  // ---------------------------------------------------------------- projection

  function SlotAt(d: Device, view: View): Option<Source> {
    if !d.Live() || (view.Enqueued? && d.closing) then None
      else Some(Source(d.Target(view), d.keyboard, d.clone, d.At(view)))
  }

  function SlotsAt(f: Forward, view: View): (r: seq<Option<Source>>)
    ensures |r| == |f.devices|
  {
    seq(|f.devices|, i requires 0 <= i < |f.devices| => SlotAt(f.devices[i], view))
  }

  function Written(m: Machine): ViewState { ViewState(SlotsAt(m.fwd, Applied), m.applied) }

  function Admitted(m: Machine): ViewState { ViewState(SlotsAt(m.fwd, Enqueued), m.enqueued) }
}
