/** The boundary between a source's own node and its forwarded outputs: when a grab may
    start, what is owed to the outputs after it ends, and what a refused admission leaves. */
module GrabBoundary {
  import opened Codes
  import opened Forwarding
  import opened Pointwise

  /** Whether the daemon admitted a packet's source state, and its replay. */
  datatype Verdict = Verdict(source: bool, replay: bool) {
    predicate Both() { source && replay }
  }

  /** A replay that waits in a hook lane, with the target it was read under. */
  datatype Waiting = Waiting(target: nat, code: nat, value: nat)

  /** A part of a packet that the output queue took. */
  datatype Admission = Admission(source: bool, target: nat, code: nat, value: nat)

  /** One source of the reader. `enqueued` are its slot's admitted key sets, `owed` the keys
      its outputs kept at the ungrab, `lane` the replays no hook has decided yet, and
      `admitted` everything the queue took of it. A target of 0 is no slot. */
  datatype Reader = Reader(open: bool, target: nat, serial: nat, grabbed: bool, deferred: bool, deferredDown: set<nat>,
                           owed: set<nat>, enqueued: Keys, lane: seq<Waiting>, admitted: seq<Admission>)

  /** What is still queued on the source's node: a key event, or the loss of the node. */
  datatype Queued = KeyIn(code: nat, value: nat, verdict: Verdict) | Lost

  /** What the kernel, the outputs and the daemon answer during one call. */
  datatype World = World(needs: bool, failed: bool, usable: bool, downstream: bool,
                         first: Option<set<nat>>, second: Option<set<nat>>, settle: Option<set<nat>>,
                         queued: seq<Queued>, verdict: nat -> Verdict, grabOk: bool, ungrabOk: bool)

  datatype Step =
    | Arrives(q: Queued)
    | Decide(k: nat, admitted: bool)
    | SetGrab(enabled: bool, world: World)
    | Settle(keys: Option<set<nat>>, verdict: nat -> Verdict)
    | Shift(code: nat, restore: bool)
    | ReleaseAll
    | Close
    | Reopen(forwarded: bool)

  // ---------------------------------------------------------------- events

  function Closed(r: Reader): Reader {
    Reader(false, 0, r.serial, false, false, {}, {}, NO_KEYS, r.lane, r.admitted)
  }

  /** The queue takes one part of a packet; it counts only for the slot's present grab. */
  function AdmitPart(r: Reader, source: bool, target: nat, code: nat, value: nat): Reader {
    r.(enqueued := if target == r.target then NoteEvent(r.enqueued, KeyEvent(code, value), source) else r.enqueued,
       admitted := r.admitted + [Admission(source, target, code, value)])
  }

  /** A key event read under a grab: the source's state at once, its replay by way of a lane. */
  function ForwardKey(r: Reader, code: nat, value: nat, admitted: bool): Reader {
    var a := if admitted then AdmitPart(r, true, r.target, code, value) else r;
    a.(lane := a.lane + [Waiting(r.target, code, value)])
  }

  /** A hook decides a waiting replay, and the queue may take it. */
  function Decided(r: Reader, k: nat, admitted: bool): Reader {
    if k >= |r.lane| then r
    else
      var w, a := r.lane[k], r.(lane := r.lane[..k] + r.lane[k + 1..]);
      if admitted then AdmitPart(a, false, w.target, w.code, w.value) else a
  }

  /** A release after the ungrab goes straight to the queue, its source part first, and stays
      owed unless the queue took both parts. */
  function ReleaseOwed(r: Reader, code: nat, value: nat, verdict: Verdict): Reader {
    if value != 0 || code > KEY_MAX || code !in r.owed then r
    else
      var a := if verdict.source then AdmitPart(r, true, r.target, code, 0) else r;
      if verdict.Both() then AdmitPart(a, false, r.target, code, 0).(owed := r.owed - {code}) else a
  }

  function Arrive(r: Reader, q: Queued): Reader {
    match q
    case Lost => Closed(r)
    case KeyIn(code, value, verdict) =>
      if !r.open then r
      else if !r.grabbed then ReleaseOwed(r, code, value, verdict)
      else if r.target != 0 then ForwardKey(r, code, value, verdict.source) else r
  }

  function Drain(r: Reader, queued: seq<Queued>): Reader
    decreases |queued|
  {
    if queued == [] then r else Drain(Arrive(r, queued[0]), queued[1..])
  }

  // ---------------------------------------------------------------- settling

  /** Forwards the releases owed for the keys from code up that the kernel reports up. */
  function SettleFrom(r: Reader, keys: set<nat>, verdict: nat -> Verdict, code: nat): Reader
    decreases KEY_MAX + 1 - code
  {
    if code > KEY_MAX then r
    else
      var pays := code in r.owed && code !in keys;
      SettleFrom(if pays then ReleaseOwed(r, code, 0, verdict(code)) else r, keys, verdict, code + 1)
  }

  function SettleOwed(r: Reader, keys: Option<set<nat>>, verdict: nat -> Verdict): Reader {
    if r.grabbed || keys.None? then r else SettleFrom(r, keys.value, verdict, 0)
  }

  // ---------------------------------------------------------------- grabbing

  /** Codes that tell a pen or finger is there rather than that something is pressed. */
  predicate IsContact(code: nat) {
    0x140 <= code <= 0x148 || code == 0x14a || 0x14d <= code <= 0x14f
  }

  /** Holds a grab off while a key is down, or while the keys cannot be read. */
  function Defer(r: Reader, keys: Option<set<nat>>): Reader {
    if keys.None? then r.(deferred := false)
    else
      var down := set c | c in keys.value && !IsContact(c);
      r.(deferredDown := down, deferred := down != {})
  }

  predicate Waits(keys: Option<set<nat>>) { keys.None? || exists c :: c in keys.value && !IsContact(c) }

  function Ungrab(r: Reader, w: World): Reader {
    var d := if r.grabbed then Drain(r, w.queued) else r;
    if !d.open then d
    else if !d.grabbed then d.(deferred := false)
    else if !w.ungrabOk then Closed(d)
    else
      var u := d.(deferred := false, grabbed := false);
      if u.target == 0 then u
      else u.(target := u.serial + 1, serial := u.serial + 1, owed := d.enqueued.source,
              enqueued := Keys(d.enqueued.output * d.enqueued.source, d.enqueued.source, {}))
  }

  /** The attempt once no grab is held: outputs working, nothing down, nothing owed. */
  function TryGrab(r: Reader, w: World): Reader {
    if w.needs && (w.failed || !w.usable) then r
    else
      var a := Defer(r, w.first);
      if Waits(w.first) || w.downstream then a
      else
        var b := SettleOwed(Drain(a, w.queued), w.settle, w.verdict);
        if !b.open then b
        else
          var c := Defer(b, w.second);
          if Waits(w.second) || c.owed != {} || !w.grabOk then c else c.(grabbed := true)
  }

  function GrabSet(r: Reader, enabled: bool, w: World): Reader {
    if !r.open then r.(deferred := false)
    else if !enabled then Ungrab(r, w)
    else if !r.grabbed then TryGrab(r, w)
    else if !w.needs || w.usable then r
    else
      var u := Ungrab(r, w);
      if u.open && !u.grabbed then TryGrab(u, w.(queued := [])) else u
  }

  // ---------------------------------------------------------------- runs

  function Next(r: Reader, step: Step): Reader {
    match step
    case Arrives(q) => Arrive(r, q)
    case Decide(k, admitted) => Decided(r, k, admitted)
    case SetGrab(enabled, w) => GrabSet(r, enabled, w)
    case Settle(keys, verdict) => SettleOwed(r, keys, verdict)
    case Shift(code, restore) => if r.target != 0 then r.(enqueued := ShiftKeys(r.enqueued, code, restore)) else r
    case ReleaseAll => r.(enqueued := Keys({}, r.enqueued.source, {}))
    case Close => Closed(r)
    case Reopen(forwarded) =>
      if r.open then r
      else
        var target := if forwarded then r.serial + 1 else 0;
        Reader(true, target, r.serial + 1, false, false, {}, {}, NO_KEYS, r.lane, r.admitted)
  }

  function Run(r: Reader, steps: seq<Step>): Reader
    decreases |steps|
  {
    if steps == [] then r else Run(Next(r, steps[0]), steps[1..])
  }

  const CLOSED := Reader(false, 0, 0, false, false, {}, {}, NO_KEYS, [], [])

  // ---------------------------------------------------------------- invariant

  predicate Within(k: Keys, owed: set<nat>) { k.output <= owed && k.displaced <= owed }

  /** Every waiting replay was read under a target that was issued. */
  predicate Issued(r: Reader) {
    r.target <= r.serial && forall k :: 0 <= k < |r.lane| ==> 0 < r.lane[k].target <= r.serial
  }

  /** No waiting replay was read under the slot's present grab. */
  predicate Stale(r: Reader) { forall k :: 0 <= k < |r.lane| ==> r.lane[k].target != r.target }

  /** While a source is not grabbed, what its outputs hold or could be given back is owed,
      and nothing that waits in a lane can add to it. */
  predicate Bounded(r: Reader) {
    && Issued(r) && (!r.grabbed ==> Stale(r) && Within(r.enqueued, r.owed))
    && (r.target == 0 ==> r.enqueued == NO_KEYS && r.owed == {})
  }

  lemma ShiftWithin(k: Keys, code: nat, restore: bool, owed: set<nat>)
    requires Within(k, owed)
    ensures Within(ShiftKeys(k, code, restore), owed)
  {
    assert Within(ShiftCode(k, code, restore), owed);
  }

  /** Both parts of a release are among the admissions. */
  predicate Paid(log: seq<Admission>, target: nat, code: nat) {
    Admission(true, target, code, 0) in log && Admission(false, target, code, 0) in log
  }

  lemma ReleaseOwedKeeps(r: Reader, code: nat, value: nat, verdict: Verdict)
    requires Bounded(r) && !r.grabbed
    ensures var t := ReleaseOwed(r, code, value, verdict); Owes(r, t) && t.open == r.open
  {
    var t := ReleaseOwed(r, code, value, verdict);
    assert r.admitted <= t.admitted;
    if code in r.owed && code !in t.owed {
      var log := t.admitted[|r.admitted|..];
      assert log == [Admission(true, r.target, code, 0), Admission(false, r.target, code, 0)];
      assert log[0] in log && log[1] in log;
    }
  }

  /** What a stretch of ungrabbed time keeps: an owed release is forgotten only once the
      queue took both its parts, or with the whole source. */
  predicate Owes(r: Reader, t: Reader) {
    && Bounded(t) && !t.grabbed && r.admitted <= t.admitted
    && (t.open ==>
          && t.target == r.target
          && forall c :: c in r.owed ==> c in t.owed || Paid(t.admitted[|r.admitted|..], r.target, c))
  }

  lemma PaidGrows(a: seq<Admission>, b: seq<Admission>, c: seq<Admission>, target: nat, code: nat)
    requires a <= b <= c && (Paid(b[|a|..], target, code) || Paid(c[|b|..], target, code))
    ensures Paid(c[|a|..], target, code)
  {
    var whole := c[|a|..];
    assert whole == b[|a|..] + c[|b|..];
    assert forall x :: x in b[|a|..] || x in c[|b|..] ==> x in whole;
  }

  lemma OwesTrans(r: Reader, t: Reader, u: Reader)
    requires Owes(r, t) && Owes(t, u) && (u.open ==> t.open)
    ensures Owes(r, u)
  {
    hide Paid, Bounded;
    forall c | u.open && c in r.owed
      ensures c in u.owed || Paid(u.admitted[|r.admitted|..], r.target, c)
    {
      if c !in u.owed {
        PaidGrows(r.admitted, t.admitted, u.admitted, r.target, c);
      }
    }
  }

  lemma ArriveOwes(r: Reader, q: Queued)
    requires Bounded(r) && !r.grabbed
    ensures Owes(r, Arrive(r, q)) && (Arrive(r, q).open ==> r.open)
  {
    if q.KeyIn? && r.open {
      ReleaseOwedKeeps(r, q.code, q.value, q.verdict);
      hide Owes;
    }
  }

  lemma {:induction false} DrainOwes(r: Reader, queued: seq<Queued>)
    requires Bounded(r) && !r.grabbed
    ensures Owes(r, Drain(r, queued)) && (Drain(r, queued).open ==> r.open)
    decreases |queued|
  {
    if queued != [] {
      var t := Arrive(r, queued[0]);
      ArriveOwes(r, queued[0]);
      DrainOwes(t, queued[1..]);
      OwesTrans(r, t, Drain(t, queued[1..]));
    }
  }

  lemma {:induction false} SettleOwes(r: Reader, keys: set<nat>, verdict: nat -> Verdict, code: nat)
    requires Bounded(r) && !r.grabbed
    ensures var t := SettleFrom(r, keys, verdict, code); Owes(r, t) && t.open == r.open
    decreases KEY_MAX + 1 - code
  {
    if code <= KEY_MAX {
      var pays := code in r.owed && code !in keys;
      var t := if pays then ReleaseOwed(r, code, 0, verdict(code)) else r;
      if pays {
        ReleaseOwedKeeps(r, code, 0, verdict(code));
      }
      SettleOwes(t, keys, verdict, code + 1);
      OwesTrans(r, t, SettleFrom(t, keys, verdict, code + 1));
    }
  }

  // ---------------------------------------------------------------- steps keep it

  lemma {:induction false} GrabbedDrainKeeps(r: Reader, queued: seq<Queued>)
    requires Bounded(r) && r.grabbed
    ensures var t := Drain(r, queued); Bounded(t) && (t.open ==> r.open)
    decreases |queued|
  {
    if queued != [] {
      var t := Arrive(r, queued[0]);
      if t.grabbed {
        GrabbedDrainKeeps(t, queued[1..]);
      } else {
        DrainOwes(t, queued[1..]);
      }
    }
  }

  lemma UngrabKeeps(r: Reader, w: World)
    requires Bounded(r)
    ensures Bounded(Ungrab(r, w)) && (!r.grabbed && r.open ==> Owes(r, Ungrab(r, w)))
  {
    if r.grabbed {
      GrabbedDrainKeeps(r, w.queued);
    }
  }

  lemma DeferOwes(r: Reader, t: Reader, keys: Option<set<nat>>)
    requires Owes(r, t)
    ensures Owes(r, Defer(t, keys))
  {}

  /** What an attempt settles before it looks at the keys again. */
  lemma AttemptSettles(r: Reader, w: World)
    requires Bounded(r) && !r.grabbed && r.open
    ensures var b := SettleOwed(Drain(Defer(r, w.first), w.queued), w.settle, w.verdict); Owes(r, b)
  {
    var a := Defer(r, w.first);
    var d := Drain(a, w.queued);
    DrainOwes(a, w.queued);
    assert Owes(r, a);
    OwesTrans(r, a, d);
    if w.settle.Some? {
      SettleOwes(d, w.settle.value, w.verdict, 0);
      hide Owes, SettleFrom, Drain;
      OwesTrans(r, d, SettleFrom(d, w.settle.value, w.verdict, 0));
    }
  }

  /** The attempt forgets nothing it owes, and a grab it takes starts with nothing owed
      and nothing held downstream. */
  lemma TryGrabKeeps(r: Reader, w: World)
    requires Bounded(r) && !r.grabbed && r.open
    ensures var t := TryGrab(r, w);
            && Bounded(t) && Owes(r, t.(grabbed := false))
            && (t.grabbed ==>
               t.owed == {} && t.enqueued.output == {} && t.enqueued.displaced == {} && Stale(t) && !Waits(w.second))
  {
    assert Owes(r, r);
    DeferOwes(r, r, w.first);
    AttemptSettles(r, w);
    var b := SettleOwed(Drain(Defer(r, w.first), w.queued), w.settle, w.verdict);
    DeferOwes(r, b, w.second);
    hide Drain, SettleOwed, Waits;
  }

  lemma DecideKeeps(r: Reader, k: nat, admitted: bool)
    requires Bounded(r)
    ensures Bounded(Decided(r, k, admitted)) && (!r.grabbed ==> Owes(r, Decided(r, k, admitted)))
  {
    if k < |r.lane| {
      var lane := r.lane[..k] + r.lane[k + 1..];
      assert forall j :: 0 <= j < |lane| ==> lane[j] == r.lane[if j < k then j else j + 1];
    }
  }

  lemma StepKeeps(r: Reader, step: Step)
    requires Bounded(r)
    ensures Bounded(Next(r, step))
  {
    match step
    case Arrives(q) => if !r.grabbed { ArriveOwes(r, q); }
    case Decide(k, admitted) => DecideKeeps(r, k, admitted);
    case SetGrab(_, w) =>
      UngrabKeeps(r, w);
      if r.open && !r.grabbed {
        TryGrabKeeps(r, w);
      }
      var u := Ungrab(r, w);
      if u.open && !u.grabbed {
        TryGrabKeeps(u, w.(queued := []));
      }
      hide Ungrab, TryGrab;
    case Settle(keys, verdict) => if !r.grabbed && keys.Some? { SettleOwes(r, keys.value, verdict, 0); }
    case Shift(code, restore) => if !r.grabbed { ShiftWithin(r.enqueued, code, restore, r.owed); }
    case _ =>
  }

  lemma {:induction false} RunKeeps(r: Reader, steps: seq<Step>)
    requires Bounded(r)
    ensures Bounded(Run(r, steps))
    decreases |steps|
  {
    hide Bounded, Next;
    if steps != [] {
      StepKeeps(r, steps[0]);
      RunKeeps(Next(r, steps[0]), steps[1..]);
    }
  }

  // ---------------------------------------------------------------- every run

  /** Over every interleaving of key events, late replays, grab changes, synthesis and
      refused admissions, a source that is not grabbed has no admitted hold, and none to
      restore, but the ones it owes a release for. */
  lemma UngrabbedHoldsAreOwed(steps: seq<Step>)
    ensures var r := Run(CLOSED, steps); !r.grabbed ==> r.enqueued.output <= r.owed && r.enqueued.displaced <= r.owed
  {
    RunKeeps(CLOSED, steps);
  }

  /** And a replay read under a grab that has ended changes none of the source's key sets
      when a hook lets it go at last, while the source is ungrabbed or under a later grab. */
  lemma LateReplaysChangeNothing(steps: seq<Step>, k: nat)
    requires k < |Run(CLOSED, steps).lane|
    ensures var r := Run(CLOSED, steps);
            !r.grabbed || r.lane[k].target != r.target ==> Next(r, Decide(k, true)).enqueued == r.enqueued
  {
    RunKeeps(CLOSED, steps);
  }

  /** What one queued event adds to the lanes: a key read under a grab that has a slot. */
  function Read(r: Reader, q: Queued): seq<Waiting> {
    if q.KeyIn? && r.open && r.grabbed && r.target != 0 then [Waiting(r.target, q.code, q.value)] else []
  }

  function ReadAll(r: Reader, queued: seq<Queued>): seq<Waiting>
    decreases |queued|
  {
    if queued == [] then [] else Read(r, queued[0]) + ReadAll(Arrive(r, queued[0]), queued[1..])
  }

  /** What a step reads under a grab: one event, or those that the end of the grab finds queued. */
  function ReadBy(r: Reader, step: Step): seq<Waiting> {
    match step
    case Arrives(q) => Read(r, q)
    case SetGrab(enabled, w) =>
      if r.open && r.grabbed && (!enabled || (w.needs && !w.usable)) then ReadAll(r, w.queued) else []
    case _ => []
  }

  function ReadIn(r: Reader, steps: seq<Step>): seq<Waiting>
    decreases |steps|
  {
    if steps == [] then [] else ReadBy(r, steps[0]) + ReadIn(Next(r, steps[0]), steps[1..])
  }

  /** The replay that a hook decides in a step. */
  function DecidedBy(r: Reader, step: Step): seq<Waiting> {
    if step.Decide? && step.k < |r.lane| then [r.lane[step.k]] else []
  }

  function DecidedIn(r: Reader, steps: seq<Step>): seq<Waiting>
    decreases |steps|
  {
    if steps == [] then [] else DecidedBy(r, steps[0]) + DecidedIn(Next(r, steps[0]), steps[1..])
  }

  lemma {:induction false} DrainReads(r: Reader, queued: seq<Queued>)
    ensures Drain(r, queued).lane == r.lane + ReadAll(r, queued)
    ensures !r.grabbed ==> ReadAll(r, queued) == [] && !Drain(r, queued).grabbed
    decreases |queued|
  {
    if queued != [] {
      DrainReads(Arrive(r, queued[0]), queued[1..]);
    }
  }

  lemma {:induction false} SettleReads(r: Reader, keys: set<nat>, verdict: nat -> Verdict, code: nat)
    ensures SettleFrom(r, keys, verdict, code).lane == r.lane
    decreases KEY_MAX + 1 - code
  {
    if code <= KEY_MAX {
      var pays := code in r.owed && code !in keys;
      SettleReads(if pays then ReleaseOwed(r, code, 0, verdict(code)) else r, keys, verdict, code + 1);
    }
  }

  lemma SettleOwedReads(r: Reader, keys: Option<set<nat>>, verdict: nat -> Verdict)
    ensures SettleOwed(r, keys, verdict).lane == r.lane
  {
    if keys.Some? {
      SettleReads(r, keys.value, verdict, 0);
    }
  }

  lemma TryGrabReads(r: Reader, w: World)
    requires !r.grabbed
    ensures TryGrab(r, w).lane == r.lane
  {
    var a := Defer(r, w.first);
    DrainReads(a, w.queued);
    SettleOwedReads(Drain(a, w.queued), w.settle, w.verdict);
    hide Drain, SettleOwed, Waits, ReadAll;
  }

  lemma GrabReads(r: Reader, enabled: bool, w: World)
    ensures GrabSet(r, enabled, w).lane == r.lane + ReadBy(r, SetGrab(enabled, w))
  {
    DrainReads(r, w.queued);
    var u := Ungrab(r, w);
    if !r.grabbed {
      TryGrabReads(r, w);
    }
    if !u.grabbed {
      TryGrabReads(u, w.(queued := []));
    }
    hide TryGrab, Drain, ReadAll;
  }

  lemma DecisionReads(r: Reader, k: nat, admitted: bool)
    requires k < |r.lane|
    ensures multiset(Decided(r, k, admitted).lane) + multiset([r.lane[k]]) == multiset(r.lane)
  {
    assert r.lane == r.lane[..k] + [r.lane[k]] + r.lane[k + 1..];
    assert Decided(r, k, admitted).lane == r.lane[..k] + r.lane[k + 1..];
    hide Decided;
  }

  /** Steps that decide no replay only add what they read. */
  lemma OtherReads(r: Reader, step: Step)
    requires !step.Decide?
    ensures Next(r, step).lane == r.lane + ReadBy(r, step)
  {
    match step
    case SetGrab(enabled, w) => hide GrabSet; GrabReads(r, enabled, w);
    case Settle(keys, verdict) => hide SettleOwed; SettleOwedReads(r, keys, verdict);
    case _ =>
  }

  lemma StepReads(r: Reader, step: Step)
    ensures multiset(Next(r, step).lane) + multiset(DecidedBy(r, step)) == multiset(r.lane) + multiset(ReadBy(r, step))
  {
    if step.Decide? {
      if step.k < |r.lane| {
        DecisionReads(r, step.k, step.admitted);
      }
      hide Decided;
    } else {
      OtherReads(r, step);
      hide Next, ReadBy;
    }
  }

  lemma Totals<T>(before: multiset<T>, middle: multiset<T>, after: multiset<T>, out: multiset<T>, moreOut: multiset<T>,
                  come: multiset<T>, moreCome: multiset<T>)
    requires middle + out == before + come && after + moreOut == middle + moreCome
    ensures after + (out + moreOut) == before + (come + moreCome)
  {
    forall x: T
      ensures (after + (out + moreOut))[x] == (before + (come + moreCome))[x]
    {
      assert (middle + out)[x] == (before + come)[x] && (after + moreOut)[x] == (middle + moreCome)[x];
    }
  }

  /** Every key read under a grab is replayed by way of a lane, once: over every run, what
      waits and what was decided is what waited before and what was read. */
  lemma {:induction false} NothingReadIsLost(r: Reader, steps: seq<Step>)
    ensures multiset(Run(r, steps).lane) + multiset(DecidedIn(r, steps)) ==
            multiset(r.lane) + multiset(ReadIn(r, steps))
    decreases |steps|
  {
    hide Next, ReadBy, DecidedBy;
    if steps != [] {
      var step, rest := steps[0], steps[1..];
      StepReads(r, step);
      NothingReadIsLost(Next(r, step), rest);
      Totals(multiset(r.lane), multiset(Next(r, step).lane), multiset(Run(r, steps).lane),
             multiset(DecidedBy(r, step)), multiset(DecidedIn(Next(r, step), rest)),
             multiset(ReadBy(r, step)), multiset(ReadIn(Next(r, step), rest)));
    }
  }

  /** A decided replay that the queue takes is logged, and moves the source's output if it
      was read under the present grab. */
  lemma DecidedReplaysArrive(r: Reader, k: nat)
    requires k < |r.lane|
    ensures var w, t := r.lane[k], Next(r, Decide(k, true));
            && t.admitted == r.admitted + [Admission(false, w.target, w.code, w.value)]
            && t.enqueued.source == r.enqueued.source && t.enqueued.displaced == r.enqueued.displaced
            && (forall c :: c in t.enqueued.output <==>
                  if w.target == r.target && c == w.code && c <= KEY_MAX && w.value != 2 then w.value != 0
                    else c in r.enqueued.output)
  {}

  /** Every grab starts with nothing held downstream, nothing to restore, nothing owed,
      and no key but a pen or finger contact down on the source. */
  lemma GrabsStartClean(r: Reader, step: Step)
    requires Bounded(r) && !r.grabbed && Next(r, step).grabbed
    ensures var t := Next(r, step); t.enqueued.output == {} && t.enqueued.displaced == {} && t.owed == {} && Stale(t)
    ensures step.SetGrab? && step.world.second.Some?
            && forall c :: c in step.world.second.value ==>
                 0x140 <= c <= 0x148 || c == 0x14a || 0x14d <= c <= 0x14f
  {
    match step
    case Arrives(q) => ArriveOwes(r, q); assert false;
    case Decide(k, admitted) => DecideKeeps(r, k, admitted); assert false;
    case SetGrab(enabled, w) =>
      UngrabKeeps(r, w);
      if r.open {
        TryGrabKeeps(r, w);
      }
    case Settle(keys, verdict) => if keys.Some? { SettleOwes(r, keys.value, verdict, 0); } assert false;
    case _ => assert false;
  }

  lemma {:induction false} SettleOwedFrom(r: Reader, keys: set<nat>, verdict: nat -> Verdict, code: nat)
    ensures var t := SettleFrom(r, keys, verdict, code);
            && t == r.(owed := t.owed, enqueued := t.enqueued, admitted := t.admitted)
            && forall c :: c in t.owed <==>
                 c in r.owed && !(code <= c <= KEY_MAX && c !in keys && verdict(c).source && verdict(c).replay)
    decreases KEY_MAX + 1 - code
  {
    if code <= KEY_MAX {
      var pays := code in r.owed && code !in keys;
      SettleOwedFrom(if pays then ReleaseOwed(r, code, 0, verdict(code)) else r, keys, verdict, code + 1);
    }
  }

  /** Settling pays every owed release of a key that is up and that the queue takes, and no
      other. */
  lemma SettlingPays(r: Reader, keys: set<nat>, verdict: nat -> Verdict)
    requires !r.grabbed
    ensures forall c :: c in Next(r, Settle(Some(keys), verdict)).owed <==>
              c in r.owed && !(c <= KEY_MAX && c !in keys && verdict(c).source && verdict(c).replay)
  {
    SettleOwedFrom(r, keys, verdict, 0);
  }

  /** Only contacts are down. */
  predicate Clear(keys: Option<set<nat>>) {
    keys.Some? && forall c :: c in keys.value ==> 0x140 <= c <= 0x148 || c == 0x14a || 0x14d <= c <= 0x14f
  }

  lemma ClearIsNoWait(keys: Option<set<nat>>)
    ensures Clear(keys) <==> !Waits(keys)
  {}

  /** An attempt with nothing more queued takes the grab exactly if the outputs work and nobody
      downstream has them grabbed, no key is down at either look, every owed release was of a
      key that is up and is taken by the queue, and the kernel grants it. */
  lemma GrabsWhenClear(r: Reader, w: World)
    requires r.open && !r.grabbed && w.queued == []
    ensures Next(r, SetGrab(true, w)).grabbed <==>
            && (w.needs ==> !w.failed && w.usable) && !w.downstream && w.grabOk && Clear(w.first) && Clear(w.second)
            && forall c :: c in r.owed ==>
                 w.settle.Some? && c <= KEY_MAX && c !in w.settle.value && w.verdict(c).source && w.verdict(c).replay
  {
    var a := Defer(r, w.first);
    ClearIsNoWait(w.first);
    ClearIsNoWait(w.second);
    assert Drain(a, []) == a && a.owed == r.owed;
    OwedAfter(a, w.settle, w.verdict);
    hide Waits, Clear, Drain, SettleOwed;
    assert GrabSet(r, true, w) == TryGrab(r, w);
  }

  lemma OwedAfter(r: Reader, keys: Option<set<nat>>, verdict: nat -> Verdict)
    requires !r.grabbed
    ensures var t := SettleOwed(r, keys, verdict);
            && t.open == r.open && !t.grabbed
            && (t.owed == {} <==>
                  forall c :: c in r.owed ==>
                    keys.Some? && c <= KEY_MAX && c !in keys.value && verdict(c).source && verdict(c).replay)
  {
    if keys.Some? {
      SettleOwedFrom(r, keys.value, verdict, 0);
    }
    hide SettleFrom;
    var t := SettleOwed(r, keys, verdict);
    assert t.owed == {} <==> forall c :: c in r.owed ==> c !in t.owed;
  }

  /** A grab that is no longer wanted, or whose outputs cannot be used, ends, and with it its
      target; the source then owes a release of every key it holds. */
  lemma UnusableGrabsEnd(r: Reader, enabled: bool, w: World)
    requires r.open && r.grabbed && r.target != 0 && w.queued == [] && w.ungrabOk
    ensures var t := Next(r, SetGrab(enabled, w));
            if enabled && (!w.needs || w.usable) then t == r
            else && t.target == r.serial + 1 && !t.grabbed && t.owed == r.enqueued.source
                 && t.enqueued == Keys(r.enqueued.output * r.enqueued.source, r.enqueued.source, {})
  {
    assert Drain(r, []) == r;
    hide Defer, SettleOwed, Waits;
  }

  /** An attempt is deferred exactly if the keys could be read at its last look and something
      but a contact was down, and then those keys are what it waits for. */
  lemma AttemptsAreDeferred(r: Reader, w: World)
    requires r.open && !r.grabbed && w.queued == [] && (w.needs ==> !w.failed && w.usable)
    ensures var t := Next(r, SetGrab(true, w));
            var last := if !Clear(w.first) || w.downstream then w.first else w.second;
            && (t.deferred <==> last.Some? && !Clear(last))
            && (last.Some? ==>
                  forall c :: c in t.deferredDown <==>
                    c in last.value && !(0x140 <= c <= 0x148 || c == 0x14a || 0x14d <= c <= 0x14f))
  {
    var a := Defer(r, w.first);
    ClearIsNoWait(w.first);
    ClearIsNoWait(w.second);
    assert Drain(a, []) == a;
    if w.settle.Some? {
      SettleOwedFrom(a, w.settle.value, w.verdict, 0);
    }
    hide Waits, SettleFrom, Drain;
    var b := SettleOwed(a, w.settle, w.verdict);
    DeferredBy(r, w.first);
    DeferredBy(b, w.second);
    hide Clear, Defer, SettleOwed;
  }

  lemma DeferredBy(r: Reader, keys: Option<set<nat>>)
    ensures var t := Defer(r, keys);
            && t == r.(deferred := t.deferred, deferredDown := t.deferredDown)
            && (t.deferred <==> keys.Some? && !Clear(keys))
            && (keys.Some? ==>
                  forall c :: c in t.deferredDown <==>
                    c in keys.value && !(0x140 <= c <= 0x148 || c == 0x14a || 0x14d <= c <= 0x14f))
  {
    if keys.Some? {
      var down := set c | c in keys.value && !IsContact(c);
      assert down != {} <==> exists c :: c in keys.value && !IsContact(c) by {
        if down != {} {
          var c :| c in down;
          assert c in keys.value && !IsContact(c);
        }
        if exists c :: c in keys.value && !IsContact(c) {
          var c :| c in keys.value && !IsContact(c);
          assert c in down;
        }
      }
    }
  }

  /** While a source stays open, a step that forgets an owed release is one in which the
      queue took both parts of that release, under the source's target. */
  lemma OwedUntilAdmitted(r: Reader, step: Step, code: nat)
    requires Bounded(r) && !r.grabbed && r.open && Next(r, step).open && code in r.owed && code !in Next(r, step).owed
    ensures r.admitted <= Next(r, step).admitted && Paid(Next(r, step).admitted[|r.admitted|..], r.target, code)
  {
    match step
    case Arrives(q) => ArriveOwes(r, q);
    case Decide(k, admitted) => DecideKeeps(r, k, admitted);
    case SetGrab(enabled, w) =>
      UngrabKeeps(r, w);
      TryGrabKeeps(r, w);
    case Settle(keys, verdict) => if keys.Some? { SettleOwes(r, keys.value, verdict, 0); }
    case _ => assert false;
  }

  /** The key sets an ungrab leaves are the ones the forwarding table's end of a grab
      leaves in the source's slot. */
  lemma UngrabIsEndGrab(r: Reader, w: World, f: Forward, target: nat)
    requires Find(f, target, Enqueued).Some? && KeysOk(f.devices[Find(f, target, Enqueued).value].enqueued)
    requires r.grabbed && w.ungrabOk
    requires var d := Drain(r, w.queued);
             d.open && d.grabbed && d.target != 0 && d.enqueued == f.devices[Find(f, target, Enqueued).value].enqueued
    ensures var i := Find(f, target, Enqueued).value;
            var u, g := Ungrab(r, w), EndGrab(f, target);
            && |g.devices| == |f.devices| && u.enqueued == g.devices[i].enqueued
            && u.owed == f.devices[i].enqueued.source && !u.grabbed
  {
    var i := Find(f, target, Enqueued).value;
    EndGrabAtAt(f, i, Enqueued, f.devices[i].enqueued.source, MakeTarget(f.serial, i));
  }
}
