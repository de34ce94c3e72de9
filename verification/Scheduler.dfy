/** Turns on one callback stream: waiters, the call stack, pumps, timeouts and
    invalidation. A step is one critical section of the turn mutex, or the one store
    that invalidation makes outside it. */
module Scheduler {
  import opened Codes

  const MAX_DEPTH := 64

  /** `awake` is false while the thread is blocked on the condition variable. */
  datatype Waiter = Waiter(id: nat, recursive: bool, stamp: nat, awake: bool)
  datatype Call = Call(id: nat, pumping: bool)
  /** A thread in end_pump, with the index it looked up. */
  datatype Ender = Ender(id: nat, index: nat, turn: nat, awake: bool)
  /** A turn that was granted; stamps count arrivals. */
  datatype Turn = Turn(id: nat, recursive: bool, stamp: nat)

  /** turns[i] is the turn of calls[i], and closed are the turns whose pump ended. */
  datatype Stream = Stream(valid: bool, pending: bool, waiters: seq<Waiter>, calls: seq<Call>, enders: seq<Ender>,
                           turns: seq<nat>, closed: set<nat>, log: seq<Turn>, clock: nat)

  datatype Step =
    | Arrive(id: nat, recursive: bool, seen: bool)
    | Recheck(i: nat, seen: bool)
    | TimeOut(i: nat)
    | Spurious(i: nat)
    | Complete(id: nat)
    | BeginPump(id: nat)
    | EndPump(id: nat, seen: bool)
    | RecheckEnd(k: nat, seen: bool)
    | SpuriousEnd(k: nat)
    | Invalidate
    | BroadcastInvalid

  // ---------------------------------------------------------------- the waiter list

  /** The first recursive waiter from i on, or |ws| if there is none. */
  function FirstRecursive(ws: seq<Waiter>, i: nat): (r: nat)
    requires i <= |ws|
    ensures i <= r <= |ws| && forall j :: i <= j < r ==> !ws[j].recursive
    ensures r < |ws| ==> ws[r].recursive
    decreases |ws| - i
  {
    if i == |ws| || ws[i].recursive then i else FirstRecursive(ws, i + 1)
  }

  function BestWaiter(ws: seq<Waiter>): nat {
    if FirstRecursive(ws, 0) < |ws| then FirstRecursive(ws, 0) else 0
  }

  predicate CanEnter(ws: seq<Waiter>, calls: seq<Call>, i: nat)
    requires i < |ws|
  {
    && |calls| < MAX_DEPTH && BestWaiter(ws) == i
    && (|calls| == 0 || (ws[i].recursive && calls[|calls| - 1].pumping))
  }

  function Without<T>(s: seq<T>, i: nat): seq<T>
    requires i < |s|
  {
    s[..i] + s[i + 1..]
  }

  function Wake(ws: seq<Waiter>): seq<Waiter> { seq(|ws|, i requires 0 <= i < |ws| => ws[i].(awake := true)) }

  function WakeEnders(es: seq<Ender>): seq<Ender> { seq(|es|, i requires 0 <= i < |es| => es[i].(awake := true)) }

  function Broadcast(s: Stream): Stream { s.(waiters := Wake(s.waiters), enders := WakeEnders(s.enders)) }

  // ---------------------------------------------------------------- turns

  function Leave(s: Stream, i: nat): Stream
    requires i < |s.waiters|
  {
    Broadcast(s.(waiters := Without(s.waiters, i)))
  }

  function Enter(s: Stream, i: nat): Stream
    requires i < |s.waiters|
  {
    var w := s.waiters[i];
    s.(waiters := Without(s.waiters, i), calls := s.calls + [Call(w.id, false)],
       turns := s.turns + [|s.log|], log := s.log + [Turn(w.id, w.recursive, w.stamp)])
  }

  /** One pass of the loop in wait_event_turn, which read `seen` from valid. */
  function CheckTurn(s: Stream, i: nat, seen: bool): Stream
    requires i < |s.waiters|
  {
    if !seen then Leave(s, i)
    else if CanEnter(s.waiters, s.calls, i) then Enter(s, i)
    else s.(waiters := s.waiters[i := s.waiters[i].(awake := false)])
  }

  function Arrived(s: Stream, id: nat, recursive: bool): Stream {
    s.(waiters := s.waiters + [Waiter(id, recursive, s.clock, true)], clock := s.clock + 1)
  }

  /** The topmost of the lowest n frames with this id. */
  function FindBelow(calls: seq<Call>, id: nat, n: nat): (r: Option<nat>)
    requires n <= |calls|
    ensures r.Some? ==> r.value < n && calls[r.value].id == id
    ensures r.None? ==> forall j :: 0 <= j < n ==> calls[j].id != id
  {
    if n == 0 then None else if calls[n - 1].id == id then Some(n - 1) else FindBelow(calls, id, n - 1)
  }

  function FindCall(calls: seq<Call>, id: nat): (r: Option<nat>)
    ensures r.Some? ==> r.value < |calls| && calls[r.value].id == id
    ensures r.None? ==> forall j :: 0 <= j < |calls| ==> calls[j].id != id
  {
    FindBelow(calls, id, |calls|)
  }

  function Completed(s: Stream, id: nat): Stream
    requires |s.turns| == |s.calls|
  {
    match FindCall(s.calls, id)
    case None => Broadcast(s)
    case Some(i) => Broadcast(s.(calls := Without(s.calls, i), turns := Without(s.turns, i)))
  }

  predicate PumpBegins(calls: seq<Call>, id: nat) {
    |calls| != 0 && calls[|calls| - 1] == Call(id, false)
  }

  function PumpBegun(s: Stream, id: nat): Stream {
    if PumpBegins(s.calls, id) then Broadcast(s.(calls := s.calls[|s.calls| - 1 := Call(id, true)])) else s
  }

  /** The caller of end_pump still has entered descendants to wait for. */
  predicate MustWait(calls: seq<Call>, id: nat, index: nat) {
    |calls| > index + 1 && calls[index].id == id
  }

  /** What end_pump returns. */
  predicate Ended(calls: seq<Call>, id: nat, index: nat, seen: bool) {
    seen && |calls| == index + 1 && calls[index].id == id
  }

  function PumpEnded(s: Stream, id: nat, seen: bool): Stream
    requires |s.turns| == |s.calls|
  {
    match FindCall(s.calls, id)
    case None => Broadcast(s)
    case Some(i) =>
      if !s.calls[i].pumping then Broadcast(s)
      else
        var t := Broadcast(s.(calls := s.calls[i := Call(id, false)], closed := s.closed + {s.turns[i]}));
        if seen && MustWait(t.calls, id, i) then t.(enders := t.enders + [Ender(id, i, s.turns[i], false)])
        else Broadcast(t)
  }

  function EndChecked(s: Stream, k: nat, seen: bool): Stream
    requires k < |s.enders|
  {
    var e := s.enders[k];
    if seen && MustWait(s.calls, e.id, e.index) then s.(enders := s.enders[k := e.(awake := false)])
    else Broadcast(s.(enders := Without(s.enders, k)))
  }

  // ---------------------------------------------------------------- steps

  predicate Known(s: Stream, id: nat) {
    (exists k :: 0 <= k < |s.log| && s.log[k].id == id) || (exists i :: 0 <= i < |s.waiters| && s.waiters[i].id == id)
  }

  /** A thread may still act on valid if its invalidation has not broadcast yet. */
  predicate MaySee(s: Stream, seen: bool) { if seen then s.valid || s.pending else !s.valid }

  predicate Enabled(s: Stream, step: Step) {
    |s.turns| == |s.calls| &&
    match step
    case Arrive(id, _, seen) => id != 0 && !Known(s, id) && MaySee(s, seen)
    case Recheck(i, seen) => i < |s.waiters| && s.waiters[i].awake && MaySee(s, seen)
    case TimeOut(i) => i < |s.waiters|
    case Spurious(i) => i < |s.waiters|
    case Complete(id) => id != 0
    case BeginPump(id) => id != 0
    case EndPump(id, seen) => id != 0 && MaySee(s, seen)
    case RecheckEnd(k, seen) => k < |s.enders| && s.enders[k].awake && MaySee(s, seen)
    case SpuriousEnd(k) => k < |s.enders|
    case Invalidate => true
    case BroadcastInvalid => s.pending
  }

  function Next(s: Stream, step: Step): Stream
    requires Enabled(s, step)
  {
    match step
    case Arrive(id, recursive, seen) => CheckTurn(Arrived(s, id, recursive), |s.waiters|, seen)
    case Recheck(i, seen) => CheckTurn(s, i, seen)
    case TimeOut(i) => Leave(s, i)
    case Spurious(i) => s.(waiters := s.waiters[i := s.waiters[i].(awake := true)])
    case Complete(id) => Completed(s, id)
    case BeginPump(id) => PumpBegun(s, id)
    case EndPump(id, seen) => PumpEnded(s, id, seen)
    case RecheckEnd(k, seen) => EndChecked(s, k, seen)
    case SpuriousEnd(k) => s.(enders := s.enders[k := s.enders[k].(awake := true)])
    case Invalidate => if s.valid then s.(valid := false, pending := true) else s
    case BroadcastInvalid => Broadcast(s).(pending := false)
  }

  predicate Legal(s: Stream, steps: seq<Step>)
    decreases |steps|
  {
    steps == [] || (Enabled(s, steps[0]) && Legal(Next(s, steps[0]), steps[1..]))
  }

  function Run(s: Stream, steps: seq<Step>): Stream
    requires Legal(s, steps)
    decreases |steps|
  {
    if steps == [] then s else Run(Next(s, steps[0]), steps[1..])
  }

  const IDLE := Stream(true, false, [], [], [], [], {}, [], 0)

  // ---------------------------------------------------------------- nesting

  /** The stack is a chain of nested turns. */
  ghost predicate Nested(calls: seq<Call>, turns: seq<nat>, closed: set<nat>, log: seq<Turn>) {
    && |calls| <= MAX_DEPTH && |turns| == |calls|
    && (forall i :: 0 <= i < |turns| ==> turns[i] < |log| && log[turns[i]].id == calls[i].id)
    && (forall i, j :: 0 <= i < j < |turns| ==> turns[i] < turns[j])
    && (forall i :: 0 < i < |turns| ==> log[turns[i]].recursive)
    && (forall i :: 0 <= i < |calls| - 1 ==> calls[i].pumping || turns[i] in closed)
  }

  /** No event id is used twice. */
  ghost predicate Unique(waiters: seq<Waiter>, log: seq<Turn>) {
    && (forall i, j :: 0 <= i < j < |log| ==> log[i].id != log[j].id)
    && (forall i, j :: 0 <= i < j < |waiters| ==> waiters[i].id != waiters[j].id)
    && (forall i, k :: 0 <= i < |waiters| && 0 <= k < |log| ==> waiters[i].id != log[k].id)
  }

  // ---------------------------------------------------------------- order

  /** Waiters stand in order of arrival, and whoever was granted a turn came before
      everyone of the same class who still waits. */
  ghost predicate Fair(waiters: seq<Waiter>, log: seq<Turn>, clock: nat) {
    && (forall i :: 0 <= i < |waiters| ==> waiters[i].stamp < clock)
    && (forall i, j :: 0 <= i < j < |waiters| ==> waiters[i].stamp < waiters[j].stamp)
    && (forall k :: 0 <= k < |log| ==> log[k].stamp < clock)
    && (forall k, i :: 0 <= k < |log| && 0 <= i < |waiters| && log[k].recursive == waiters[i].recursive
          ==> log[k].stamp < waiters[i].stamp)
    && (forall k, l :: 0 <= k < l < |log| && log[k].recursive == log[l].recursive ==> log[k].stamp < log[l].stamp)
  }

  // ---------------------------------------------------------------- wake-ups

  /** A blocked thread has nothing to do, and would be told of an invalidation. */
  ghost predicate NoLostWakeUp(s: Stream) {
    && (forall i :: 0 <= i < |s.waiters| && !s.waiters[i].awake ==>
          !CanEnter(s.waiters, s.calls, i) && (s.valid || s.pending))
    && (forall k :: 0 <= k < |s.enders| && !s.enders[k].awake ==>
          MustWait(s.calls, s.enders[k].id, s.enders[k].index) && (s.valid || s.pending))
  }

  /** An ender's id and turn belong together. */
  ghost predicate EndersOk(enders: seq<Ender>, log: seq<Turn>, closed: set<nat>) {
    forall k :: 0 <= k < |enders| ==>
      enders[k].turn < |log| && log[enders[k].turn].id == enders[k].id && enders[k].turn in closed
  }

  /** Everything but the wake-ups. */
  ghost predicate Sound(s: Stream) {
    && Nested(s.calls, s.turns, s.closed, s.log) && Unique(s.waiters, s.log) && Fair(s.waiters, s.log, s.clock)
    && EndersOk(s.enders, s.log, s.closed)
  }

  ghost predicate Inv(s: Stream) { Sound(s) && NoLostWakeUp(s) && (s.valid ==> !s.pending) }

  // ---------------------------------------------------------------- steps keep it

  /** What the order of the waiters says does not depend on who is awake. */
  lemma AwakeFree(ws: seq<Waiter>, us: seq<Waiter>, log: seq<Turn>, clock: nat)
    requires |us| == |ws| && forall j :: 0 <= j < |ws| ==> us[j] == ws[j].(awake := us[j].awake)
    ensures Unique(ws, log) ==> Unique(us, log)
    ensures Fair(ws, log, clock) ==> Fair(us, log, clock)
    ensures BestWaiter(us) == BestWaiter(ws)
  {
    var a, b := FirstRecursive(ws, 0), FirstRecursive(us, 0);
    assert a < |ws| ==> us[a].recursive;
    assert b < |us| ==> ws[b].recursive;
  }

  /** A broadcast settles every wake-up, whatever went before it. */
  lemma BroadcastKeeps(s: Stream)
    requires Sound(s)
    ensures Sound(Broadcast(s)) && NoLostWakeUp(Broadcast(s))
  {
    hide Nested, Unique, Fair;
    AwakeFree(s.waiters, Wake(s.waiters), s.log, s.clock);
  }

  lemma RemovalKeeps(ws: seq<Waiter>, i: nat, log: seq<Turn>, clock: nat)
    requires i < |ws|
    ensures Unique(ws, log) ==> Unique(Without(ws, i), log)
    ensures Fair(ws, log, clock) ==> Fair(Without(ws, i), log, clock)
  {}

  lemma LeaveKeeps(s: Stream, i: nat)
    requires Sound(s) && i < |s.waiters|
    ensures Sound(Leave(s, i)) && NoLostWakeUp(Leave(s, i))
  {
    hide Nested, Unique, Fair, EndersOk, NoLostWakeUp;
    RemovalKeeps(s.waiters, i, s.log, s.clock);
    BroadcastKeeps(s.(waiters := Without(s.waiters, i)));
  }

  lemma BestIsFirst(ws: seq<Waiter>, i: nat)
    requires i < |ws| && BestWaiter(ws) == i
    ensures forall j :: 0 <= j < i ==> ws[j].recursive != ws[i].recursive
    ensures !ws[i].recursive ==> forall j :: 0 <= j < |ws| ==> !ws[j].recursive
  {}

  lemma EnterNested(s: Stream, i: nat)
    requires Sound(s) && i < |s.waiters| && CanEnter(s.waiters, s.calls, i)
    ensures var t := Enter(s, i); Nested(t.calls, t.turns, t.closed, t.log)
  {
    hide Unique, Fair, EndersOk, BestWaiter;
  }

  lemma EnterUnique(s: Stream, i: nat)
    requires Unique(s.waiters, s.log) && i < |s.waiters|
    ensures Unique(Enter(s, i).waiters, Enter(s, i).log)
  {}

  lemma EnterFair(s: Stream, i: nat)
    requires Fair(s.waiters, s.log, s.clock) && i < |s.waiters| && BestWaiter(s.waiters) == i
    ensures Fair(Enter(s, i).waiters, Enter(s, i).log, s.clock)
  {
    BestIsFirst(s.waiters, i);
    var ws, log := s.waiters, s.log;
    var us, granted := Enter(s, i).waiters, Enter(s, i).log;
    assert forall j :: 0 <= j < |us| ==> us[j] == if j < i then ws[j] else ws[j + 1];
    hide BestWaiter;
  }

  lemma EnterSound(s: Stream, i: nat)
    requires Sound(s) && i < |s.waiters| && CanEnter(s.waiters, s.calls, i)
    ensures Sound(Enter(s, i))
  {
    hide Nested, Unique, Fair;
    EnterNested(s, i);
    EnterUnique(s, i);
    EnterFair(s, i);
  }

  /** Nobody else becomes eligible when someone enters: the new frame does not pump. */
  lemma EnterWakesNobody(s: Stream, i: nat)
    requires NoLostWakeUp(s) && i < |s.waiters|
    ensures NoLostWakeUp(Enter(s, i))
  {}

  /** Nor when someone arrives: only the newcomer can become the best waiter. */
  lemma ArrivalWakesNobody(s: Stream, id: nat, recursive: bool)
    requires NoLostWakeUp(s)
    ensures NoLostWakeUp(Arrived(s, id, recursive))
  {
    var ws, us := s.waiters, Arrived(s, id, recursive).waiters;
    assert forall j :: 0 <= j < |ws| ==> us[j] == ws[j];
    assert BestWaiter(us) == BestWaiter(ws) || BestWaiter(us) == |ws|;
  }

  lemma ArrivedSound(s: Stream, id: nat, recursive: bool)
    requires Sound(s) && !Known(s, id)
    ensures Sound(Arrived(s, id, recursive))
  {
    hide Nested, EndersOk;
  }

  lemma CheckTurnKeeps(s: Stream, i: nat, seen: bool)
    requires Sound(s) && NoLostWakeUp(s) && i < |s.waiters| && MaySee(s, seen)
    ensures Sound(CheckTurn(s, i, seen)) && NoLostWakeUp(CheckTurn(s, i, seen))
  {
    if !seen {
      LeaveKeeps(s, i);
    } else if CanEnter(s.waiters, s.calls, i) {
      EnterSound(s, i);
      EnterWakesNobody(s, i);
    } else {
      BlockKeeps(s, i);
    }
  }

  lemma BlockKeeps(s: Stream, i: nat)
    requires Sound(s) && NoLostWakeUp(s) && i < |s.waiters| && !CanEnter(s.waiters, s.calls, i)
             && (s.valid || s.pending)
    ensures var t := s.(waiters := s.waiters[i := s.waiters[i].(awake := false)]); Sound(t) && NoLostWakeUp(t)
  {
    hide Nested, Unique, Fair, EndersOk, BestWaiter;
    AwakeFree(s.waiters, s.waiters[i := s.waiters[i].(awake := false)], s.log, s.clock);
  }

  function Skip(i: nat, j: nat): nat { if j < i then j else j + 1 }

  lemma WithoutAt<T>(s: seq<T>, i: nat, j: nat)
    requires i < |s| && j < |s| - 1
    ensures |Without(s, i)| == |s| - 1 && Without(s, i)[j] == s[Skip(i, j)]
  {}

  lemma CompleteNested(calls: seq<Call>, turns: seq<nat>, closed: set<nat>, log: seq<Turn>, i: nat)
    requires Nested(calls, turns, closed, log) && i < |calls|
    ensures Nested(Without(calls, i), Without(turns, i), closed, log)
  {
    var c, t := Without(calls, i), Without(turns, i);
    assert |c| == |calls| - 1 == |t|;
    hide Without;
    forall j | 0 <= j < |t|
      ensures t[j] < |log| && log[t[j]].id == c[j].id && (0 < j ==> log[t[j]].recursive)
      ensures j < |c| - 1 ==> c[j].pumping || t[j] in closed
    {
      WithoutAt(calls, i, j);
      WithoutAt(turns, i, j);
    }
    forall j, k | 0 <= j < k < |t|
      ensures t[j] < t[k]
    {
      WithoutAt(turns, i, j);
      WithoutAt(turns, i, k);
    }
  }

  lemma CompleteKeeps(s: Stream, id: nat)
    requires Sound(s)
    ensures |s.turns| == |s.calls| && Sound(Completed(s, id)) && NoLostWakeUp(Completed(s, id))
  {
    hide Unique, Fair, EndersOk, NoLostWakeUp;
    match FindCall(s.calls, id)
    case None => BroadcastKeeps(s);
    case Some(i) =>
      CompleteNested(s.calls, s.turns, s.closed, s.log, i);
      hide Nested;
      BroadcastKeeps(s.(calls := Without(s.calls, i), turns := Without(s.turns, i)));
  }

  lemma BeginPumpKeeps(s: Stream, id: nat)
    requires Sound(s) && NoLostWakeUp(s)
    ensures Sound(PumpBegun(s, id)) && NoLostWakeUp(PumpBegun(s, id))
  {
    hide Unique, Fair, EndersOk, NoLostWakeUp;
    if PumpBegins(s.calls, id) {
      BroadcastKeeps(s.(calls := s.calls[|s.calls| - 1 := Call(id, true)]));
    }
  }

  /** The state once end_pump has stopped the frame at i from pumping. */
  lemma PumpStopped(s: Stream, id: nat, i: nat)
    requires Sound(s) && i < |s.calls| && s.calls[i] == Call(id, true)
    ensures i < |s.turns| && Sound(s.(calls := s.calls[i := Call(id, false)], closed := s.closed + {s.turns[i]}))
    ensures s.turns[i] < |s.log| && s.log[s.turns[i]].id == id
  {
    hide Unique, Fair;
  }

  lemma WaitKeeps(s: Stream, e: Ender)
    requires Sound(s) && NoLostWakeUp(s) && EndersOk([e], s.log, s.closed)
    requires MustWait(s.calls, e.id, e.index) && (s.valid || s.pending)
    ensures Sound(s.(enders := s.enders + [e])) && NoLostWakeUp(s.(enders := s.enders + [e]))
  {
    assert [e][0] == e;
    hide Nested, Unique, Fair, BestWaiter;
  }

  lemma EndPumpKeeps(s: Stream, id: nat, seen: bool)
    requires Sound(s) && MaySee(s, seen)
    ensures |s.turns| == |s.calls| && Sound(PumpEnded(s, id, seen)) && NoLostWakeUp(PumpEnded(s, id, seen))
  {
    assert |s.turns| == |s.calls|;
    hide Nested, Unique, Fair, NoLostWakeUp;
    BroadcastKeeps(s);
    var found := FindCall(s.calls, id);
    if found.Some? && s.calls[found.value].pumping {
      var i := found.value;
      var u := s.(calls := s.calls[i := Call(id, false)], closed := s.closed + {s.turns[i]});
      PumpStopped(s, id, i);
      BroadcastKeeps(u);
      if seen && MustWait(u.calls, id, i) {
        WaitKeeps(Broadcast(u), Ender(id, i, s.turns[i], false));
      } else {
        BroadcastKeeps(Broadcast(u));
      }
    }
  }

  lemma EndCheckKeeps(s: Stream, k: nat, seen: bool)
    requires Sound(s) && NoLostWakeUp(s) && k < |s.enders| && MaySee(s, seen)
    ensures Sound(EndChecked(s, k, seen)) && NoLostWakeUp(EndChecked(s, k, seen))
  {
    hide Nested, Unique, Fair, BestWaiter;
    var e := s.enders[k];
    if !(seen && MustWait(s.calls, e.id, e.index)) {
      BroadcastKeeps(s.(enders := Without(s.enders, k)));
    }
  }

  lemma StepKept(s: Stream, step: Step)
    requires Inv(s) && Enabled(s, step)
    ensures Inv(Next(s, step))
  {
    hide Nested, Unique, Fair, NoLostWakeUp, EndersOk;
    match step
    case Arrive(id, recursive, seen) =>
      ArrivedSound(s, id, recursive);
      ArrivalWakesNobody(s, id, recursive);
      CheckTurnKeeps(Arrived(s, id, recursive), |s.waiters|, seen);
    case Recheck(i, seen) => CheckTurnKeeps(s, i, seen);
    case TimeOut(i) => LeaveKeeps(s, i);
    case Spurious(i) => SpuriousKeeps(s, i);
    case Complete(id) => CompleteKeeps(s, id);
    case BeginPump(id) => BeginPumpKeeps(s, id);
    case EndPump(id, seen) => EndPumpKeeps(s, id, seen);
    case RecheckEnd(k, seen) => EndCheckKeeps(s, k, seen);
    case SpuriousEnd(k) => SpuriousEndKeeps(s, k);
    case Invalidate => InvalidateKeeps(s);
    case BroadcastInvalid => BroadcastKeeps(s); PendingFree(Broadcast(s));
  }

  lemma SpuriousKeeps(s: Stream, i: nat)
    requires Sound(s) && NoLostWakeUp(s) && i < |s.waiters|
    ensures var t := s.(waiters := s.waiters[i := s.waiters[i].(awake := true)]); Sound(t) && NoLostWakeUp(t)
  {
    hide Nested, Unique, Fair, EndersOk, BestWaiter;
    AwakeFree(s.waiters, s.waiters[i := s.waiters[i].(awake := true)], s.log, s.clock);
  }

  lemma SpuriousEndKeeps(s: Stream, k: nat)
    requires Sound(s) && NoLostWakeUp(s) && k < |s.enders|
    ensures var t := s.(enders := s.enders[k := s.enders[k].(awake := true)]); Sound(t) && NoLostWakeUp(t)
  {
    hide Nested, Unique, Fair, BestWaiter;
  }

  lemma InvalidateKeeps(s: Stream)
    requires Sound(s) && NoLostWakeUp(s)
    ensures var t := s.(valid := false, pending := true); Sound(t) && NoLostWakeUp(t)
  {
    hide Nested, Unique, Fair, BestWaiter;
  }

  lemma PendingFree(s: Stream)
    requires Sound(s) && forall i :: 0 <= i < |s.waiters| ==> s.waiters[i].awake
    requires forall k :: 0 <= k < |s.enders| ==> s.enders[k].awake
    ensures Sound(s.(pending := false)) && NoLostWakeUp(s.(pending := false))
  {
    hide Nested, Unique, Fair, BestWaiter;
  }

  lemma {:induction false} RunKept(s: Stream, steps: seq<Step>)
    requires Inv(s) && Legal(s, steps)
    ensures Inv(Run(s, steps))
    decreases |steps|
  {
    hide Inv, Next, Enabled;
    if steps != [] {
      StepKept(s, steps[0]);
      RunKept(Next(s, steps[0]), steps[1..]);
    }
  }

  // ---------------------------------------------------------------- every run

  /** In every reachable state the stack is at most 64 deep, an ordinary turn can only be
      at its bottom, frames stand in the order their turns were granted, and every frame
      below the top pumps or had its pump closed. */
  lemma CallbacksNestProperly(steps: seq<Step>)
    requires Legal(IDLE, steps)
    ensures var s := Run(IDLE, steps); Nested(s.calls, s.turns, s.closed, s.log)
  {
    RunKept(IDLE, steps);
  }

  /** In every reachable state a blocked waiter is not eligible and a blocked end_pump
      has descendants to wait for; and once an invalidation has broadcast, nobody is
      blocked at all. */
  lemma NoWakeUpIsLost(steps: seq<Step>)
    requires Legal(IDLE, steps)
    ensures var s := Run(IDLE, steps);
            && NoLostWakeUp(s)
            && (!s.valid && !s.pending ==>
                  (forall i :: 0 <= i < |s.waiters| ==> s.waiters[i].awake)
                    && forall k :: 0 <= k < |s.enders| ==> s.enders[k].awake)
  {
    RunKept(IDLE, steps);
  }

  /** The waiter's turn has come: the stack has room, nobody of its class came before it, an
      ordinary one sees no recursive one, and it runs alone or under a frame that pumps. */
  predicate TurnHasCome(waiters: seq<Waiter>, calls: seq<Call>, i: nat)
    requires i < |waiters|
  {
    && |calls| < 64
    && (if waiters[i].recursive then forall j :: 0 <= j < i ==> !waiters[j].recursive
        else i == 0 && forall j :: 0 <= j < |waiters| ==> !waiters[j].recursive)
    && (calls == [] || (waiters[i].recursive && calls[|calls| - 1].pumping))
  }

  lemma ComesIsEnters(waiters: seq<Waiter>, calls: seq<Call>, i: nat)
    requires i < |waiters|
    ensures CanEnter(waiters, calls, i) <==> TurnHasCome(waiters, calls, i)
  {
    var first := FirstRecursive(waiters, 0);
    assert first < |waiters| ==> waiters[first].recursive;
  }

  /** A waiter that looks while the stream is valid gets its turn, on top of the stack, exactly
      if its turn has come; otherwise it blocks and nothing else changes. */
  lemma TurnsAreGranted(s: Stream, i: nat)
    requires Enabled(s, Recheck(i, true))
    ensures var w, t := s.waiters[i], Next(s, Recheck(i, true));
            if TurnHasCome(s.waiters, s.calls, i)
            then t.log == s.log + [Turn(w.id, w.recursive, w.stamp)] && t.calls == s.calls + [Call(w.id, false)]
                   && t.waiters == s.waiters[..i] + s.waiters[i + 1..]
            else t == s.(waiters := s.waiters[i := w.(awake := false)])
  {
    ComesIsEnters(s.waiters, s.calls, i);
    hide CanEnter, TurnHasCome;
  }

  /** And so does one that arrives. */
  lemma ArrivalsAreGranted(s: Stream, id: nat, recursive: bool)
    requires Enabled(s, Arrive(id, recursive, true))
    ensures var ws, t := s.waiters + [Waiter(id, recursive, s.clock, true)], Next(s, Arrive(id, recursive, true));
            if TurnHasCome(ws, s.calls, |s.waiters|)
            then t.log == s.log + [Turn(id, recursive, s.clock)] && t.calls == s.calls + [Call(id, false)]
                   && t.waiters == s.waiters
            else && t.log == s.log && t.calls == s.calls
                 && t.waiters == s.waiters + [Waiter(id, recursive, s.clock, false)]
  {
    ComesIsEnters(s.waiters + [Waiter(id, recursive, s.clock, true)], s.calls, |s.waiters|);
    hide CanEnter, TurnHasCome;
  }

  /** In every reachable state nobody is blocked whose turn has come. */
  lemma NobodyWaitsInVain(steps: seq<Step>)
    requires Legal(IDLE, steps)
    ensures var s := Run(IDLE, steps);
            forall i :: 0 <= i < |s.waiters| && !s.waiters[i].awake ==> !TurnHasCome(s.waiters, s.calls, i)
  {
    var s := Run(IDLE, steps);
    RunKept(IDLE, steps);
    forall i | 0 <= i < |s.waiters| && !s.waiters[i].awake
      ensures !TurnHasCome(s.waiters, s.calls, i)
    {
      ComesIsEnters(s.waiters, s.calls, i);
    }
  }

  predicate OnStack(calls: seq<Call>, id: nat) { exists i :: 0 <= i < |calls| && calls[i].id == id }

  predicate Pumps(s: Stream, id: nat) { Call(id, true) in s.calls }

  /** The step grants id its turn. */
  predicate Grants(s: Stream, step: Step, id: nat)
    requires Enabled(s, step)
  {
    var t := Next(s, step);
    |t.log| == |s.log| + 1 && t.log[|s.log|].id == id
  }

  lemma FramesDiffer(s: Stream)
    requires Inv(s)
    ensures forall i, j :: 0 <= i < j < |s.calls| ==> s.calls[i].id != s.calls[j].id
  {
    forall i, j | 0 <= i < j < |s.calls|
      ensures s.calls[i].id != s.calls[j].id
    {
      assert s.turns[i] < s.turns[j] < |s.log|;
    }
  }

  lemma FrameGone(calls: seq<Call>, i: nat, id: nat)
    requires i < |calls| && forall j, k :: 0 <= j < k < |calls| ==> calls[j].id != calls[k].id
    ensures OnStack(Without(calls, i), id) <==> OnStack(calls, id) && id != calls[i].id
    ensures Call(id, true) in Without(calls, i) <==> Call(id, true) in calls && id != calls[i].id
  {
    var us := Without(calls, i);
    assert forall j :: 0 <= j < |us| ==> us[j] == if j < i then calls[j] else calls[j + 1];
    if OnStack(calls, id) && id != calls[i].id {
      var j :| 0 <= j < |calls| && calls[j].id == id;
      assert us[if j < i then j else j - 1] == calls[j];
    }
  }

  lemma FrameSet(calls: seq<Call>, i: nat, pumping: bool, id: nat)
    requires i < |calls| && forall j, k :: 0 <= j < k < |calls| ==> calls[j].id != calls[k].id
    ensures var us := calls[i := Call(calls[i].id, pumping)];
            && (OnStack(us, id) <==> OnStack(calls, id))
            && (Call(id, true) in us <==> if id == calls[i].id then pumping else Call(id, true) in calls)
  {
    var us := calls[i := Call(calls[i].id, pumping)];
    assert us[i] == Call(calls[i].id, pumping);
    assert forall j :: 0 <= j < |calls| && j != i ==> us[j] == calls[j];
    if OnStack(calls, id) {
      var j :| 0 <= j < |calls| && calls[j].id == id;
      assert us[j].id == id;
    }
  }

  lemma FramePushed(calls: seq<Call>, frame: nat, id: nat)
    ensures var us := calls + [Call(frame, false)];
            && (OnStack(us, id) <==> OnStack(calls, id) || id == frame)
            && (Call(id, true) in us <==> Call(id, true) in calls)
  {
    var us := calls + [Call(frame, false)];
    assert us[|calls|] == Call(frame, false);
    if OnStack(calls, id) {
      var j :| 0 <= j < |calls| && calls[j].id == id;
      assert us[j].id == id;
    }
  }

  lemma TurnChanges(s: Stream, i: nat, seen: bool, id: nat)
    requires i < |s.waiters|
    ensures var t := CheckTurn(s, i, seen);
            var granted := |t.log| == |s.log| + 1 && t.log[|s.log|].id == id;
            (OnStack(t.calls, id) <==> OnStack(s.calls, id) || granted) && (Pumps(t, id) <==> Pumps(s, id))
              && (t.log == s.log || t.log == s.log + [t.log[|s.log|]])
  {
    FramePushed(s.calls, s.waiters[i].id, id);
    hide CanEnter, OnStack;
  }

  lemma CompletionChanges(s: Stream, frame: nat, id: nat)
    requires Inv(s) && |s.turns| == |s.calls|
    ensures var t := Completed(s, frame);
            && (OnStack(t.calls, id) <==> OnStack(s.calls, id) && id != frame) && t.log == s.log
            && (Pumps(t, id) <==> Pumps(s, id) && id != frame)
  {
    FramesDiffer(s);
    hide Inv;
    match FindCall(s.calls, frame)
    case None =>
    case Some(i) => FrameGone(s.calls, i, id); hide OnStack;
  }

  lemma BeginningChanges(s: Stream, frame: nat, id: nat)
    requires Inv(s)
    ensures var t := PumpBegun(s, frame);
            && (OnStack(t.calls, id) <==> OnStack(s.calls, id)) && t.log == s.log
            && (Pumps(t, id) <==>
                  Pumps(s, id) || (id == frame && s.calls != [] && s.calls[|s.calls| - 1].id == id))
  {
    FramesDiffer(s);
    hide Inv;
    if s.calls != [] {
      var top := |s.calls| - 1;
      assert s.calls[top] in s.calls;
      FrameSet(s.calls, top, true, id);
      hide OnStack;
    }
  }

  lemma EndingChanges(s: Stream, frame: nat, seen: bool, id: nat)
    requires Inv(s) && |s.turns| == |s.calls|
    ensures var t := PumpEnded(s, frame, seen);
            && (OnStack(t.calls, id) <==> OnStack(s.calls, id)) && t.log == s.log
            && (Pumps(t, id) <==> Pumps(s, id) && id != frame)
  {
    FramesDiffer(s);
    hide Inv;
    match FindCall(s.calls, frame)
    case None =>
    case Some(i) =>
      FrameSet(s.calls, i, false, id);
      assert forall j :: 0 <= j < |s.calls| && s.calls[j].id == frame ==> j == i;
      hide OnStack;
  }

  /** A frame is on the stack from its grant to its completion, and pumps from the moment it
      begins to, as the top frame, until it ends that or completes. */
  lemma FramesComeAndGo(s: Stream, step: Step, id: nat)
    requires Inv(s) && Enabled(s, step)
    ensures var t := Next(s, step);
            && (OnStack(t.calls, id) <==> (OnStack(s.calls, id) && step != Complete(id)) || Grants(s, step, id))
            && (Pumps(t, id) <==>
                  || (Pumps(s, id) && step != Complete(id) && !(step.EndPump? && step.id == id))
                  || (step == BeginPump(id) && s.calls != [] && s.calls[|s.calls| - 1].id == id))
  {
    hide Inv, CheckTurn, Completed, PumpBegun, PumpEnded, OnStack, Pumps;
    match step
    case Arrive(w, recursive, seen) =>
      TurnChanges(Arrived(s, w, recursive), |s.waiters|, seen, id);
      SamePumps(s, Arrived(s, w, recursive), id);
    case Recheck(i, seen) => TurnChanges(s, i, seen, id);
    case Complete(frame) => CompletionChanges(s, frame, id);
    case BeginPump(frame) => BeginningChanges(s, frame, id);
    case EndPump(frame, seen) => EndingChanges(s, frame, seen, id);
    case _ => SamePumps(s, Next(s, step), id);
  }

  lemma SamePumps(s: Stream, t: Stream, id: nat)
    requires t.calls == s.calls
    ensures Pumps(t, id) == Pumps(s, id)
  {}

  predicate Waits(ws: seq<Waiter>, id: nat) { exists i :: 0 <= i < |ws| && ws[i].id == id }

  /** The step lets id go without a turn: it timed out, or saw that the stream is invalid. */
  predicate GivesUp(s: Stream, step: Step, id: nat) {
    match step
    case TimeOut(i) => i < |s.waiters| && s.waiters[i].id == id
    case Recheck(i, seen) => !seen && i < |s.waiters| && s.waiters[i].id == id
    case Arrive(w, _, seen) => !seen && w == id
    case _ => false
  }

  lemma WaiterGone(ws: seq<Waiter>, i: nat, id: nat)
    requires i < |ws| && forall j, k :: 0 <= j < k < |ws| ==> ws[j].id != ws[k].id
    ensures Waits(Without(ws, i), id) <==> Waits(ws, id) && id != ws[i].id
  {
    var us := Without(ws, i);
    assert forall j :: 0 <= j < |us| ==> us[j] == if j < i then ws[j] else ws[j + 1];
    if Waits(ws, id) && id != ws[i].id {
      var j :| 0 <= j < |ws| && ws[j].id == id;
      assert us[if j < i then j else j - 1] == ws[j];
    }
  }

  lemma SameWaiters(ws: seq<Waiter>, us: seq<Waiter>, id: nat)
    requires |us| == |ws| && forall j :: 0 <= j < |ws| ==> us[j].id == ws[j].id
    ensures Waits(us, id) <==> Waits(ws, id)
  {
    if Waits(ws, id) {
      var j :| 0 <= j < |ws| && ws[j].id == id;
      assert us[j].id == id;
    }
  }

  lemma LeftChanges(s: Stream, i: nat, id: nat)
    requires Unique(s.waiters, s.log) && i < |s.waiters|
    ensures Waits(Leave(s, i).waiters, id) <==> Waits(s.waiters, id) && id != s.waiters[i].id
    ensures Leave(s, i).log == s.log
  {
    WaiterGone(s.waiters, i, id);
    SameWaiters(Without(s.waiters, i), Wake(Without(s.waiters, i)), id);
    hide Waits, Unique;
  }

  lemma CheckedChanges(s: Stream, i: nat, seen: bool, id: nat)
    requires Unique(s.waiters, s.log) && i < |s.waiters|
    ensures var t := CheckTurn(s, i, seen);
            var granted := |t.log| == |s.log| + 1 && t.log[|s.log|].id == id;
            Waits(t.waiters, id) <==> Waits(s.waiters, id) && (seen || id != s.waiters[i].id) && !granted
  {
    LeftChanges(s, i, id);
    WaiterGone(s.waiters, i, id);
    SameWaiters(s.waiters, s.waiters[i := s.waiters[i].(awake := false)], id);
    hide Waits, Unique, CanEnter, Leave;
  }

  /** A waiter waits from its arrival until it is granted its turn or gives up. */
  lemma WaitersComeAndGo(s: Stream, step: Step, id: nat)
    requires Inv(s) && Enabled(s, step)
    ensures Waits(Next(s, step).waiters, id) <==>
            && (Waits(s.waiters, id) || (step.Arrive? && step.id == id)) && !GivesUp(s, step, id)
            && !Grants(s, step, id)
  {
    match step
    case Arrive(w, recursive, seen) =>
      var u := Arrived(s, w, recursive);
      ArrivedSound(s, w, recursive);
      assert Unique(u.waiters, u.log);
      hide Inv, Sound, CheckTurn, Unique;
      WaiterCame(s.waiters, u.waiters[|s.waiters|], id);
      CheckedChanges(u, |s.waiters|, seen, id);
      hide Waits;
    case Recheck(i, seen) => hide CheckTurn; CheckedChanges(s, i, seen, id); Found(s, i);
    case TimeOut(i) => hide Leave; LeftChanges(s, i, id); Found(s, i);
    case _ =>
      hide Inv, CanEnter;
      SameWaiters(s.waiters, Next(s, step).waiters, id);
  }

  lemma Found(s: Stream, i: nat)
    requires i < |s.waiters|
    ensures Waits(s.waiters, s.waiters[i].id)
  {}

  lemma WaiterCame(ws: seq<Waiter>, w: Waiter, id: nat)
    ensures Waits(ws + [w], id) <==> Waits(ws, id) || id == w.id
  {
    assert (ws + [w])[|ws|] == w;
    if Waits(ws, id) {
      var j :| 0 <= j < |ws| && ws[j].id == id;
      assert (ws + [w])[j].id == id;
    }
  }

  /** end_pump of a frame with descendants blocks until they are gone, and then comes back. */
  lemma EndPumpWaits(s: Stream, id: nat, i: nat)
    requires Inv(s) && Enabled(s, EndPump(id, true)) && i < |s.calls| && s.calls[i] == Call(id, true)
    ensures i < |s.turns|
    ensures var t := Next(s, EndPump(id, true));
            if i < |s.calls| - 1 then |t.enders| == |s.enders| + 1
                                        && t.enders[|s.enders|] == Ender(id, i, s.turns[i], false)
            else |t.enders| == |s.enders| && Ended(t.calls, id, i, true)
  {
    FramesDiffer(s);
    hide Inv;
  }

  lemma EndPumpComesBack(s: Stream, k: nat)
    requires Enabled(s, RecheckEnd(k, true))
    ensures var e, t := s.enders[k], Next(s, RecheckEnd(k, true));
            |t.enders| == if e.index < |s.calls| - 1 && s.calls[e.index].id == e.id then |s.enders| else |s.enders| - 1
  {}

  /** In every run the turns of each class are granted in order of arrival. */
  lemma TurnsAreFair(steps: seq<Step>)
    requires Legal(IDLE, steps)
    ensures var log := Run(IDLE, steps).log;
            forall k, l :: 0 <= k < l < |log| && log[k].recursive == log[l].recursive ==> log[k].stamp < log[l].stamp
  {
    RunKept(IDLE, steps);
  }

  /** An ordinary turn is granted only while no recursive one waits, and only at depth 0. */
  lemma OrdinaryTurnsYield(s: Stream, step: Step)
    requires Inv(s) && Enabled(s, step) && |Next(s, step).log| > |s.log| && !Next(s, step).log[|s.log|].recursive
    ensures s.calls == [] && forall i :: 0 <= i < |s.waiters| ==> !s.waiters[i].recursive
  {
    match step
    case Arrive(id, recursive, seen) =>
      var t := Arrived(s, id, recursive);
      BestIsFirst(t.waiters, |s.waiters|);
      assert s.waiters == t.waiters[..|s.waiters|];
    case Recheck(i, seen) => BestIsFirst(s.waiters, i);
    case _ =>
  }

  /** end_pump returns true only when the frame is on top, so that every turn granted
      after it has completed, and its pump is closed. */
  lemma EndPumpMeansUnwound(s: Stream, id: nat, index: nat, seen: bool, turn: nat)
    requires Inv(s) && turn < |s.log| && s.log[turn].id == id && Ended(s.calls, id, index, seen)
    ensures s.turns != [] && s.turns[|s.turns| - 1] == turn && forall k :: turn < k < |s.log| ==> k !in s.turns
  {}

  /** The same for a thread that blocked in end_pump and comes to its recheck. */
  lemma EndPumpReturns(s: Stream, k: nat, seen: bool)
    requires Inv(s) && k < |s.enders| && Ended(s.calls, s.enders[k].id, s.enders[k].index, seen)
    ensures var turn := s.enders[k].turn;
            && s.turns != [] && s.turns[|s.turns| - 1] == turn && turn in s.closed
            && forall l :: turn < l < |s.log| ==> l !in s.turns
  {
    EndPumpMeansUnwound(s, s.enders[k].id, s.enders[k].index, seen, s.enders[k].turn);
  }
}
