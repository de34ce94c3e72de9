/** The client's bounded notification queues. A burst of keyboard records folds into one,
    observer events beyond the capacity are counted, and nothing is lost unreported. */
module ClientQueues {
  import opened Codes

  const CAPACITY := 16
  const UINT64_MAX := 0xFFFF_FFFF_FFFF_FFFF
  const MONITORING := 0 // the bit number of the input-monitoring scope

  /** A fixed ring: contents start at head and wrap around. */
  class Ring<T(0)> {
    const slots: array<T>
    var head: nat
    var count: nat

    ghost predicate Valid()
      reads this, slots
    {
      slots.Length == CAPACITY && head < CAPACITY && count <= CAPACITY
    }

    ghost function Contents(): (r: seq<T>)
      requires Valid()
      reads this, slots
      ensures |r| == count
    {
      seq(count, i requires 0 <= i < count && Valid() reads this, slots => slots[(head + i) % CAPACITY])
    }

    constructor ()
      ensures Valid() && Contents() == [] && fresh(slots)
    {
      slots := new T[CAPACITY];
      head, count := 0, 0;
    }

    method Push(x: T) returns (ok: bool)
      requires Valid()
      modifies this, slots
      ensures Valid() && ok == (|old(Contents())| < CAPACITY)
      ensures Contents() == if ok then old(Contents()) + [x] else old(Contents())
    {
      ok := count < CAPACITY;
      if ok {
        slots[(head + count) % CAPACITY] := x;
        count := count + 1;
      }
    }

    method ReplaceLast(x: T)
      requires Valid() && count > 0
      modifies slots
      ensures Valid() && Contents() == old(Contents())[|old(Contents())| - 1 := x]
    {
      slots[(head + count - 1) % CAPACITY] := x;
    }

    method Last() returns (x: T)
      requires Valid() && count > 0
      ensures x == Contents()[count - 1]
    {
      x := slots[(head + count - 1) % CAPACITY];
    }

    method Pop() returns (x: T)
      requires Valid() && count > 0
      modifies this
      ensures Valid() && x == old(Contents())[0] && Contents() == old(Contents())[1..]
    {
      x := slots[head];
      head := (head + 1) % CAPACITY;
      count := count - 1;
    }

    method Clear()
      requires Valid()
      modifies this
      ensures Valid() && Contents() == []
    {
      count := 0;
    }
  }

  // ---------------------------------------------------------------- the lease queue

  /** A full keyboard state with its place in the service's sequence. */
  datatype Record = Record(state: nat, modifiers: nat, sequence: nat)

  datatype LeaseEvent = Keyboard(delta: bool, record: Record) | Grant(scopes: set<nat>) | Revoke(scopes: set<nat>)

  predicate WellFormed(e: LeaseEvent) {
    (e.Keyboard? ==> e.record.sequence != 0) && (e.Revoke? ==> e.scopes != {})
  }

  datatype Kind = Snapshot | Delta | Granted | Revoked

  datatype Message = Message(kind: Kind, record: Option<Record>, revoked: set<nat>, granted: set<nat>) {
    predicate IsKeyboard() { kind.Snapshot? || kind.Delta? }
  }

  /** What a reader of the events, or of the messages, knows. */
  datatype Knowledge = Knowledge(record: Option<Record>, granted: set<nat>)

  /** Every event folded directly. */
  function Learn(k: Knowledge, e: LeaseEvent): Knowledge {
    match e
    case Keyboard(_, record) => k.(record := Some(record))
    case Grant(scopes) => k.(granted := scopes)
    case Revoke(scopes) => k.(granted := k.granted - scopes)
  }

  /** A message read by the program. */
  function Read(k: Knowledge, m: Message): Knowledge {
    Knowledge(if m.IsKeyboard() then m.record else k.record, m.granted)
  }

  function ReadAll(k: Knowledge, ms: seq<Message>): Knowledge {
    if ms == [] then k else Read(ReadAll(k, ms[..|ms| - 1]), ms[|ms| - 1])
  }

  function MessageOf(e: LeaseEvent, granted: set<nat>): Message {
    match e
    case Keyboard(delta, record) => Message(if delta then Delta else Snapshot, Some(record), {}, granted)
    case Grant(_) => Message(Granted, None, {}, granted)
    case Revoke(scopes) => Message(Revoked, None, scopes, granted)
  }

  function Queued(queue: seq<Message>, e: LeaseEvent, granted: set<nat>): Option<seq<Message>> {
    var m := MessageOf(e, granted);
    if e.Keyboard? && queue != [] && queue[|queue| - 1].IsKeyboard()
    then Some(queue[|queue| - 1 := m.(kind := Snapshot)])
    else if |queue| == CAPACITY then None
    else Some(queue + [m])
  }

  predicate NoBursts(queue: seq<Message>) {
    forall i :: 0 <= i < |queue| - 1 ==> !(queue[i].IsKeyboard() && queue[i + 1].IsKeyboard())
  }

  /** Reading what was read so far and then the queue gives what folding every event gives. */
  ghost predicate Faithful(read: Knowledge, queue: seq<Message>, folded: Knowledge) {
    ReadAll(read, queue) == folded && NoBursts(queue) && |queue| <= CAPACITY
  }

  /** A keyboard record that follows another takes its place. */
  predicate Folds(queue: seq<Message>, e: LeaseEvent) {
    e.Keyboard? && queue != [] && queue[|queue| - 1].IsKeyboard()
  }

  /** What is queued says what happened: a record that took another's place is a snapshot, and
      a notice carries the scopes that its event revoked. */
  lemma QueuedSays(queue: seq<Message>, e: LeaseEvent, granted: set<nat>)
    requires Queued(queue, e, granted).Some?
    ensures var q := Queued(queue, e, granted).value;
            && |q| == |queue| + (if Folds(queue, e) then 0 else 1)
            && (forall k :: 0 <= k < |q| - 1 ==> q[k] == queue[k])
            && var m := q[|q| - 1];
               && m.granted == granted && m.revoked == (if e.Revoke? then e.scopes else {})
               && (m.kind.Delta? <==> e.Keyboard? && e.delta && !Folds(queue, e))
               && (m.kind.Snapshot? <==> e.Keyboard? && (!e.delta || Folds(queue, e)))
               && (m.kind.Revoked? <==> e.Revoke?) && (m.record == if e.Keyboard? then Some(e.record) else None)
  {}

  lemma QueuedFaithful(read: Knowledge, queue: seq<Message>, folded: Knowledge, e: LeaseEvent)
    requires Faithful(read, queue, folded)
    ensures var q := Queued(queue, e, Learn(folded, e).granted);
            q.Some? ==> Faithful(read, q.value, Learn(folded, e))
    ensures Queued(queue, e, Learn(folded, e).granted).None? <==> |queue| == 16 && !Folds(queue, e)
  {
    var granted := Learn(folded, e).granted;
    var m, n := MessageOf(e, granted), |queue|;
    if e.Keyboard? && queue != [] && queue[n - 1].IsKeyboard() {
      var q := queue[n - 1 := m.(kind := Snapshot)];
      assert q[..n - 1] == queue[..n - 1];
    } else if n < CAPACITY {
      assert (queue + [m])[..n] == queue;
    }
  }

  lemma {:induction false} PopFaithful(read: Knowledge, queue: seq<Message>, folded: Knowledge)
    requires Faithful(read, queue, folded) && queue != []
    ensures Faithful(Read(read, queue[0]), queue[1..], folded)
  {
    ReadFirst(read, queue);
    assert forall i :: 0 <= i < |queue[1..]| ==> queue[1..][i] == queue[i + 1];
  }

  lemma DrainedFaithful(read: Knowledge, folded: Knowledge)
    requires Faithful(read, [], folded)
    ensures read == folded
  {}

  lemma {:induction false} ReadFirst(k: Knowledge, ms: seq<Message>)
    requires ms != []
    ensures ReadAll(k, ms) == ReadAll(Read(k, ms[0]), ms[1..])
  {
    var n := |ms| - 1;
    if n > 0 {
      ReadFirst(k, ms[..n]);
      assert ms[..n][1..] == ms[1..][..n - 1];
      assert ms[..n][0] == ms[0] && ms[1..][n - 1] == ms[n];
    } else {
      assert ms[..0] == [] && ms[1..] == [];
    }
  }

  class LeaseQueue {
    const ring: Ring<Message>
    var granted: set<nat>
    ghost var folded: Knowledge // every event received
    ghost var read: Knowledge   // every message handed out

    ghost predicate Valid()
      reads this, ring, ring.slots
    {
      ring.Valid() && granted == folded.granted && Faithful(read, ring.Contents(), folded)
    }

    constructor (scopes: set<nat>)
      ensures Valid() && folded == Knowledge(None, scopes) && fresh(ring) && fresh(ring.slots)
    {
      ring := new Ring<Message>();
      granted := scopes;
      folded, read := Knowledge(None, scopes), Knowledge(None, scopes);
    }

    /** Refused only when malformed, or when the queue is full and the event cannot fold
        into its last message. */
    method Receive(e: LeaseEvent) returns (ok: bool)
      requires Valid()
      modifies this, ring, ring.slots
      ensures ok ==> Valid() && folded == Learn(old(folded), e) && read == old(read)
      ensures ok <==> WellFormed(e) && Queued(old(ring.Contents()), e, Learn(old(folded), e).granted).Some?
      ensures !ok ==> ring.Valid() && ring.Contents() == old(ring.Contents())
    {
      hide Faithful, Ring.Contents;
      if !WellFormed(e) {
        return false;
      }
      QueuedFaithful(read, ring.Contents(), folded, e);
      folded := Learn(folded, e);
      match e {
        case Keyboard(_, _) =>
        case Grant(scopes) => granted := scopes;
        case Revoke(scopes) => granted := granted - scopes;
      }
      var m := MessageOf(e, granted);
      if e.Keyboard? && ring.count != 0 {
        var last := ring.Last();
        if last.IsKeyboard() {
          ring.ReplaceLast(m.(kind := Snapshot));
          return true;
        }
      }
      ok := ring.Push(m);
    }

    method NextMessage() returns (m: Option<Message>)
      requires Valid()
      modifies this, ring
      ensures Valid() && folded == old(folded)
      ensures if old(ring.Contents()) == [] then m.None? && read == folded
              else && m == Some(old(ring.Contents())[0]) && read == Read(old(read), m.value)
                   && ring.Contents() == old(ring.Contents())[1..]
    {
      if ring.count == 0 {
        return None;
      }
      PopFaithful(read, ring.Contents(), folded);
      var x := ring.Pop();
      read := Read(read, x);
      m := Some(x);
    }

    /** Draining hands out as much as every event received says: the last keyboard record,
        its sequence and the scopes granted. */
    method Drain() returns (ms: seq<Message>)
      requires Valid()
      modifies this, ring
      ensures Valid() && read == folded == old(folded) && ring.Contents() == []
      ensures ms == old(ring.Contents()) && NoBursts(ms)
    {
      assert NoBursts(ring.Contents());
      hide Faithful, Ring.Contents;
      ms := [];
      while ring.count != 0
        invariant Valid() && folded == old(folded) && ms + ring.Contents() == old(ring.Contents())
        decreases ring.count
      {
        ghost var rest := ring.Contents();
        var m := NextMessage();
        assert ms + rest == ms + [m.value] + ring.Contents();
        ms := ms + [m.value];
      }
      assert ring.Contents() == [] && ms + [] == ms;
      DrainedFaithful(read, folded);
    }
  }

  // ---------------------------------------------------------------- the observer queue

  /** What became of the events received since the last monitoring revocation: accepted
      are the positions of those queued, in order, and the first `delivered` of them were
      handed out. */
  datatype History = History(received: seq<nat>, accepted: seq<nat>, delivered: nat, reported: nat)

  const NOTHING := History([], [], 0, 0)

  ghost predicate Accounted(h: History, queue: seq<nat>, dropped: nat) {
    && (forall i, j :: 0 <= i < j < |h.accepted| ==> h.accepted[i] < h.accepted[j])
    && (forall i :: 0 <= i < |h.accepted| ==> h.accepted[i] < |h.received|)
    && h.delivered + |queue| == |h.accepted| && |queue| <= CAPACITY && dropped <= UINT64_MAX
    && (forall i :: 0 <= i < |queue| ==> queue[i] == h.received[h.accepted[h.delivered + i]])
    && |h.accepted| + h.reported + dropped <= |h.received|
    && (|h.received| <= UINT64_MAX ==> |h.received| == h.delivered + |queue| + h.reported + dropped)
  }

  function Observed(h: History, e: nat, room: bool): History {
    h.(received := h.received + [e], accepted := if room then h.accepted + [|h.received|] else h.accepted)
  }

  lemma QueuedAccounted(h: History, queue: seq<nat>, dropped: nat, e: nat)
    requires Accounted(h, queue, dropped) && |queue| < CAPACITY
    ensures Accounted(Observed(h, e, true), queue + [e], dropped)
  {
    var g, q := Observed(h, e, true), queue + [e];
    assert forall i :: 0 <= i < |h.accepted| ==> g.accepted[i] == h.accepted[i];
    assert forall i :: 0 <= i < |h.received| ==> g.received[i] == h.received[i];
    forall i | 0 <= i < |q|
      ensures q[i] == g.received[g.accepted[g.delivered + i]]
    {
      if i < |queue| {
        assert q[i] == queue[i];
      }
    }
  }

  lemma DroppedAccounted(h: History, queue: seq<nat>, dropped: nat, e: nat)
    requires Accounted(h, queue, dropped)
    ensures Accounted(Observed(h, e, false), queue, if dropped != UINT64_MAX then dropped + 1 else dropped)
  {}

  lemma DeliveredAccounted(h: History, queue: seq<nat>, dropped: nat)
    requires Accounted(h, queue, dropped) && queue != []
    ensures Accounted(h.(delivered := h.delivered + 1), queue[1..], dropped)
    ensures h.delivered < |h.accepted| && h.accepted[h.delivered] < |h.received|
            && queue[0] == h.received[h.accepted[h.delivered]]
  {}

  datatype Observation = Seen(event: nat) | Overflow(dropped: nat) | ScopesRevoked(scopes: set<nat>)

  class ObserverQueue {
    const ring: Ring<nat>
    var dropped: nat
    var pendingRevoked: set<nat>
    ghost var history: History

    ghost predicate Valid()
      reads this, ring, ring.slots
    {
      ring.Valid() && Accounted(history, ring.Contents(), dropped)
    }

    constructor ()
      ensures Valid() && history == NOTHING && pendingRevoked == {} && fresh(ring) && fresh(ring.slots)
    {
      ring := new Ring<nat>();
      dropped, pendingRevoked, history := 0, {}, NOTHING;
    }

    /** An event is queued, or counted if the queue is full. */
    method Receive(e: nat)
      requires Valid()
      modifies this, ring, ring.slots
      ensures Valid() && history == Observed(old(history), e, |old(ring.Contents())| < CAPACITY)
      ensures pendingRevoked == old(pendingRevoked)
      ensures dropped == if |old(ring.Contents())| < CAPACITY || old(dropped) == UINT64_MAX then old(dropped)
                         else old(dropped) + 1
    {
      hide Accounted, Ring.Contents;
      if ring.count == CAPACITY {
        DroppedAccounted(history, ring.Contents(), dropped, e);
        if dropped != UINT64_MAX {
          dropped := dropped + 1;
        }
        history := Observed(history, e, false);
      } else {
        QueuedAccounted(history, ring.Contents(), dropped, e);
        history := Observed(history, e, true);
        var _ := ring.Push(e);
      }
    }

    /** Losing the monitoring scope withdraws what is queued and counted. */
    method RevokeScopes(scopes: set<nat>) returns (ok: bool)
      requires Valid()
      modifies this, ring
      ensures Valid() && ok == (scopes != {})
      ensures pendingRevoked == old(pendingRevoked) + scopes
      ensures history == if MONITORING in scopes then NOTHING else old(history)
    {
      ok := scopes != {};
      pendingRevoked := pendingRevoked + scopes;
      if MONITORING in scopes {
        ring.Clear();
        dropped := 0;
        history := NOTHING;
      }
    }

    /** Revocations first, then events in order of arrival, then how many were dropped. */
    method NextObservation() returns (o: Option<Observation>)
      requires Valid()
      modifies this, ring
      ensures Valid() && pendingRevoked == {}
      ensures dropped == if o.Some? && o.value.Overflow? then 0 else old(dropped)
      ensures if old(pendingRevoked) != {}
              then o == Some(ScopesRevoked(old(pendingRevoked))) && history == old(history)
              else if old(history.delivered) < |old(history.accepted)|
              then o == Some(Seen(old(history).received[old(history).accepted[old(history).delivered]]))
                && history == old(history).(delivered := old(history.delivered) + 1)
              else if old(dropped) != 0
              then o == Some(Overflow(old(dropped)))
                && history == old(history).(reported := old(history.reported) + old(dropped))
              else o.None? && history == old(history)
    {
      if pendingRevoked != {} {
        o := Some(ScopesRevoked(pendingRevoked));
        pendingRevoked := {};
        return;
      }
      if ring.count != 0 {
        DeliveredAccounted(history, ring.Contents(), dropped);
        var e := ring.Pop();
        history := history.(delivered := history.delivered + 1);
        return Some(Seen(e));
      }
      if dropped != 0 {
        o := Some(Overflow(dropped));
        history := history.(reported := history.reported + dropped);
        dropped := 0;
        return;
      }
      o := None;
    }

    /** Since the last monitoring revocation, every event was delivered, is queued, was
        reported as dropped, or waits to be. */
    lemma NothingIsLostSilently()
      requires Valid() && |history.received| <= UINT64_MAX
      ensures |history.received| == history.delivered + |ring.Contents()| + history.reported + dropped
      ensures forall i :: 0 <= i < |ring.Contents()| ==>
                history.delivered + i < |history.accepted|
                  && history.accepted[history.delivered + i] < |history.received|
                && ring.Contents()[i] == history.received[history.accepted[history.delivered + i]]
    {}
  }
}
