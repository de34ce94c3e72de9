/** One callback stream in place: the waiter list, and the call stack in a fixed array
    whose slots at and above the depth are zero. */
module HookStreams {
  import opened Codes
  import opened Scheduler

  const NO_CALL := Call(0, false)

  class HookStream {
    var valid: bool
    var waiters: seq<Waiter>
    const calls: array<Call>
    var depth: nat
    ghost var pending: bool
    ghost var enders: seq<Ender>
    ghost var turns: seq<nat>
    ghost var closed: set<nat>
    ghost var log: seq<Turn>
    ghost var clock: nat

    ghost predicate Valid()
      reads this, calls
    {
      && calls.Length == MAX_DEPTH && depth <= MAX_DEPTH && |turns| == depth
      && forall i :: depth <= i < MAX_DEPTH ==> calls[i] == NO_CALL
    }

    ghost function State(): Stream
      requires Valid()
      reads this, calls
    {
      Stream(valid, pending, waiters, calls[..depth], enders, turns, closed, log, clock)
    }

    constructor ()
      ensures Valid() && State() == IDLE && fresh(calls)
    {
      valid, waiters, depth := true, [], 0;
      calls := new Call[MAX_DEPTH](_ => NO_CALL);
      pending, enders, turns, closed, log, clock := false, [], [], {}, [], 0;
    }

    method FindBest() returns (r: nat)
      ensures r == BestWaiter(waiters)
    {
      var i := 0;
      while i < |waiters|
        invariant i <= |waiters| && FirstRecursive(waiters, i) == FirstRecursive(waiters, 0)
      {
        if waiters[i].recursive {
          return i;
        }
        i := i + 1;
      }
      r := 0;
    }

    method MayEnter(i: nat) returns (r: bool)
      requires Valid() && i < |waiters|
      ensures r == CanEnter(waiters, calls[..depth], i)
    {
      var best := FindBest();
      if depth >= MAX_DEPTH || best != i {
        return false;
      }
      if depth == 0 {
        return true;
      }
      r := waiters[i].recursive && calls[depth - 1].pumping;
    }

    method BroadcastAll()
      requires Valid()
      modifies `waiters, `enders
      ensures Valid() && State() == Broadcast(old(State()))
    {
      waiters, enders := Wake(waiters), WakeEnders(enders);
    }

    /** One pass of the wait loop for the waiter at i. */
    method TakeTurn(i: nat, seen: bool) returns (entered: bool)
      requires Valid() && i < |waiters|
      modifies this, calls
      ensures Valid() && State() == CheckTurn(old(State()), i, seen)
      ensures entered <==> seen && TurnHasCome(old(waiters), old(calls[..depth]), i)
    {
      ComesIsEnters(waiters, calls[..depth], i);
      hide TurnHasCome;
      entered := false;
      if !seen {
        waiters := waiters[..i] + waiters[i + 1..];
        BroadcastAll();
        return;
      }
      var may := MayEnter(i);
      if may {
        var w := waiters[i];
        ghost var stack := calls[..depth];
        waiters := waiters[..i] + waiters[i + 1..];
        calls[depth] := calls[depth].(id := w.id);
        turns, log := turns + [|log|], log + [Turn(w.id, w.recursive, w.stamp)];
        depth := depth + 1;
        entered := true;
        assert calls[..depth] == stack + [Call(w.id, false)];
      } else {
        waiters := waiters[i := waiters[i].(awake := false)];
      }
    }

    method Locate(id: nat) returns (r: Option<nat>)
      requires Valid()
      ensures r == FindCall(calls[..depth], id)
    {
      var i: nat := depth;
      while i > 0
        invariant i <= depth && FindBelow(calls[..depth], id, i) == FindCall(calls[..depth], id)
      {
        if calls[i - 1].id == id {
          return Some(i - 1);
        }
        i := i - 1;
      }
      r := None;
    }

    /** Removes the frame at i, moving the frames above it down and zeroing the last. */
    method RemoveCall(i: nat)
      requires Valid() && i < depth
      modifies this, calls
      ensures Valid()
              && State() == old(State()).(calls := Without(old(calls[..depth]), i), turns := Without(old(turns), i))
    {
      ghost var was := calls[..depth];
      var j := i;
      while j + 1 < depth
        invariant i <= j < depth == old(depth) && unchanged(this)
        invariant forall k :: 0 <= k < calls.Length ==>
                    calls[k] == if i <= k < j then old(calls[k + 1]) else old(calls[k])
      {
        calls[j] := calls[j + 1];
        j := j + 1;
      }
      depth := depth - 1;
      calls[depth] := NO_CALL;
      turns := Without(turns, i);
      assert calls[..depth] == Without(was, i);
    }

    method CompleteEvent(id: nat)
      requires Valid()
      modifies this, calls
      ensures Valid() && State() == Completed(old(State()), id)
    {
      var found := Locate(id);
      if found.Some? {
        RemoveCall(found.value);
      }
      BroadcastAll();
    }

    method StartPump(id: nat) returns (ok: bool)
      requires Valid()
      modifies this, calls
      ensures Valid() && State() == PumpBegun(old(State()), id)
      ensures ok <==> old(depth) > 0 && old(calls[..depth])[old(depth) - 1] == Call(id, false)
    {
      ok := depth != 0 && calls[depth - 1].id == id && !calls[depth - 1].pumping;
      if ok {
        ghost var was := calls[..depth];
        calls[depth - 1] := calls[depth - 1].(pumping := true);
        assert calls[..depth] == was[depth - 1 := Call(id, true)];
        BroadcastAll();
      }
    }

    /** end_pump up to the point where it returns or blocks. */
    method StopPump(id: nat, seen: bool) returns (ended: bool)
      requires Valid()
      modifies this, calls
      ensures Valid() && State() == PumpEnded(old(State()), id, seen)
      ensures ended <==> seen && old(depth) > 0 && old(calls[..depth])[old(depth) - 1] == Call(id, true)
    {
      ended := false;
      var found := Locate(id);
      if found.Some? && calls[found.value].pumping {
        var i := found.value;
        ghost var was := calls[..depth];
        calls[i] := calls[i].(pumping := false);
        closed := closed + {turns[i]};
        assert calls[..depth] == was[i := Call(id, false)];
        BroadcastAll();
        if seen && depth > i + 1 && calls[i].id == id {
          enders := enders + [Ender(id, i, turns[i], false)];
          return;
        }
        ended := seen && depth == i + 1 && calls[i].id == id;
      }
      BroadcastAll();
    }
  }
}
