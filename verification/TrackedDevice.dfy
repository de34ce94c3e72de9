/** The reader's record of one source, updated in place as in src/platform/linux_devices.c. */
module TrackedDevices {
  import opened Codes
  import opened Forwarding
  import opened GrabBoundary

  class TrackedDevice {
    var open: bool
    var target: nat
    var serial: nat
    var grabbed: bool
    var deferred: bool
    var deferredDown: set<nat>
    var owed: set<nat>
    var enqueued: Keys
    var lane: seq<Waiting>             // with the hook lanes, which the reader only adds to
    ghost var admitted: seq<Admission>

    ghost function State(): Reader
      reads this
    {
      Reader(open, target, serial, grabbed, deferred, deferredDown, owed, enqueued, lane, admitted)
    }

    constructor ()
      ensures State() == CLOSED
    {
      open, target, serial, grabbed, deferred := false, 0, 0, false, false;
      deferredDown, owed, enqueued, lane, admitted := {}, {}, NO_KEYS, [], [];
    }

    method CloseDevice()
      modifies this
      ensures State() == Closed(old(State()))
    {
      open, target, grabbed, deferred := false, 0, false, false;
      deferredDown, owed, enqueued := {}, {}, NO_KEYS;
    }

    /** The queue takes one part of a packet. */
    method PushPart(source: bool, packetTarget: nat, code: nat, value: nat)
      modifies `enqueued, `admitted
      ensures State() == AdmitPart(old(State()), source, packetTarget, code, value)
    {
      if packetTarget == target {
        enqueued := NoteEvent(enqueued, KeyEvent(code, value), source);
      }
      admitted := admitted + [Admission(source, packetTarget, code, value)];
    }

    /** Read under a grab: the source's state goes to the queue, its replay to a lane. */
    method ForwardEvent(code: nat, value: nat, taken: bool)
      modifies this
      ensures State() == ForwardKey(old(State()), code, value, taken)
    {
      if taken {
        PushPart(true, target, code, value);
      }
      lane := lane + [Waiting(target, code, value)];
    }

    /** A lane is done with a replay, and the queue may take it. */
    method FinishReplay(k: nat, taken: bool)
      requires k < |lane|
      modifies this
      ensures State() == Decided(old(State()), k, taken)
    {
      var w := lane[k];
      lane := lane[..k] + lane[k + 1..];
      if taken {
        PushPart(false, w.target, w.code, w.value);
      }
    }

    method ForwardRelease(code: nat, value: nat, verdict: Verdict)
      modifies this
      ensures State() == ReleaseOwed(old(State()), code, value, verdict)
    {
      if value != 0 || code > KEY_MAX || code !in owed {
        return;
      }
      if verdict.source {
        PushPart(true, target, code, 0);
        if verdict.replay {
          PushPart(false, target, code, 0);
          owed := owed - {code};
        }
      }
    }

    method HandleEvent(q: Queued)
      modifies this
      ensures State() == Arrive(old(State()), q)
    {
      match q
      case Lost => CloseDevice();
      case KeyIn(code, value, verdict) =>
        if open {
          if !grabbed {
            ForwardRelease(code, value, verdict);
          } else if target != 0 {
            ForwardEvent(code, value, verdict.source);
          }
        }
    }

    /** The loop over the events a grab change finds waiting. */
    method DrainEvents(queued: seq<Queued>)
      modifies this
      ensures State() == Drain(old(State()), queued)
    {
      var i := 0;
      while i < |queued|
        invariant i <= |queued| && Drain(State(), queued[i..]) == Drain(old(State()), queued)
      {
        assert queued[i..][1..] == queued[i + 1..];
        HandleEvent(queued[i]);
        i := i + 1;
      }
    }

    /** Pays the releases owed for keys the kernel reports up, in code order. */
    method SettleHolds(keys: Option<set<nat>>, verdict: nat -> Verdict)
      modifies this
      ensures State() == SettleOwed(old(State()), keys, verdict)
    {
      if grabbed || keys.None? {
        return;
      }
      var code := 0;
      while code <= KEY_MAX
        invariant code <= KEY_MAX + 1
        invariant SettleFrom(State(), keys.value, verdict, code) == SettleFrom(old(State()), keys.value, verdict, 0)
      {
        if code in owed && code !in keys.value {
          ForwardRelease(code, 0, verdict(code));
        }
        code := code + 1;
      }
    }

    method DeferWhileHeld(keys: Option<set<nat>>) returns (waits: bool)
      modifies this
      ensures State() == Defer(old(State()), keys) && waits == Waits(keys)
    {
      if keys.None? {
        deferred := false;
        return true;
      }
      deferredDown := set c | c in keys.value && !IsContact(c);
      deferred := deferredDown != {};
      waits := deferred;
      assert forall c :: c in deferredDown <==> c in keys.value && !IsContact(c);
      if waits {
        ghost var c :| c in deferredDown;
        assert c in keys.value && !IsContact(c);
      }
    }

    method ReleaseGrab(w: World)
      modifies this
      ensures State() == Ungrab(old(State()), w)
    {
      if grabbed {
        DrainEvents(w.queued);
      }
      if !open {
        return;
      }
      if !grabbed {
        deferred := false;
        return;
      }
      if !w.ungrabOk {
        CloseDevice();
        return;
      }
      deferred, grabbed := false, false;
      if target != 0 {
        target, serial := serial + 1, serial + 1;
        owed := enqueued.source;
        enqueued := Keys(enqueued.output * enqueued.source, enqueued.source, {});
      }
    }

    method TakeGrab(w: World)
      modifies this
      ensures State() == TryGrab(old(State()), w)
    {
      if w.needs && (w.failed || !w.usable) {
        return;
      }
      var waits := DeferWhileHeld(w.first);
      if waits || w.downstream {
        return;
      }
      DrainEvents(w.queued);
      SettleHolds(w.settle, w.verdict);
      if !open {
        return;
      }
      waits := DeferWhileHeld(w.second);
      if waits || owed != {} || !w.grabOk {
        return;
      }
      grabbed := true;
    }

    method SetDeviceGrab(enabled: bool, w: World)
      modifies this
      ensures State() == GrabSet(old(State()), enabled, w)
    {
      if !open {
        deferred := false;
      } else if !enabled {
        ReleaseGrab(w);
      } else if !grabbed {
        TakeGrab(w);
      } else if w.needs && !w.usable {
        ReleaseGrab(w);
        if open && !grabbed {
          TakeGrab(w.(queued := []));
        }
      }
    }
  }
}
