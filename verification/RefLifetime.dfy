/** The lifetime of callback stream references: atomic counts, the registry under its
    mutex, and a last release in two phases. Each step is one atomic operation or one
    statement inside the registry's critical section, so every interleaving is a run. */
module RefLifetime {
  import opened Codes

  const UINT_MAX := 0xFFFF_FFFF

  /** Dying: the count reached zero and the last holder has yet to unlink, close and free. */
  datatype Phase = Live | Dying(unlinked: bool) | Freed

  /** `holds` are the references threads actually have, and `closes` counts closes of fd. */
  datatype Ref = Ref(fd: nat, count: nat, holds: nat, valid: bool, phase: Phase, closes: nat)

  /** Who has the registry mutex: a lookup at the rest of the list, which may already have
      seen the first candidate valid, or a last release. */
  datatype Lock = Open | Looking(fd: nat, rest: seq<nat>, sawValid: bool) | Unlinking(r: nat)

  datatype State = State(refs: seq<Ref>, registry: seq<nat>, lock: Lock)

  datatype Step =
    | Create(fd: nat)
    | Acquire(r: nat)
    | Drop(r: nat)
    | Invalidate(r: nat)
    | StartLookup(fd: nat)
    | LookAt
    | TakeCandidate
    | StartUnlink(r: nat)
    | Unlink
    | Destroy(r: nat)

  predicate Holdable(ref: Ref) { ref.count != 0 && ref.count != UINT_MAX }

  function With(s: State, r: nat, ref: Ref): State
    requires r < |s.refs|
  {
    s.(refs := s.refs[r := ref])
  }

  function Taken(ref: Ref): Ref { ref.(count := ref.count + 1, holds := ref.holds + 1) }

  predicate Enabled(s: State, step: Step) {
    match step
    case Create(_) => s.lock.Open?
    case Acquire(r) => r < |s.refs| && s.refs[r].holds > 0 && Holdable(s.refs[r])
    case Drop(r) => r < |s.refs| && s.refs[r].holds > 0
    case Invalidate(r) => r < |s.refs| && s.refs[r].holds > 0
    case StartLookup(_) => s.lock.Open?
    case LookAt => s.lock.Looking? && !s.lock.sawValid && (s.lock.rest != [] ==> s.lock.rest[0] < |s.refs|)
    case TakeCandidate => s.lock.Looking? && s.lock.sawValid && s.lock.rest != [] && s.lock.rest[0] < |s.refs|
    case StartUnlink(r) => s.lock.Open? && r < |s.refs| && s.refs[r].phase == Dying(false)
    case Unlink => s.lock.Unlinking? && s.lock.r < |s.refs|
    case Destroy(r) => r < |s.refs| && s.refs[r].phase == Dying(true)
  }

  /** The registry without r. */
  function Unlinked(registry: seq<nat>, r: nat): seq<nat> {
    if registry == [] then [] else if registry[0] == r then registry[1..]
      else [registry[0]] + Unlinked(registry[1..], r)
  }

  /** The lookup's next candidate is looked at: a match that reads as valid is tried. */
  function LookedAt(s: State): State
    requires s.lock.Looking? && (s.lock.rest != [] ==> s.lock.rest[0] < |s.refs|)
  {
    if s.lock.rest == [] then s.(lock := Open)
    else
      var ref := s.refs[s.lock.rest[0]];
      if ref.fd == s.lock.fd && ref.valid then s.(lock := s.lock.(sawValid := true))
      else s.(lock := Looking(s.lock.fd, s.lock.rest[1..], false))
  }

  function Next(s: State, step: Step): State
    requires Enabled(s, step)
  {
    match step
    case Create(fd) => State(s.refs + [Ref(fd, 1, 1, true, Live, 0)], [|s.refs|] + s.registry, Open)
    case Acquire(r) => With(s, r, Taken(s.refs[r]))
    case Drop(r) =>
      var ref := s.refs[r];
      if ref.count == 0 then s
      else
        var phase := if ref.count == 1 then Dying(false) else ref.phase;
        With(s, r, ref.(count := ref.count - 1, holds := ref.holds - 1, phase := phase))
    case Invalidate(r) => With(s, r, s.refs[r].(valid := false))
    case StartLookup(fd) => s.(lock := Looking(fd, s.registry, false))
    case LookAt => LookedAt(s)
    case TakeCandidate =>
      var r := s.lock.rest[0];
      if Holdable(s.refs[r]) then With(s, r, Taken(s.refs[r])).(lock := Open)
      else s.(lock := Looking(s.lock.fd, s.lock.rest[1..], false))
    case StartUnlink(r) => s.(lock := Unlinking(r))
    case Unlink =>
      var t := With(s, s.lock.r, s.refs[s.lock.r].(phase := Dying(true)));
      t.(registry := Unlinked(s.registry, s.lock.r), lock := Open)
    case Destroy(r) => With(s, r, s.refs[r].(phase := Freed, closes := s.refs[r].closes + 1))
  }

  predicate Legal(s: State, steps: seq<Step>)
    decreases |steps|
  {
    steps == [] || (Enabled(s, steps[0]) && Legal(Next(s, steps[0]), steps[1..]))
  }

  function Run(s: State, steps: seq<Step>): State
    requires Legal(s, steps)
    decreases |steps|
  {
    if steps == [] then s else Run(Next(s, steps[0]), steps[1..])
  }

  const EMPTY := State([], [], Open)

  // ---------------------------------------------------------------- invariant

  /** The count is the number of holds, the ref lives while it is held, and its
      descriptor is closed once it is freed and not before. */
  predicate RefOk(ref: Ref) {
    && ref.count == ref.holds && (ref.phase.Live? <==> ref.count > 0)
    && ref.closes == if ref.phase.Freed? then 1 else 0
  }

  predicate Linked(ref: Ref) { ref.phase == Live || ref.phase == Dying(false) }

  predicate Distinct(s: seq<nat>) { forall i, j :: 0 <= i < j < |s| ==> s[i] != s[j] }

  /** The registry lists exactly the refs that are not yet unlinked. */
  predicate RegistryOk(s: State) {
    && Distinct(s.registry) && (forall x :: x in s.registry ==> x < |s.refs| && Linked(s.refs[x]))
    && forall r :: 0 <= r < |s.refs| && Linked(s.refs[r]) ==> r in s.registry
  }

  predicate LockOk(s: State) {
    match s.lock
    case Open => true
    case Looking(_, rest, sawValid) => (forall x :: x in rest ==> x in s.registry) && (sawValid ==> rest != [])
    case Unlinking(r) => r < |s.refs| && s.refs[r].phase == Dying(false)
  }

  predicate Inv(s: State) {
    (forall r :: 0 <= r < |s.refs| ==> RefOk(s.refs[r])) && RegistryOk(s) && LockOk(s)
  }

  lemma {:induction false} UnlinkedIs(registry: seq<nat>, r: nat)
    requires Distinct(registry)
    ensures Distinct(Unlinked(registry, r)) && forall x :: x in Unlinked(registry, r) <==> x in registry && x != r
  {
    if registry != [] {
      assert forall x :: x in registry <==> x == registry[0] || x in registry[1..];
      UnlinkedIs(registry[1..], r);
      if registry[0] != r {
        var rest := Unlinked(registry[1..], r);
        assert forall i :: 0 <= i < |rest| ==> rest[i] in rest;
        assert forall i :: 0 < i < |registry| ==> registry[i] != registry[0];
      }
    }
  }

  lemma CreateKept(s: State, fd: nat)
    requires Inv(s) && s.lock.Open?
    ensures Inv(Next(s, Create(fd)))
  {
    assert forall i :: 0 <= i < |s.registry| ==> s.registry[i] in s.registry;
  }

  lemma UnlinkKept(s: State)
    requires Inv(s) && s.lock.Unlinking?
    ensures Inv(Next(s, Unlink))
  {
    UnlinkedIs(s.registry, s.lock.r);
  }

  lemma StepKept(s: State, step: Step)
    requires Inv(s) && Enabled(s, step)
    ensures Inv(Next(s, step))
  {
    if step.Create? {
      CreateKept(s, step.fd);
    } else if step.Unlink? {
      UnlinkKept(s);
    } else {
      hide Unlinked;
    }
  }

  lemma {:induction false} RunKept(s: State, steps: seq<Step>)
    requires Inv(s) && Legal(s, steps)
    ensures Inv(Run(s, steps))
    decreases |steps|
  {
    hide Inv, Next, Enabled;
    if steps != [] {
      StepKept(s, steps[0]);
      RunKept(Next(s, steps[0]), steps[1..]);
    }
  }

  // ---------------------------------------------------------------- every run

  /** In every interleaving a ref's descriptor is closed at most once, exactly when the
      ref is freed, and only after every hold was dropped; a ref someone holds lives. */
  lemma ClosedOnceAfterTheLastHolder(steps: seq<Step>, r: nat)
    requires Legal(EMPTY, steps) && r < |Run(EMPTY, steps).refs|
    ensures var ref := Run(EMPTY, steps).refs[r];
            && ref.closes <= 1 && (ref.closes == 1 <==> ref.phase.Freed?)
            && (ref.closes == 1 ==> ref.holds == 0) && (ref.holds > 0 ==> ref.phase.Live?)
  {
    RunKept(EMPTY, steps);
  }

  /** Whatever a lookup looks at has not been freed, and what it takes has a holder. */
  lemma LookupsAreSafe(s: State, step: Step)
    requires Inv(s) && Enabled(s, step) && (step.LookAt? || step.TakeCandidate?) && s.lock.rest != []
    ensures var r := s.lock.rest[0]; r < |s.refs| && !s.refs[r].phase.Freed?
    ensures var r, t := s.lock.rest[0], Next(s, step);
            |t.refs| == |s.refs| && (t.refs[r].holds > s.refs[r].holds ==> s.refs[r].phase.Live? && s.refs[r].holds > 0)
  {
    assert s.lock.rest[0] in s.registry;
  }

  lemma ZeroStays(s: State, step: Step, r: nat)
    requires Inv(s) && Enabled(s, step) && r < |s.refs| && s.refs[r].count == 0
    ensures r < |Next(s, step).refs| && Next(s, step).refs[r].count == 0
  {}

  /** Once the count reached zero nobody holds the ref again, however the run goes on. */
  lemma {:induction false} ZeroIsFinal(s: State, steps: seq<Step>, r: nat)
    requires Inv(s) && Legal(s, steps) && r < |s.refs| && s.refs[r].count == 0
    ensures var t := Run(s, steps); r < |t.refs| && t.refs[r].count == 0 && t.refs[r].holds == 0
    decreases |steps|
  {
    if steps != [] {
      ZeroStays(s, steps[0], r);
      StepKept(s, steps[0]);
      hide Inv, Next, Enabled;
      ZeroIsFinal(Next(s, steps[0]), steps[1..], r);
    }
  }

  // ---------------------------------------------------------------- what a lookup finds

  /** A lookup is somewhere in the registry, and its candidate has the descriptor it looks for. */
  predicate LookingOk(s: State) {
    s.lock.Looking? ==>
      && |s.lock.rest| <= |s.registry| && s.lock.rest == s.registry[|s.registry| - |s.lock.rest|..]
      && (s.lock.sawValid ==>
            s.lock.rest != [] && s.lock.rest[0] < |s.refs| && s.refs[s.lock.rest[0]].fd == s.lock.fd)
  }

  /** The ref could not have been taken: another descriptor, invalid, or on its way out. */
  predicate Unfit(ref: Ref, fd: nat) { ref.fd != fd || !ref.valid || ref.count == 0 }

  /** Whatever a lookup has passed was unfit. */
  predicate PassedUnfit(s: State) {
    s.lock.Looking? ==>
      forall k :: 0 <= k < |s.registry| - |s.lock.rest| ==>
        s.registry[k] < |s.refs| && Unfit(s.refs[s.registry[k]], s.lock.fd)
  }

  predicate NoneFull(s: State) { forall r :: 0 <= r < |s.refs| ==> s.refs[r].count < UINT_MAX }

  lemma StepLooks(s: State, step: Step)
    requires Inv(s) && LookingOk(s) && Enabled(s, step)
    ensures LookingOk(Next(s, step))
  {
    hide Unlinked;
  }

  lemma PassedOne(s: State, t: State)
    requires Inv(s) && s.lock.Looking? && s.lock.rest != [] && LookingOk(s) && PassedUnfit(s)
    requires t == s.(lock := Looking(s.lock.fd, s.lock.rest[1..], false))
    requires s.lock.rest[0] < |s.refs| && Unfit(s.refs[s.lock.rest[0]], s.lock.fd)
    ensures PassedUnfit(t)
  {
    var n := |s.registry| - |s.lock.rest|;
    assert s.registry[n] == s.lock.rest[0];
    hide Inv, Unfit;
  }

  lemma StepPasses(s: State, step: Step)
    requires Inv(s) && LookingOk(s) && PassedUnfit(s) && NoneFull(s) && Enabled(s, step)
    ensures PassedUnfit(Next(s, step))
  {
    var t := Next(s, step);
    if s.lock.Looking? && t.lock.Looking? && s.lock.rest != [] && t.lock.rest == s.lock.rest[1..] && step.LookAt? {
      PassedOne(s, t);
    } else if step.TakeCandidate? && t.lock.Looking? {
      PassedOne(s, t);
    } else if s.lock.Looking? && t.lock.Looking? {
      assert t.registry == s.registry && t.lock.fd == s.lock.fd && |t.lock.rest| == |s.lock.rest|;
      assert forall r :: 0 <= r < |s.refs| && Unfit(s.refs[r], s.lock.fd) ==> Unfit(t.refs[r], s.lock.fd);
      hide Unfit, Inv;
    }
  }

  /** No count is full in any state of the run. */
  predicate NeverFull(s: State, steps: seq<Step>)
    requires Legal(s, steps)
    decreases |steps|
  {
    NoneFull(s) && (steps != [] ==> NeverFull(Next(s, steps[0]), steps[1..]))
  }

  lemma {:induction false} RunLooks(s: State, steps: seq<Step>)
    requires Inv(s) && LookingOk(s) && Legal(s, steps)
    ensures LookingOk(Run(s, steps))
    ensures PassedUnfit(s) && NeverFull(s, steps) ==> PassedUnfit(Run(s, steps))
    decreases |steps|
  {
    hide Inv, Next, Enabled, LookingOk, PassedUnfit, NoneFull;
    if steps != [] {
      StepKept(s, steps[0]);
      StepLooks(s, steps[0]);
      if PassedUnfit(s) && NoneFull(s) {
        StepPasses(s, steps[0]);
      }
      RunLooks(Next(s, steps[0]), steps[1..]);
    }
  }

  /** In every interleaving a lookup takes a ref of the descriptor it was asked for, and comes
      back empty only if every ref of it that is still linked is invalid or unheld, unless
      a count was full. */
  lemma LookupsFindTheirRef(steps: seq<Step>, step: Step)
    requires Legal(EMPTY, steps) && Enabled(Run(EMPTY, steps), step)
    ensures var s := Run(EMPTY, steps);
            step.TakeCandidate? && Holdable(s.refs[s.lock.rest[0]]) ==>
              && s.refs[s.lock.rest[0]].fd == s.lock.fd && Next(s, step).lock.Open?
              && Next(s, step).refs[s.lock.rest[0]].holds == s.refs[s.lock.rest[0]].holds + 1
    ensures var s := Run(EMPTY, steps);
            step.LookAt? && s.lock.rest == [] && NeverFull(EMPTY, steps) ==>
              forall r :: 0 <= r < |s.refs| && s.refs[r].fd == s.lock.fd && Linked(s.refs[r]) ==>
                !s.refs[r].valid || s.refs[r].holds == 0
  {
    var s := Run(EMPTY, steps);
    RunKept(EMPTY, steps);
    RunLooks(EMPTY, steps);
    if step.LookAt? && s.lock.rest == [] && NeverFull(EMPTY, steps) {
      forall r | 0 <= r < |s.refs| && s.refs[r].fd == s.lock.fd && Linked(s.refs[r])
        ensures !s.refs[r].valid || s.refs[r].holds == 0
      {
        assert r in s.registry;
        var k :| 0 <= k < |s.registry| && s.registry[k] == r;
        assert Unfit(s.refs[s.registry[k]], s.lock.fd) && RefOk(s.refs[r]);
      }
    }
  }

  /** The ref is invalid, and no lookup saw it while it was valid. */
  predicate Withdrawn(s: State, r: nat) {
    && r < |s.refs| && !s.refs[r].valid
    && !(s.lock.Looking? && s.lock.sawValid && s.lock.rest != [] && s.lock.rest[0] == r)
  }

  lemma StepWithdraws(s: State, step: Step, r: nat)
    requires Enabled(s, step) && (Withdrawn(s, r) || (step == Invalidate(r) && !s.lock.Looking?))
    ensures Withdrawn(Next(s, step), r) && !(step.TakeCandidate? && s.lock.rest[0] == r)
  {
    hide Unlinked;
  }

  /** Once a ref has been invalidated, no lookup that had not yet seen it finds it, however the
      run goes on. */
  lemma {:induction false} InvalidRefsAreNotFound(s: State, steps: seq<Step>, r: nat, step: Step)
    requires Legal(s, steps) && Withdrawn(s, r) && Enabled(Run(s, steps), step)
    ensures Withdrawn(Run(s, steps), r) && !(step.TakeCandidate? && Run(s, steps).lock.rest[0] == r)
    decreases |steps|
  {
    hide Next, Withdrawn;
    if steps != [] {
      StepWithdraws(s, steps[0], r);
      InvalidRefsAreNotFound(Next(s, steps[0]), steps[1..], r, step);
    } else {
      StepWithdraws(s, step, r);
    }
  }

  // ---------------------------------------------------------------- who holds what

  /** What a step adds to the holds of r: a new ref has one, an acquire and a lookup that
      takes it add one, and a drop ends one. */
  function Adds(s: State, step: Step, r: nat): int {
    match step
    case Create(_) => if r == |s.refs| then 1 else 0
    case Acquire(x) => if x == r then 1 else 0
    case Drop(x) => if x == r then -1 else 0
    case TakeCandidate =>
      if s.lock.Looking? && s.lock.rest != [] && s.lock.rest[0] == r && r < |s.refs| && Holdable(s.refs[r])
      then 1 else 0
    case _ => 0
  }

  function HoldsOf(s: State, r: nat): nat { if r < |s.refs| then s.refs[r].holds else 0 }

  function AddedIn(s: State, steps: seq<Step>, r: nat): int
    requires Legal(s, steps)
    decreases |steps|
  {
    if steps == [] then 0 else Adds(s, steps[0], r) + AddedIn(Next(s, steps[0]), steps[1..], r)
  }

  lemma StepAdds(s: State, step: Step, r: nat)
    requires Inv(s) && Enabled(s, step)
    ensures HoldsOf(Next(s, step), r) == HoldsOf(s, r) + Adds(s, step, r)
  {
    hide Unlinked;
  }

  /** In every run the holds of a ref are the ones taken without the ones dropped. */
  lemma {:induction false} HoldsAreCounted(s: State, steps: seq<Step>, r: nat)
    requires Inv(s) && Legal(s, steps)
    ensures HoldsOf(Run(s, steps), r) == HoldsOf(s, r) + AddedIn(s, steps, r)
    decreases |steps|
  {
    hide Inv, Next, Enabled, Adds, HoldsOf;
    if steps != [] {
      StepKept(s, steps[0]);
      StepAdds(s, steps[0], r);
      HoldsAreCounted(Next(s, steps[0]), steps[1..], r);
    }
  }

  // ---------------------------------------------------------------- the way to the close

  lemma {:induction false} RunAppends(s: State, a: seq<Step>, b: seq<Step>)
    requires Legal(s, a) && Legal(Run(s, a), b)
    ensures Legal(s, a + b) && Run(s, a + b) == Run(Run(s, a), b)
    decreases |a|
  {
    hide Next, Enabled;
    if a == [] {
      assert a + b == b;
    } else {
      assert (a + b)[1..] == a[1..] + b;
      RunAppends(Next(s, a[0]), a[1..], b);
    }
  }

  lemma OneStep(s: State, step: Step)
    requires Enabled(s, step)
    ensures Legal(s, [step]) && Run(s, [step]) == Next(s, step)
  {
    hide Next, Enabled;
    assert [step][1..] == [];
  }

  /** How many more statements a lookup may have to make. */
  function Work(lock: Lock): nat {
    match lock
    case Open => 0
    case Looking(_, rest, sawValid) => 2 * |rest| + if sawValid then 1 else 2
    case Unlinking(_) => 1
  }

  /** The statement that whoever has the mutex comes to next. */
  function NextLocked(lock: Lock): Step
    requires !lock.Open?
  {
    if lock.Unlinking? then Unlink else if lock.sawValid then TakeCandidate else LookAt
  }

  lemma LockedStep(s: State, r: nat)
    requires Inv(s) && !s.lock.Open? && r < |s.refs| && s.refs[r].phase.Dying?
    ensures Enabled(s, NextLocked(s.lock))
    ensures var t := Next(s, NextLocked(s.lock)); Work(t.lock) < Work(s.lock) && r < |t.refs| && t.refs[r].phase.Dying?
  {
    if s.lock.Looking? && s.lock.rest != [] {
      assert s.lock.rest[0] in s.registry;
    }
    hide Unlinked;
  }

  /** Whoever has the registry mutex gets to the end of its critical section. */
  lemma {:induction false} MutexIsReleased(s: State, r: nat) returns (steps: seq<Step>)
    requires Inv(s) && r < |s.refs| && s.refs[r].phase.Dying?
    ensures Legal(s, steps)
    ensures var t := Run(s, steps); Inv(t) && t.lock.Open? && r < |t.refs| && t.refs[r].phase.Dying?
    decreases Work(s.lock)
  {
    if s.lock.Open? {
      steps := [];
    } else {
      var step := NextLocked(s.lock);
      LockedStep(s, r);
      StepKept(s, step);
      OneStep(s, step);
      hide Inv, Next, Enabled;
      var rest := MutexIsReleased(Next(s, step), r);
      steps := [step] + rest;
      RunAppends(s, [step], rest);
    }
  }

  lemma UnlinkSteps(s: State, r: nat)
    requires Inv(s) && s.lock.Open? && r < |s.refs| && s.refs[r].phase == Dying(false)
    ensures Legal(s, [StartUnlink(r), Unlink])
    ensures var t := Run(s, [StartUnlink(r), Unlink]); Inv(t) && r < |t.refs| && t.refs[r].phase == Dying(true)
  {
    var t := Next(s, StartUnlink(r));
    StepKept(s, StartUnlink(r));
    StepKept(t, Unlink);
    OneStep(s, StartUnlink(r));
    OneStep(t, Unlink);
    hide Inv;
    RunAppends(s, [StartUnlink(r)], [Unlink]);
    assert [StartUnlink(r)] + [Unlink] == [StartUnlink(r), Unlink];
  }

  /** A ref nobody holds any more can always go on to its one close. */
  lemma DyingRefCloses(s: State, r: nat) returns (steps: seq<Step>)
    requires Inv(s) && r < |s.refs| && s.refs[r].phase.Dying?
    ensures Legal(s, steps)
    ensures var t := Run(s, steps); Inv(t) && r < |t.refs| && t.refs[r].phase.Freed? && t.refs[r].closes == 1
  {
    steps := MutexIsReleased(s, r);
    var t := Run(s, steps);
    if t.refs[r].phase == Dying(false) {
      hide Inv;
      UnlinkSteps(t, r);
      RunAppends(s, steps, [StartUnlink(r), Unlink]);
      steps := steps + [StartUnlink(r), Unlink];
    }
    var u := Run(s, steps);
    StepKept(u, Destroy(r));
    OneStep(u, Destroy(r));
    RunAppends(s, steps, [Destroy(r)]);
    steps := steps + [Destroy(r)];
  }

  /** Its holders can let go of it. */
  lemma {:induction false} HoldersLetGo(s: State, r: nat) returns (steps: seq<Step>)
    requires Inv(s) && r < |s.refs| && s.refs[r].phase.Live?
    ensures Legal(s, steps)
    ensures var t := Run(s, steps); Inv(t) && r < |t.refs| && t.refs[r].phase.Dying?
    decreases s.refs[r].count
  {
    var t := Next(s, Drop(r));
    StepKept(s, Drop(r));
    OneStep(s, Drop(r));
    if t.refs[r].phase.Live? {
      hide Inv;
      var rest := HoldersLetGo(t, r);
      RunAppends(s, [Drop(r)], rest);
      steps := [Drop(r)] + rest;
    } else {
      steps := [Drop(r)];
    }
  }

  /** In every interleaving, every ref that has been created has been closed exactly once or
      can still come to its one close. */
  lemma EveryRefComesToItsClose(before: seq<Step>, r: nat)
    requires Legal(EMPTY, before) && r < |Run(EMPTY, before).refs|
    ensures exists after ::
              && Legal(Run(EMPTY, before), after)
              && var t := Run(Run(EMPTY, before), after); r < |t.refs| && t.refs[r].closes == 1 && t.refs[r].holds == 0
  {
    RunKept(EMPTY, before);
    var s := Run(EMPTY, before);
    var after: seq<Step> := [];
    if s.refs[r].phase.Live? {
      after := HoldersLetGo(s, r);
    }
    if !Run(s, after).refs[r].phase.Freed? {
      var rest := DyingRefCloses(Run(s, after), r);
      RunAppends(s, after, rest);
      after := after + rest;
    }
    var t := Run(s, after);
    assert RefOk(t.refs[r]);
  }
}
