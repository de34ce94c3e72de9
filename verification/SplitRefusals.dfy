/** Splitting when writes are refused: the steps an input expands into always mean what
    the input was admitted as, so they can be told from the input exactly when the input
    is not safe. */
module SplitRefusals {
  import opened Codes
  import opened Claims
  import opened Forwarding
  import opened Synthesis
  import opened Broker
  import opened ViewModel
  import opened BrokerInvariant
  import opened TwoViews
  import opened Sweeping
  import opened SafeInputs
  import opened Coupling
  import opened CoupledRuns
  import opened Splitting
  import opened Refusals

  // ---------------------------------------------------------------- steps are safe

  lemma PrimitiveIsSafe(i: Input, f: MouseFlag, absReady: bool)
    requires i.Mouse? && (IsPointer(f) || IsButton(f))
    ensures Safe(Primitive(i, f), absReady)
  {
    var p := Primitive(i, f);
    assert |Transitions(p)| <= 1;
    assert Named(Transitions(p)) <= |Transitions(p)| by { NamedFits(Transitions(p)); }
    if IsPointer(f) {
      assert Transitions(p) == [];
    } else {
      assert !Emits(p, absReady);
    }
  }

  lemma {:induction false} NamedFits(ts: seq<Transition>)
    ensures Named(ts) <= |ts|
  {
    if ts != [] {
      NamedFits(ts[1..]);
    }
  }

  lemma PlayedIsSafe(i: Input, f: MouseFlag, dead: bool, absReady: bool)
    requires i.Mouse? && (IsPointer(f) || IsButton(f))
    ensures Played(Primitive(i, f), dead).Some? ==> Safe(Played(Primitive(i, f), dead).value, absReady)
  {
    PrimitiveIsSafe(i, f, absReady);
    if dead {
      if f in RELEASES {
        DeadRelease(i, f);
      } else {
        DeadPress(i, f);
      }
    }
    hide Safe, Primitive;
  }

  lemma {:induction false} StepsAreSafe(i: Input, k: nat, dead: bool, absReady: bool)
    requires i.Mouse? && k <= STEPS
    ensures AllSafe(StepsFrom(i, k), dead, absReady)
    decreases STEPS - k
  {
    hide Safe, Played, Primitive, Flag;
    StepsSplit(i, k);
    if k < STEPS {
      StepsAreSafe(i, k + 1, dead, absReady);
      PlayedIsSafe(i, Flag(k), dead, absReady);
      hide StepsFrom;
    }
  }

  lemma {:induction false} NoStepFlags(i: Input, k: nat)
    requires i.Mouse? && k <= STEPS && StepsFrom(i, k) == []
    ensures forall j :: k <= j < STEPS ==> Flag(j) !in i.flags
    decreases STEPS - k
  {
    hide Flag;
    if k < STEPS {
      StepsSplit(i, k);
      NoStepFlags(i, k + 1);
    }
  }

  lemma ExpansionIsSafe(i: Input, dead: bool, absReady: bool)
    ensures AllSafe(Expand(i), dead, absReady)
  {
    if i.Mouse? {
      StepsAreSafe(i, 0, dead, absReady);
      if StepsFrom(i, 0) == [] {
        NoStepFlags(i, 0);
        assert Flag(3) == LeftDown && Flag(4) == LeftUp && Flag(5) == RightDown && Flag(6) == RightUp;
        assert Flag(7) == MiddleDown && Flag(8) == MiddleUp && Flag(9) == XDown && Flag(10) == XUp;
        assert i.flags !! {LeftDown, LeftUp, RightDown, RightUp, MiddleDown, MiddleUp, XDown, XUp};
        assert Transitions(i) == [] && i.flags * {LeftUp, RightUp, MiddleUp, XUp} == {};
      }
    }
  }

  /** Whatever is refused and however full the claims are, the expansion of an input leaves
      every source and claim as the input was admitted. */
  lemma SplittingSurvivesRefusals(m: Machine, kinds: map<nat, Kind>, i: Input, dead: bool, moved: bool, o: Owner)
    requires DevicesOk(m.fwd, kinds)
    ensures Written(SendInputs(m, Expand(i), dead, moved, o)) == AllInputs(m.vkTable, Written(m), [i], dead, moved, o)
  {
    hide DevicesOk, Written, SendInputs, AllInputs, AllSafe, Expand;
    ExpansionIsSafe(i, dead, m.absReady);
    SafeBatchesStayInStep(m, kinds, Expand(i), dead, moved, o);
    SplittingPreservesAdmission(m.vkTable, Written(m), i, dead, moved, o);
  }

  // ---------------------------------------------------------------- exactly when

  /** What is played of the input is safe. */
  predicate PlayedSafely(i: Input, dead: bool, absReady: bool) {
    Played(i, dead).Some? ==> Safe(Played(i, dead).value, absReady)
  }

  /** A run of the broker to a machine on which the owner is living or dead. */
  ghost predicate Arrives(d: Devices, vk: map<nat, nat>, steps: seq<Step>, absReady: bool, o: Owner, dead: bool) {
    && (forall v :: v in vk ==> vk[v] <= KEY_MAX) && Legal(Start(d, vk), steps)
    && var m := Run(Start(d, vk), steps).m; m.absReady == absReady && IsDead(m.fwd, o, Applied) == dead
  }

  /** On every reachable machine, whatever it refuses, the input and its expansion leave the
      same sources and claims. */
  ghost predicate SplitsAlike(i: Input, dead: bool, moved: bool, absReady: bool) {
    forall d, vk, steps, o :: Arrives(d, vk, steps, absReady, o, dead) ==>
      var m := Run(Start(d, vk), steps).m;
      Written(SendInputs(m, Expand(i), dead, moved, o)) == Written(SendInputs(m, [i], dead, moved, o))
  }

  /** An owner whose grab never was. */
  const GHOST := Owner(1, 2, 0, 0, 0)

  lemma GhostIsDead(m: Machine, held: set<nat>)
    requires Numb(m, held)
    ensures IsDead(m.fwd, GHOST, Applied)
  {}

  lemma AloneMeans(vk: map<nat, nat>, v: ViewState, i: Input, dead: bool, moved: bool, o: Owner)
    requires Played(i, dead).Some? && i.Mouse?
    ensures Played(i, dead).value.Mouse?
    ensures var j := Played(i, dead).value;
            AllInputs(vk, v, [i], dead, moved, o) == Buttons(v, Transitions(j), moved || MovesAbsolutely(j), o)
  {
    hide Transitions, Buttons;
    assert [i][1..] == [];
    var j := Played(i, dead).value;
    assert AllInputs(vk, v, [i], dead, moved, o)
           == AllInputs(vk, OneInput(vk, v, j, moved, o), [], dead, moved || MovesAbsolutely(j), o);
  }

  lemma UnsafeSplitsApart(m: Machine, i: Input, dead: bool, moved: bool, o: Owner)
    requires i.Mouse? && !PlayedSafely(i, dead, m.absReady)
    requires Numb(m, Witness(Played(i, dead).value, m.absReady)) && o == if dead then GHOST else SOMEBODY
    ensures Written(SendInputs(m, Expand(i), dead, moved, o)) != Written(SendInputs(m, [i], dead, moved, o))
  {
    var j := Played(i, dead).value;
    if dead {
      ReleasesOnly(j);
    }
    assert Plays(o, Transitions(j));
    hide Transitions, Buttons, SendMouse, Written, AllInputs, Safe, Witness, Numb, Expand, Played, Has;
    AloneSent(m, i, dead, moved, o);
    AloneMeans(m.vkTable, Written(m), i, dead, moved, o);
    UnsafeParts(m, j, moved, o);
    NumbSound(m, Witness(j, m.absReady));
    SplittingSurvivesRefusals(m, map[], i, dead, moved, o);
  }

  /** An input and its expansion cannot be told apart on any reachable machine exactly if
      what is played of the input is safe. */
  lemma SplitsAlikeExactlyWhenSafe(i: Input, dead: bool, moved: bool, absReady: bool)
    ensures SplitsAlike(i, dead, moved, absReady) <==> PlayedSafely(i, dead, absReady)
  {
    hide Inv, Safe, Witness, Numb, Written, SendInputs, AllInputs, Expand, Start, Legal, Run, Prelude, IsDead, Coupled,
         Played;
    if PlayedSafely(i, dead, absReady) {
      forall d, vk, steps, o | Arrives(d, vk, steps, absReady, o, dead)
        ensures var m := Run(Start(d, vk), steps).m;
                Written(SendInputs(m, Expand(i), dead, moved, o)) == Written(SendInputs(m, [i], dead, moved, o))
      {
        ReachedDevices(d, vk, steps);
        var s := Run(Start(d, vk), steps);
        SplittingSurvivesRefusals(s.m, s.kinds, i, dead, moved, o);
        SafeBatchesStayInStep(s.m, s.kinds, [i], dead, moved, o);
      }
    } else {
      assert i.Mouse? && Played(i, dead).value.Mouse? by { UnsafeIsMouse(i, dead, absReady); }
      var held := Witness(Played(i, dead).value, absReady);
      var o := if dead then GHOST else SOMEBODY;
      WitnessButtons(Played(i, dead).value, absReady);
      PreludeRuns(absReady, held);
      var m := Run(Start(Refusing(absReady), map[]), Prelude(held)).m;
      Alive(m, held);
      GhostIsDead(m, held);
      UnsafeSplitsApart(m, i, dead, moved, o);
      assert Arrives(Refusing(absReady), map[], Prelude(held), absReady, o, dead);
    }
  }

  lemma UnsafeIsMouse(i: Input, dead: bool, absReady: bool)
    requires !PlayedSafely(i, dead, absReady)
    ensures i.Mouse? && Played(i, dead).value.Mouse?
  {}

  lemma ReachedDevices(d: Devices, vk: map<nat, nat>, steps: seq<Step>)
    requires (forall v :: v in vk ==> vk[v] <= KEY_MAX) && Legal(Start(d, vk), steps)
    ensures var s := Run(Start(d, vk), steps); DevicesOk(s.m.fwd, s.kinds)
  {
    StartOk(d, vk);
    RunKept(Start(d, vk), steps);
  }

  // ---------------------------------------------------------------- one input

  const CLICK := Mouse(0, 0, 0, {LeftDown, LeftUp}, 0, 0)

  /** On devices that came up and refuse writes, a click leaves its button held, because the
      refused press stops it, and its expansion does not. */
  lemma ClickSplitsApart(absReady: bool)
    ensures var m := Start(Refusing(absReady), map[]).m;
            && Has(Written(SendInputs(m, [CLICK], false, false, SOMEBODY)), BTN_LEFT)
            && !Has(Written(SendInputs(m, Expand(CLICK), false, false, SOMEBODY)), BTN_LEFT)
  {
    hide Start, RouteButton, Written, Has, Buttons, Numb, SendInputs, Expand;
    var m := Start(Refusing(absReady), map[]).m;
    ClickMachine(absReady);
    ClickStops(m);
    NumbView(m, {});
    NumbSound(m, {});
    SplittingSurvivesRefusals(m, map[], CLICK, false, false, SOMEBODY);
    AloneMeans(m.vkTable, Written(m), CLICK, false, false, SOMEBODY);
    TransitionsPaired(CLICK);
    ClickTransitions();
    assert CLICK_STEPS[1] in CLICK_STEPS;
    LoneButtons(Written(m), CLICK_STEPS, false, SOMEBODY, BTN_LEFT);
  }

  const CLICK_STEPS := [Transition(Some(BTN_LEFT), true), Transition(Some(BTN_LEFT), false)]

  lemma ClickTransitions()
    ensures Transitions(CLICK) == CLICK_STEPS
  {}

  lemma ClickMachine(absReady: bool)
    ensures Numb(Start(Refusing(absReady), map[]).m, {})
  {}

  lemma ClickStops(m: Machine)
    requires Numb(m, {})
    ensures Has(Written(SendInputs(m, [CLICK], false, false, SOMEBODY)), BTN_LEFT)
  {
    hide Transitions, RouteButton, Written, Has, Numb, SendInputs, Motion, VerticalWheel, SidewaysWheel;
    ClickTransitions();
    AloneSent(m, CLICK, false, false, SOMEBODY);
    Silent(m, CLICK);
    FirstRefused(m, {}, BTN_LEFT, true, false, SOMEBODY);
    assert RouteButtons(m, CLICK_STEPS, false, SOMEBODY).m == RouteButton(m, BTN_LEFT, true, false, SOMEBODY).m;
    assert SendMouse(m, CLICK, false, SOMEBODY) == RouteButtons(m, Transitions(CLICK), false, SOMEBODY);
  }
}
