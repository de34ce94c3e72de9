/** Dead claims and the view's meaning: sweeping commutes with every action, and no
    action revives or adds the claim of a grab that ended. */
module Sweeping {
  import opened Codes
  import opened Claims
  import opened Forwarding
  import opened Synthesis
  import opened Broker
  import opened Pointwise
  import opened ViewModel

  function SweepBy(slots: seq<Option<Source>>, t: Table): Table {
    map o | o in t && !Gone(slots, o) :: t[o]
  }

  /** No claim belongs to a grab that ended. */
  predicate Clean(v: ViewState) { forall o :: o in v.claims ==> !Gone(v.slots, o) }

  lemma CleanIsSwept(v: ViewState)
    ensures Clean(v) <==> Swept(v) == v
    ensures Clean(Swept(v)) && Swept(Swept(v)) == Swept(v)
  {
    if Clean(v) {
      assert SweepBy(v.slots, v.claims) == v.claims;
      assert Swept(v).claims == v.claims;
    }
    assert Clean(Swept(v));
    assert Swept(Swept(v)).claims == Swept(v).claims;
    if Swept(v) == v {
      assert forall o :: o in v.claims ==> o in Swept(v).claims;
    }
  }

  predicate SameTargets(a: seq<Option<Source>>, b: seq<Option<Source>>) {
    |a| == |b| && forall i :: 0 <= i < |a| ==>
                    (a[i].Some? <==> b[i].Some?) && (a[i].Some? ==> a[i].value.target == b[i].value.target)
  }

  lemma GoneSame(a: seq<Option<Source>>, b: seq<Option<Source>>, o: Owner)
    requires SameTargets(a, b)
    ensures Gone(a, o) <==> Gone(b, o)
    ensures Locate(a, o.target) == Locate(b, o.target)
  {}

  lemma PressKeepsTargets(v: ViewState, code: nat, down: bool, restore: bool, o: Owner)
    ensures SameTargets(v.slots, PressOrRelease(v, code, down, restore, o).slots)
    ensures forall x :: x in PressOrRelease(v, code, down, restore, o).claims ==> x in v.claims || (down && x == o)
  {}

  lemma {:induction false} ButtonsKeepTargets(v: ViewState, ts: seq<Transition>, moved: bool, o: Owner)
    ensures SameTargets(v.slots, Buttons(v, ts, moved, o).slots)
    ensures forall x :: x in Buttons(v, ts, moved, o).claims ==>
              x in v.claims || (x == o && exists k :: 0 <= k < |ts| && ts[k].down)
    decreases |ts|
  {
    if ts != [] {
      var w := if ts[0].button.None? then v else PressOrRelease(v, ts[0].button.value, ts[0].down, !moved, o);
      if ts[0].button.Some? {
        PressKeepsTargets(v, ts[0].button.value, ts[0].down, !moved, o);
      }
      ButtonsKeepTargets(w, ts[1..], moved, o);
      assert (exists k :: 0 <= k < |ts[1..]| && ts[1..][k].down) ==> exists k :: 0 <= k < |ts| && ts[k].down by {
        if k :| 0 <= k < |ts[1..]| && ts[1..][k].down {
          assert ts[k + 1].down;
        }
      }
    }
  }

  lemma ReleasesOnly(i: Input)
    requires i.Mouse? && i.flags <= {LeftUp, RightUp, MiddleUp, XUp}
    ensures forall k :: 0 <= k < |Transitions(i)| ==> !Transitions(i)[k].down
  {
    var a := PressAndRelease(i.flags, LeftDown, LeftUp, Some(BTN_LEFT));
    var b := PressAndRelease(i.flags, RightDown, RightUp, Some(BTN_RIGHT));
    var c := PressAndRelease(i.flags, MiddleDown, MiddleUp, Some(BTN_MIDDLE));
    var x := PressAndRelease(i.flags, XDown, XUp, XButton(i.data));
    assert Transitions(i) == a + b + c + x;
    assert forall k :: 0 <= k < |a| ==> !a[k].down;
    assert forall k :: 0 <= k < |b| ==> !b[k].down;
    assert forall k :: 0 <= k < |c| ==> !c[k].down;
    assert forall k :: 0 <= k < |x| ==> !x[k].down;
    hide Transitions, PressAndRelease;
  }

  lemma InputKeepsTargets(vkTable: map<nat, nat>, v: ViewState, raw: Input, dead: bool, moved: bool, o: Owner)
    requires Played(raw, dead).Some?
    ensures var w := OneInput(vkTable, v, Played(raw, dead).value, moved, o);
            SameTargets(v.slots, w.slots) && forall x :: x in w.claims ==> x in v.claims || (!dead && x == o)
  {
    var i := Played(raw, dead).value;
    if i.Mouse? {
      ButtonsKeepTargets(v, Transitions(i), moved || MovesAbsolutely(i), o);
      if dead {
        ReleasesOnly(i);
      }
    } else if Resolve(vkTable, i).Some? {
      PressKeepsTargets(v, CanonicalButton(Resolve(vkTable, i).value), Up !in i.keyFlags, true, o);
    }
    hide Buttons, PressOrRelease, Transitions;
  }

  lemma {:induction false} InputsKeepTargets(vkTable: map<nat, nat>, v: ViewState, inputs: seq<Input>, dead: bool,
                                             moved: bool, o: Owner)
    ensures var w := AllInputs(vkTable, v, inputs, dead, moved, o);
            SameTargets(v.slots, w.slots) && forall x :: x in w.claims ==> x in v.claims || (!dead && x == o)
    decreases |inputs|
  {
    hide OneInput, Played;
    if inputs != [] {
      match Played(inputs[0], dead)
      case None => InputsKeepTargets(vkTable, v, inputs[1..], dead, moved, o);
      case Some(i) =>
        InputKeepsTargets(vkTable, v, inputs[0], dead, moved, o);
        var w := OneInput(vkTable, v, i, moved, o);
        InputsKeepTargets(vkTable, w, inputs[1..], dead, moved || MovesAbsolutely(i), o);
    }
  }

  lemma {:induction false} ReleaseByPacketKeys(t: Table, p: Packet, n: nat)
    requires n <= |p.events|
    ensures ReleaseByPacket(t, p, n).Keys <= t.Keys
  {
    if n > 0 {
      ReleaseByPacketKeys(t, p, n - 1);
    }
  }

  /** Only an end or a close makes a claim dead. */
  lemma MeaningKeepsClean(vkTable: map<nat, nat>, v: ViewState, a: Action)
    requires Clean(v) && !a.EndOf? && !a.CloseOf?
    ensures Clean(Meaning(vkTable, v, a)) && SameTargets(v.slots, Meaning(vkTable, v, a).slots)
    ensures forall x :: x in Meaning(vkTable, v, a).claims ==> x in v.claims || (a.Synth? && x == a.owner)
  {
    var w := Meaning(vkTable, v, a);
    if a.Synth? {
      InputsKeepTargets(vkTable, v, a.inputs, Gone(v.slots, a.owner), false, a.owner);
    } else if a.Replay? {
      ReleaseByPacketKeys(v.claims, a.p, |a.p.events|);
    }
    hide AllInputs, ReleaseByPacket;
    assert SameTargets(v.slots, w.slots);
    forall o | o in w.claims
      ensures !Gone(w.slots, o)
    {
      GoneSame(v.slots, w.slots, o);
    }
  }

  lemma {:induction false} ReleaseByPacketSweeps(slots: seq<Option<Source>>, t: Table, p: Packet, n: nat)
    requires n <= |p.events|
    ensures SweepBy(slots, ReleaseByPacket(t, p, n)) == ReleaseByPacket(SweepBy(slots, t), p, n)
  {
    hide Gone;
    if n > 0 {
      ReleaseByPacketSweeps(slots, t, p, n - 1);
      var u, w, e := ReleaseByPacket(t, p, n - 1), ReleaseByPacket(SweepBy(slots, t), p, n - 1), p.events[n - 1];
      var filter, code := DerivedFrom(p.target, e.code), CanonicalButton(e.code);
      assert SweepBy(slots, DropMatching(u, filter)) == DropMatching(w, filter);
      assert SweepBy(slots, ReleaseCode(u, code)) == ReleaseCode(w, code);
      assert SweepBy(slots, ReleaseCode(DropMatching(u, filter), code)) == ReleaseCode(DropMatching(w, filter), code);
    }
  }

  /** Sweeping first makes no difference to what remains after an action. */
  lemma SweepFirst(vkTable: map<nat, nat>, v: ViewState, a: Action)
    requires !a.Synth?
    requires forall o :: o in v.claims && Gone(v.slots, o) ==> Gone(Meaning(vkTable, v, a).slots, o)
    ensures Mirror(vkTable, v, a) == Mirror(vkTable, Swept(v), a)
  {
    var s := Meaning(vkTable, v, a).slots;
    assert Meaning(vkTable, Swept(v), a).slots == s;
    var t, u := Meaning(vkTable, v, a).claims, Meaning(vkTable, Swept(v), a).claims;
    assert Swept(v).claims == SweepBy(v.slots, v.claims);
    if a.Replay? {
      ReleaseByPacketSweeps(s, v.claims, a.p, |a.p.events|);
      ReleaseByPacketSweeps(s, SweepBy(v.slots, v.claims), a.p, |a.p.events|);
      assert SweepBy(s, SweepBy(v.slots, v.claims)) == SweepBy(s, v.claims);
    } else {
      hide Gone;
      assert SweepBy(s, t) == SweepBy(s, u);
    }
    assert Swept(ViewState(s, t)).claims == SweepBy(s, t);
    assert Swept(ViewState(s, u)).claims == SweepBy(s, u);
  }
}
