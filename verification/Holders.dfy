/** Who holds what after a claim changes, owner by owner and key by key, without the
    functions that change it. */
module Holders {
  import opened Codes
  import opened Claims
  import opened Forwarding
  import opened Synthesis

  // ---------------------------------------------------------------- key-ups

  /** The event is a key-up that ends o's hold of c: it is the key the hold was derived from,
      or a hook let it through and it is the key itself. */
  predicate Ends(p: Packet, e: Event, o: Owner, c: nat) {
    && e.kind == 1 && e.value == 0 && e.code <= KEY_MAX
    && (|| (p.target != 0 && o.target == p.target && o.sourceType == 1 && (e.code == 0 || o.sourceCode == e.code))
        || (!p.suppressed && c == CanonicalButton(e.code)))
  }

  lemma EndedByEvent(t: Table, p: Packet, e: Event, o: Owner, c: nat)
    ensures Holds(ReleaseByEvent(t, p, e), o, c) <==> Holds(t, o, c) && !Ends(p, e, o, c)
  {
    if e.IsKey() && e.value == 0 {
      var own := if p.target != 0 then DropMatching(t, DerivedFrom(p.target, e.code)) else t;
      assert Holds(own, o, c) <==> Holds(t, o, c) && !(p.target != 0 && Matches(o, DerivedFrom(p.target, e.code)));
      EndedCode(own, CanonicalButton(e.code), o, c);
      hide ReleaseCode, DropMatching, CanonicalButton;
    }
  }

  lemma EndedCode(t: Table, code: nat, o: Owner, c: nat)
    ensures Holds(ReleaseCode(t, code), o, c) <==> Holds(t, o, c) && c != code
  {
    if Holds(t, o, c) && c != code {
      assert c in t[o] - {code};
    }
  }

  lemma {:induction false} EndedByFirst(t: Table, p: Packet, n: nat, o: Owner, c: nat)
    requires n <= |p.events|
    ensures Holds(ReleaseByPacket(t, p, n), o, c) <==>
            Holds(t, o, c) && forall k :: 0 <= k < n ==> !Ends(p, p.events[k], o, c)
  {
    hide ReleaseByEvent, Ends;
    if n > 0 {
      EndedByFirst(t, p, n - 1, o, c);
      EndedByEvent(ReleaseByPacket(t, p, n - 1), p, p.events[n - 1], o, c);
    }
  }

  /** After a packet an owner holds a key exactly if it held it before and no key-up of the
      packet ends that hold. */
  lemma KeyUpsEndHolds(t: Table, p: Packet)
    ensures forall o, c :: Holds(ReleaseByPacket(t, p, |p.events|), o, c) <==>
              Holds(t, o, c) && forall k :: 0 <= k < |p.events| ==> !Ends(p, p.events[k], o, c)
  {
    hide ReleaseByPacket, Ends;
    forall o, c
      ensures Holds(ReleaseByPacket(t, p, |p.events|), o, c) <==>
              Holds(t, o, c) && forall k :: 0 <= k < |p.events| ==> !Ends(p, p.events[k], o, c)
    {
      EndedByFirst(t, p, |p.events|, o, c);
    }
  }

  // ---------------------------------------------------------------- owners that go

  /** A client that leaves, or one hook of it, takes exactly its own holds along. */
  lemma ConnectionTakesItsHolds(t: Table, connection: nat, hook: nat)
    requires connection != 0
    ensures forall o, c :: Holds(DropMatching(t, Owner(0, connection, hook, 0, 0)), o, c) <==>
              Holds(t, o, c) && (o.connection != connection || (hook != 0 && o.hook != hook))
  {}

  /** A kind of hook that nobody has any more takes exactly the holds its hooks made. */
  lemma HookTakesItsHolds(t: Table, hook: nat)
    requires hook != 0
    ensures forall o, c :: Holds(DropMatching(t, Owner(0, 0, hook, 0, 0)), o, c) <==> Holds(t, o, c) && o.hook != hook
  {}

  // ---------------------------------------------------------------- one key transition

  /** A press or release changes nobody's hold of another key. A press that does not restore
      gives its owner the key; a release takes the key from its owner, or from all if its
      owner does not hold it. */
  lemma TransitionHolds(f: Forward, t: Table, view: View, code: nat, down: bool, restore: bool, o: Owner)
    ensures var k := ApplyKey(f, t, view, code, down, restore, o);
            && (forall p, c :: c != code ==> (Holds(k.table, p, c) <==> Holds(t, p, c)))
            && (forall p :: Holds(k.table, p, code) <==>
                  if down then Holds(t, p, code) || (p == o && k.ok && !(restore && ShiftsAny(f, code, view, true)))
                    else Holds(t, o, code) && p != o && Holds(t, p, code))
            && (k.ok <==> (down && !(restore && ShiftsAny(f, code, view, true)) ==> o in t || |t| < 1024))
  {
    var k := ApplyKey(f, t, view, code, down, restore, o);
    hide ShiftsAny, ShiftKey, ReleaseCode;
    forall p, c
      ensures Holds(ReleaseCode(t, code), p, c) <==> Holds(t, p, c) && c != code
    {
      EndedCode(t, code, p, c);
    }
    if Holds(t, o, code) {
      forall c
        ensures Holds(DropKey(t, o, code), o, c) <==> Holds(t, o, c) && c != code
      {
        assert c in t[o] && c != code ==> c in t[o] - {code};
      }
    }
  }
}
