/** The in-place claim table: an array of claims kept dense by swap-removal, the number
    of holders of each key, and the keys that have one. `table` is what it represents. */
module ClaimTables {
  import opened Codes
  import opened Claims
  import opened KeyBits
  import opened Synthesis

  datatype Claim = Claim(owner: Owner, keys: set<nat>)

  const NOBODY := Owner(0, 0, 0, 0, 0)

  // ---------------------------------------------------------------- the array as a map

  predicate Distinct(s: seq<Claim>) {
    forall i, j :: 0 <= i < j < |s| ==> s[i].owner != s[j].owner
  }

  ghost predicate Represents(s: seq<Claim>, t: Table) {
    && Distinct(s)
    && (forall i :: 0 <= i < |s| ==> s[i].owner in t && t[s[i].owner] == s[i].keys)
    && (forall o :: o in t ==> exists i :: 0 <= i < |s| && s[i].owner == o)
  }

  /** How many claims hold code. */
  ghost function Count(s: seq<Claim>, code: nat): nat {
    if s == [] then 0 else Count(s[..|s| - 1], code) + (if code in s[|s| - 1].keys then 1 else 0)
  }

  lemma {:induction false} CountUpdate(s: seq<Claim>, i: nat, x: Claim, code: nat)
    requires i < |s|
    ensures Count(s[i := x], code) + (if code in s[i].keys then 1 else 0)
            == Count(s, code) + (if code in x.keys then 1 else 0)
  {
    var n := |s| - 1;
    if i == n {
      assert s[i := x][..n] == s[..n];
    } else {
      assert s[i := x][..n] == s[..n][i := x];
      CountUpdate(s[..n], i, x, code);
    }
  }

  /** What swap-removal of claim i leaves. */
  ghost function Without(s: seq<Claim>, i: nat): seq<Claim>
    requires i < |s|
  {
    s[i := s[|s| - 1]][..|s| - 1]
  }

  lemma CountWithout(s: seq<Claim>, i: nat, code: nat)
    requires i < |s|
    ensures Count(Without(s, i), code) + (if code in s[i].keys then 1 else 0) == Count(s, code)
  {
    var last := s[|s| - 1];
    CountUpdate(s, i, last, code);
    assert s[i := last][|s| - 1] == last;
  }

  lemma {:induction false} CountPositive(s: seq<Claim>, code: nat)
    ensures Count(s, code) > 0 <==> exists i :: 0 <= i < |s| && code in s[i].keys
  {
    if s != [] {
      CountPositive(s[..|s| - 1], code);
      if code in s[|s| - 1].keys {
      } else if i :| 0 <= i < |s| && code in s[i].keys {
        assert code in s[..|s| - 1][i].keys;
      }
    }
  }

  lemma {:induction false} CountBounded(s: seq<Claim>, code: nat)
    ensures Count(s, code) <= |s|
  {
    if s != [] {
      CountBounded(s[..|s| - 1], code);
    }
  }

  lemma CountHeld(s: seq<Claim>, t: Table, code: nat)
    requires Represents(s, t)
    ensures Count(s, code) > 0 <==> Held(t, code)
  {
    CountPositive(s, code);
    if Held(t, code) {
      var o :| o in t && code in t[o];
      var i :| 0 <= i < |s| && s[i].owner == o;
    }
  }

  lemma {:induction false} SizeIs(s: seq<Claim>, t: Table)
    requires Represents(s, t)
    ensures |t| == |s|
  {
    if s == [] {
      assert t.Keys == {};
    } else {
      var n := |s| - 1;
      var last := s[n].owner;
      RepresentsWithout(s, t, n);
      assert Without(s, n) == s[..n];
      SizeIs(s[..n], t - {last});
      assert t.Keys == (t - {last}).Keys + {last};
    }
  }

  lemma RepresentsWithout(s: seq<Claim>, t: Table, i: nat)
    requires Represents(s, t) && i < |s|
    ensures Represents(Without(s, i), t - {s[i].owner})
  {
    var u, w, n := Without(s, i), t - {s[i].owner}, |s| - 1;
    forall o | o in w
      ensures exists j :: 0 <= j < |u| && u[j].owner == o
    {
      var j :| 0 <= j < |s| && s[j].owner == o;
      assert u[if j == n then i else j].owner == o;
    }
  }

  lemma RepresentsUpdate(s: seq<Claim>, t: Table, i: nat, keys: set<nat>)
    requires Represents(s, t) && i < |s|
    ensures Represents(s[i := s[i].(keys := keys)], t[s[i].owner := keys])
  {
    var u, w := s[i := s[i].(keys := keys)], t[s[i].owner := keys];
    forall o | o in w
      ensures exists j :: 0 <= j < |u| && u[j].owner == o
    {
      var j :| 0 <= j < |s| && s[j].owner == o;
      assert u[j].owner == o;
    }
  }

  lemma RepresentsAppend(s: seq<Claim>, t: Table, c: Claim)
    requires Represents(s, t) && c.owner !in t
    ensures Represents(s + [c], t[c.owner := c.keys])
  {
    var u, w := s + [c], t[c.owner := c.keys];
    forall o | o in w
      ensures exists j :: 0 <= j < |u| && u[j].owner == o
    {
      if o == c.owner {
        assert u[|s|].owner == o;
      } else {
        var j :| 0 <= j < |s| && s[j].owner == o;
        assert u[j].owner == o;
      }
    }
  }

  lemma CountAppend(s: seq<Claim>, c: Claim, code: nat)
    ensures Count(s + [c], code) == Count(s, code) + (if code in c.keys then 1 else 0)
  {
    assert (s + [c])[..|s|] == s;
  }

  // ---------------------------------------------------------------- counts

  /** holders counts the claims of each key. */
  ghost predicate Tallied(holders: seq<nat>, s: seq<Claim>) {
    |holders| == KEY_MAX + 1 && forall c :: 0 <= c <= KEY_MAX ==> holders[c] == Count(s, c)
  }

  /** held has exactly the keys with a holder. */
  ghost predicate Supports(held: set<nat>, holders: seq<nat>) {
    |holders| == KEY_MAX + 1 && forall c :: c in held <==> 0 <= c <= KEY_MAX && holders[c] > 0
  }

  ghost predicate ClaimsOk(s: seq<Claim>) {
    forall i :: 0 <= i < |s| ==> s[i].keys != {} && forall c :: c in s[i].keys ==> c <= KEY_MAX
  }

  /** The array, the counts and the support all describe the map. */
  ghost predicate Consistent(s: seq<Claim>, holders: seq<nat>, held: set<nat>, t: Table) {
    Represents(s, t) && ClaimsOk(s) && Tallied(holders, s) && Supports(held, holders)
  }

  ghost function DroppedHold(s: seq<Claim>, i: nat, code: nat): seq<Claim>
    requires i < |s|
  {
    if s[i].keys - {code} == {} then Without(s, i) else s[i := s[i].(keys := s[i].keys - {code})]
  }

  lemma AddConsistent(s: seq<Claim>, holders: seq<nat>, held: set<nat>, t: Table, owner: Owner, code: nat)
    requires Consistent(s, holders, held, t) && owner !in t && code <= KEY_MAX
    ensures Consistent(s + [Claim(owner, {code})], holders[code := holders[code] + 1], held + {code},
            t[owner := {code}])
  {
    RepresentsAppend(s, t, Claim(owner, {code}));
    forall c
      ensures Count(s + [Claim(owner, {code})], c) == Count(s, c) + if c == code then 1 else 0
    {
      CountAppend(s, Claim(owner, {code}), c);
    }
    hide Represents;
  }

  lemma ExtendConsistent(s: seq<Claim>, holders: seq<nat>, held: set<nat>, t: Table, i: nat, code: nat)
    requires Consistent(s, holders, held, t) && i < |s| && code !in s[i].keys && code <= KEY_MAX
    ensures var keys := s[i].keys + {code};
            Consistent(s[i := s[i].(keys := keys)], holders[code := holders[code] + 1], held + {code},
              t[s[i].owner := keys])
  {
    var keys := s[i].keys + {code};
    RepresentsUpdate(s, t, i, keys);
    forall c
      ensures Count(s[i := s[i].(keys := keys)], c) == Count(s, c) + if c == code then 1 else 0
    {
      CountUpdate(s, i, s[i].(keys := keys), c);
    }
    hide Represents;
  }

  lemma CountDropped(s: seq<Claim>, i: nat, code: nat, c: nat)
    requires i < |s| && code in s[i].keys
    ensures Count(DroppedHold(s, i, code), c) == Count(s, c) - if c == code then 1 else 0
  {
    var keys := s[i].keys - {code};
    CountUpdate(s, i, s[i].(keys := keys), c);
    if keys == {} {
      CountWithout(s, i, c);
    }
  }

  lemma DropConsistent(s: seq<Claim>, holders: seq<nat>, held: set<nat>, t: Table, i: nat, code: nat)
    requires Consistent(s, holders, held, t) && i < |s| && code in s[i].keys
    ensures code <= KEY_MAX && holders[code] > 0 && s[i].owner in t
    ensures Consistent(DroppedHold(s, i, code), holders[code := holders[code] - 1],
                       if holders[code] == 1 then held - {code} else held, DropKey(t, s[i].owner, code))
  {
    hide Represents, Count;
    DropRepresents(s, t, i, code);
    CountPositive(s, code);
    assert ClaimsOk(DroppedHold(s, i, code));
    forall c
      ensures Count(DroppedHold(s, i, code), c) == Count(s, c) - if c == code then 1 else 0
    {
      CountDropped(s, i, code, c);
    }
    hide DroppedHold, ClaimsOk;
  }

  lemma DropRepresents(s: seq<Claim>, t: Table, i: nat, code: nat)
    requires Represents(s, t) && i < |s|
    ensures s[i].owner in t && Represents(DroppedHold(s, i, code), DropKey(t, s[i].owner, code))
  {
    RepresentsUpdate(s, t, i, s[i].keys - {code});
    RepresentsWithout(s, t, i);
  }

  /** The counts once the codes below n of one claim's keys were taken away. */
  ghost predicate Taken(before: seq<nat>, after: seq<nat>, keys: set<nat>, n: nat) {
    && |before| == |after| == KEY_MAX + 1
    && forall c :: 0 <= c <= KEY_MAX ==> after[c] + (if c < n && c in keys then 1 else 0) == before[c]
  }

  lemma RemoveConsistent(s: seq<Claim>, holders: seq<nat>, held: set<nat>, t: Table, i: nat, after: seq<nat>,
                         heldAfter: set<nat>)
    requires Consistent(s, holders, held, t) && i < |s|
    requires Taken(holders, after, s[i].keys, KEY_MAX + 1) && Supports(heldAfter, after)
    ensures s[i].owner in t && Consistent(Without(s, i), after, heldAfter, t - {s[i].owner})
  {
    RepresentsWithout(s, t, i);
    forall c
      ensures Count(Without(s, i), c) == Count(s, c) - if c in s[i].keys then 1 else 0
    {
      CountWithout(s, i, c);
    }
    hide Represents, Count;
  }

  lemma ConsistentHeld(s: seq<Claim>, holders: seq<nat>, held: set<nat>, t: Table, code: nat)
    requires Consistent(s, holders, held, t)
    ensures code in held <==> Held(t, code)
    ensures code in held <==> exists i :: 0 <= i < |s| && code in s[i].keys
  {
    CountHeld(s, t, code);
    CountPositive(s, code);
  }

  lemma ConsistentParts(s: seq<Claim>, holders: seq<nat>, held: set<nat>, t: Table)
    requires Consistent(s, holders, held, t)
    ensures Represents(s, t) && ClaimsOk(s) && Supports(held, holders) && |t| == |s|
    ensures forall i :: 0 <= i < |s| ==> s[i].owner in t && t[s[i].owner] == s[i].keys
  {
    SizeIs(s, t);
  }

  lemma DropThenRelease(t: Table, owner: Owner, code: nat)
    requires owner in t
    ensures ReleaseCode(DropKey(t, owner, code), code) == ReleaseCode(t, code)
  {
    assert t[owner] - {code} - {code} == t[owner] - {code};
  }

  lemma NothingToRelease(s: seq<Claim>, t: Table, code: nat)
    requires Represents(s, t) && ClaimsOk(s) && !Held(t, code)
    ensures ReleaseCode(t, code) == t
  {
    forall o | o in t
      ensures t[o] - {code} == t[o] && t[o] != {}
    {
      var i :| 0 <= i < |s| && s[i].owner == o;
    }
  }

  lemma ConsistentKeys(s: seq<Claim>, holders: seq<nat>, held: set<nat>, t: Table, i: nat)
    requires Consistent(s, holders, held, t) && i < |s|
    ensures Supports(held, holders) && s[i].owner in t && t[s[i].owner] == s[i].keys
    ensures forall c :: c in s[i].keys ==> c <= KEY_MAX && holders[c] > 0
  {
    forall c | c in s[i].keys
      ensures c <= KEY_MAX && holders[c] > 0
    {
      CountPositive(s, c);
    }
  }

  ghost function Unchosen(t: Table, chosen: Owner -> bool): Table { map o | o in t && !chosen(o) :: t[o] }

  /** Every claim of t is a claim of whole. */
  ghost predicate PartOf(t: Table, whole: Table) { forall o :: o in t ==> o in whole && t[o] == whole[o] }

  lemma ReleasedStep(whole: Table, t: Table, owner: Owner)
    requires PartOf(t, whole) && owner in t && forall c :: c in t[owner] ==> c <= KEY_MAX
    ensures Released(whole, t - {owner}) == Released(whole, t) + set c | c in t[owner] && !Held(t - {owner}, c)
  {
    var u := t - {owner};
    forall c
      ensures Held(u, c) ==> Held(t, c)
      ensures Held(t, c) ==> Held(u, c) || c in t[owner]
      ensures c in t[owner] ==> Held(whole, c)
    {
      if Held(u, c) {
        var o :| o in u && c in u[o];
        assert o in t && c in t[o];
      }
      if Held(t, c) && c !in t[owner] {
        var o :| o in t && c in t[o];
        assert o in u && c in u[o];
      }
    }
    hide Held;
  }

  // ---------------------------------------------------------------- the table

  class ClaimTable {
    var used: nat
    const claims: array<Claim>
    const holders: array<nat>
    var support: seq<bv8>
    ghost var held: set<nat>
    ghost var table: Table

    /** The bitmap has a bit for each key with a holder. */
    ghost predicate Mapped()
      reads this
    {
      |support| == BYTES && Bits(support) == held
    }

    ghost predicate Valid()
      reads this, claims, holders
    {
      && claims.Length == CAPACITY && holders.Length == KEY_MAX + 1 && used <= CAPACITY && Mapped()
      && Consistent(claims[..used], holders[..], held, table)
    }

    constructor ()
      ensures Valid() && table == map[] && fresh(claims) && fresh(holders)
    {
      used := 0;
      claims := new Claim[CAPACITY](_ => Claim(NOBODY, {}));
      holders := new nat[KEY_MAX + 1](_ => 0);
      support, held, table := NoKeys(), {}, map[];
    }

    /** Whether anyone holds code, without looking at the claims. */
    method IsHeld(code: nat) returns (r: bool)
      requires Valid()
      ensures r <==> Held(table, code)
    {
      hide Consistent, Bits;
      r := TestBit(support, code);
      ConsistentHeld(claims[..used], holders[..], held, table, code);
    }

    /** The index of the owner's claim, or used if it has none. */
    method FindClaim(owner: Owner) returns (i: nat)
      requires Valid()
      ensures i <= used
      ensures owner in table <==> i < used
      ensures i < used ==> claims[i] == Claim(owner, table[owner])
    {
      i := 0;
      while i < used && claims[i].owner != owner
        invariant i <= used
        invariant forall j :: 0 <= j < i ==> claims[j].owner != owner
      {
        i := i + 1;
      }
      assert i < used ==> claims[..used][i] == claims[i] && claims[i].owner == owner;
      assert i == used ==> forall j :: 0 <= j < used ==> claims[..used][j].owner != owner;
    }

    method AddHolder(code: nat)
      requires holders.Length == KEY_MAX + 1 && code <= KEY_MAX && Supports(held, holders[..]) && Mapped()
      modifies `held, `support, holders
      ensures holders[..] == old(holders[..])[code := old(holders[code]) + 1] && held == old(held) + {code} && Mapped()
    {
      hide Bits;
      if holders[code] == 0 {
        support, held := WithBit(support, code, true), held + {code};
      } else {
        assert holders[..][code] > 0;
      }
      holders[code] := holders[code] + 1;
    }

    /** Takes one holder of code away, and says whether it was the last. */
    method RemoveHolder(code: nat) returns (last: bool)
      requires holders.Length == KEY_MAX + 1 && code <= KEY_MAX && holders[code] > 0 && Mapped()
      modifies `held, `support, holders
      ensures holders[..] == old(holders[..])[code := old(holders[code]) - 1]
      ensures held == if old(holders[code]) == 1 then old(held) - {code} else old(held)
      ensures (last <==> old(holders[code]) == 1) && Mapped()
    {
      hide Bits;
      holders[code] := holders[code] - 1;
      last := holders[code] == 0;
      if last {
        support, held := WithBit(support, code, false), held - {code};
      }
    }

    /** The owner holds code, unless it has no claim and the table is full. */
    method HoldKey(owner: Owner, code: nat) returns (ok: bool)
      requires Valid() && code <= KEY_MAX
      modifies this, claims, holders
      ensures Valid()
      ensures ok == Fits(old(table), owner) && table == Hold(old(table), owner, code)
    {
      hide Consistent, Bits, Represents, ClaimsOk, Supports;
      var i := FindClaim(owner);
      ConsistentParts(claims[..used], holders[..], held, table);
      if i == used {
        if used == CAPACITY {
          return false;
        }
        assert {} + {code} == {code};
        AddClaim(owner, code);
      } else {
        assert table[owner] == claims[..used][i].keys;
        if code !in claims[i].keys {
          ExtendClaim(i, code);
        } else {
          assert table[owner] + {code} == table[owner];
        }
      }
      ok := true;
    }

    method AddClaim(owner: Owner, code: nat)
      requires Valid() && code <= KEY_MAX && used < CAPACITY && owner !in table
      modifies this, claims, holders
      ensures Valid() && table == old(table)[owner := {code}]
    {
      hide Consistent, Bits;
      ghost var s := claims[..used];
      AddConsistent(s, holders[..], held, table, owner, code);
      ConsistentParts(s, holders[..], held, table);
      hide Represents, ClaimsOk, Supports;
      claims[used] := Claim(owner, {code});
      used := used + 1;
      AddHolder(code);
      table := table[owner := {code}];
      assert claims[..used] == s + [Claim(owner, {code})];
    }

    method ExtendClaim(i: nat, code: nat)
      requires Valid() && code <= KEY_MAX && i < used && code !in claims[i].keys
      modifies this, claims, holders
      ensures Valid() && table == old(table)[old(claims[i].owner) := old(claims[i].keys) + {code}]
    {
      hide Consistent, Bits;
      ghost var s := claims[..used];
      assert s[i] == claims[i];
      ExtendConsistent(s, holders[..], held, table, i, code);
      ConsistentParts(s, holders[..], held, table);
      hide Represents, ClaimsOk, Supports;
      claims[i] := claims[i].(keys := claims[i].keys + {code});
      AddHolder(code);
      table := table[claims[i].owner := claims[i].keys];
      assert claims[..used] == s[i := s[i].(keys := s[i].keys + {code})];
    }

    /** Ends the claim's hold of code, and the claim with its last hold. */
    method DropHold(i: nat, code: nat)
      requires Valid() && i < used && code in claims[i].keys
      modifies this, claims, holders
      ensures Valid() && old(claims[i].owner) in old(table) && table == DropKey(old(table), old(claims[i].owner), code)
      ensures claims[..used] == DroppedHold(old(claims[..used]), i, code)
    {
      hide Consistent, Bits;
      ghost var s, owner := claims[..used], claims[i].owner;
      assert s[i] == claims[i];
      DropConsistent(s, holders[..], held, table, i, code);
      table := DropKey(table, owner, code);
      claims[i] := claims[i].(keys := claims[i].keys - {code});
      var last := RemoveHolder(code);
      if claims[i].keys == {} {
        used := used - 1;
        claims[i] := claims[used];
        assert claims[..used] == Without(s, i);
      } else {
        assert claims[..used] == s[i := s[i].(keys := s[i].keys - {code})];
      }
    }

    /** Leaves no claim with code. The loop runs from the last claim down, because removing one
        moves the last into its place. */
    method ReleaseKey(code: nat)
      requires Valid()
      modifies this, claims, holders
      ensures Valid() && table == ReleaseCode(old(table), code)
    {
      hide Consistent, Bits;
      var i: nat := used;
      while TestBit(support, code) && i > 0
        invariant i <= used && Valid()
        invariant forall j :: i <= j < |claims[..used]| ==> code !in claims[..used][j].keys
        invariant ReleaseCode(table, code) == ReleaseCode(old(table), code)
      {
        i := i - 1;
        assert claims[..used][i] == claims[i];
        if code in claims[i].keys {
          ghost var t, owner := table, claims[i].owner;
          DropHold(i, code);
          DropThenRelease(t, owner, code);
        }
      }
      ConsistentHeld(claims[..used], holders[..], held, table, code);
      ConsistentParts(claims[..used], holders[..], held, table);
      NothingToRelease(claims[..used], table, code);
    }

    /** Removes claim i, and adds to released each of its keys that nobody holds then. */
    method RemoveClaim(i: nat, before: set<nat>) returns (released: set<nat>)
      requires Valid() && i < used
      modifies this, claims, holders
      ensures Valid() && old(claims[i].owner) in old(table) && table == old(table) - {old(claims[i].owner)}
      ensures claims[..used] == Without(old(claims[..used]), i)
      ensures released == before + (set c | c in old(claims[i].keys) && !Held(table, c))
    {
      hide Consistent, Bits;
      ghost var s, h, t := claims[..used], holders[..], table;
      assert s[i] == claims[i];
      ConsistentKeys(s, h, held, t, i);
      var keys := claims[i].keys;
      released := before;
      var code := 0;
      while code <= KEY_MAX
        invariant code <= KEY_MAX + 1 && used == old(used) && claims[..] == old(claims[..]) && table == t
        invariant Taken(h, holders[..], keys, code) && Supports(held, holders[..]) && Mapped()
        invariant released == before + (set c | c in keys && c < code && c !in held)
      {
        if code in keys {
          assert h[code] > 0;
          var last := RemoveHolder(code);
          if last {
            released := released + {code};
          }
        }
        code := code + 1;
      }
      RemoveConsistent(s, h, old(held), t, i, holders[..], held);
      table := table - {claims[i].owner};
      used := used - 1;
      claims[i] := claims[used];
      assert claims[..used] == Without(s, i);
      forall c
        ensures c in held <==> Held(table, c)
      {
        ConsistentHeld(claims[..used], holders[..], held, table, c);
      }
    }

    /** Removes the claims of the chosen owners, and returns the keys left with no holder. */
    method DropClaims(chosen: Owner -> bool) returns (released: set<nat>)
      requires Valid()
      modifies this, claims, holders
      ensures Valid() && table == Unchosen(old(table), chosen) && released == Released(old(table), table)
    {
      hide Consistent, Bits;
      released := {};
      var i: nat := used;
      while i > 0
        invariant i <= used && Valid()
        invariant forall j :: i <= j < |claims[..used]| ==> !chosen(claims[..used][j].owner)
        invariant Unchosen(table, chosen) == Unchosen(old(table), chosen)
        invariant PartOf(table, old(table)) && released == Released(old(table), table)
      {
        i := i - 1;
        assert claims[..used][i] == claims[i];
        if chosen(claims[i].owner) {
          ConsistentKeys(claims[..used], holders[..], held, table, i);
          ReleasedStep(old(table), table, claims[i].owner);
          released := RemoveClaim(i, released);
        }
      }
      ConsistentParts(claims[..used], holders[..], held, table);
    }

    method DropOwners(filter: Owner) returns (released: set<nat>)
      requires Valid()
      modifies this, claims, holders
      ensures Valid() && table == DropMatching(old(table), filter) && released == Released(old(table), table)
    {
      released := DropClaims(o => Matches(o, filter));
    }

    /** Forgets every claim. */
    method Clear()
      requires Valid()
      modifies this, holders
      ensures Valid() && table == map[]
    {
      hide Bits;
      used, support, held, table := 0, NoKeys(), {}, map[];
      var c := 0;
      while c <= KEY_MAX
        invariant c <= KEY_MAX + 1 && used == 0 && held == {} && table == map[] && Mapped()
        invariant claims.Length == CAPACITY && holders.Length == KEY_MAX + 1
        invariant forall k :: 0 <= k < c ==> holders[k] == 0
      {
        holders[c] := 0;
        c := c + 1;
      }
    }

    /** A count never exceeds the number of claims, so sixteen bits hold it. */
    lemma CountsFit(code: nat)
      requires Valid() && code <= KEY_MAX
      ensures holders[code] <= used < 0x1_0000
    {
      CountBounded(claims[..used], code);
      assert holders[..][code] == holders[code];
    }
  }
}
