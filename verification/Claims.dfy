/** Who holds which synthetic keys, as a map from owner to its nonempty key set.
    `ClaimTable` is the in-place table that represents one. */
module Claims {
  import opened Codes

  /** Used both to name a holder and, with 0 for the fields it leaves open, as a filter. */
  datatype Owner = Owner(target: nat, connection: nat, hook: nat, sourceType: nat, sourceCode: nat)

  type Table = map<Owner, set<nat>>

  const CAPACITY := 1024

  predicate Matches(o: Owner, filter: Owner) {
    && (filter.target == 0 || o.target == filter.target)
    && (filter.connection == 0 || o.connection == filter.connection)
    && (filter.hook == 0 || o.hook == filter.hook)
    && (filter.sourceType == 0 || o.sourceType == filter.sourceType)
    && (filter.sourceCode == 0 || o.sourceCode == filter.sourceCode)
  }

  predicate Holds(t: Table, o: Owner, code: nat) { o in t && code in t[o] }

  predicate Held(t: Table, code: nat) { exists o :: o in t && code in t[o] }

  /** Whether the table has a claim of o, or room for one. */
  predicate Fits(t: Table, o: Owner) { o in t || |t| < CAPACITY }

  function Hold(t: Table, o: Owner, code: nat): Table {
    if Fits(t, o) then t[o := (if o in t then t[o] else {}) + {code}] else t
  }

  function Put(t: Table, o: Owner, keys: set<nat>): Table {
    if keys == {} then t - {o} else t[o := keys]
  }

  function DropKey(t: Table, o: Owner, code: nat): Table
    requires o in t
  {
    Put(t, o, t[o] - {code})
  }

  /** Ends every hold of code. */
  function ReleaseCode(t: Table, code: nat): Table {
    map o | o in t && t[o] - {code} != {} :: t[o] - {code}
  }

  function DropMatching(t: Table, filter: Owner): Table {
    map o | o in t && !Matches(o, filter) :: t[o]
  }

  /** No empty claims, and only codes the bitmaps cover. */
  ghost predicate TableOk(t: Table) {
    forall o :: o in t ==> t[o] != {} && forall c :: c in t[o] ==> c <= KEY_MAX
  }

  // ---------------------------------------------------------------- who holds what

  lemma HoldHeld(t: Table, o: Owner, code: nat)
    ensures forall c :: Held(Hold(t, o, code), c) <==> Held(t, c) || (c == code && Fits(t, o))
  {
    var u := Hold(t, o, code);
    forall c
      ensures Held(u, c) <==> Held(t, c) || (c == code && Fits(t, o))
    {
      if Held(t, c) {
        var p :| p in t && c in t[p];
        assert p in u && c in u[p];
      }
      if c == code && Fits(t, o) {
        assert o in u && c in u[o];
      }
    }
  }

  lemma DropKeyHeld(t: Table, o: Owner, code: nat)
    requires o in t
    ensures forall c :: c != code ==> (Held(DropKey(t, o, code), c) <==> Held(t, c))
    ensures Held(DropKey(t, o, code), code) ==> Held(t, code)
  {
    var u := DropKey(t, o, code);
    forall c | c != code
      ensures Held(u, c) <==> Held(t, c)
    {
      if Held(t, c) {
        var p :| p in t && c in t[p];
        assert p == o ==> c in t[o] - {code};
        assert p in u && c in u[p];
      }
    }
  }

  lemma ReleaseCodeHeld(t: Table, code: nat)
    ensures forall c :: Held(ReleaseCode(t, code), c) <==> Held(t, c) && c != code
  {
    var u := ReleaseCode(t, code);
    forall c
      ensures Held(u, c) <==> Held(t, c) && c != code
    {
      if Held(t, c) && c != code {
        var p :| p in t && c in t[p];
        assert c in t[p] - {code};
        assert p in u && c in u[p];
      }
    }
  }

  lemma DropMatchingHeld(t: Table, filter: Owner)
    ensures forall c :: Held(DropMatching(t, filter), c) ==> Held(t, c)
    ensures TableOk(t) ==> TableOk(DropMatching(t, filter))
  {
    var u := DropMatching(t, filter);
    forall c | Held(u, c)
      ensures Held(t, c)
    {
      var o :| o in u && c in u[o];
      assert o in t && c in t[o];
    }
  }
}
