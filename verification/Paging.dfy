/** Listings in pages: the service's page and gamepad order, and the client that follows
    the pages. */
module Paging {
  import opened Codes

  const PAGE := 8
  const LIMIT := 0x1_0000_0000

  // ---------------------------------------------------------------- pages

  /** The listed entries from index on, in order; an entry that is not listed is None. */
  function Listed(items: seq<Option<nat>>, index: nat): seq<nat>
    decreases |items| - index
  {
    if index >= |items| then []
    else (if items[index].Some? then [items[index].value] else []) + Listed(items, index + 1)
  }

  datatype Page = Page(entries: seq<nat>, next: nat, generation: nat)

  /** At most capacity entries from offset on, and where the next page starts. */
  method ListPage(items: seq<Option<nat>>, offset: nat, capacity: nat, generation: nat) returns (p: Page)
    requires |items| < LIMIT
    ensures |p.entries| <= capacity && p.generation == generation
    ensures capacity > 0 ==> Listed(items, offset) == p.entries + if p.next == 0 then [] else Listed(items, p.next)
    ensures capacity == PAGE ==> IsPageOf(p, items, offset, generation)
    ensures p.next < LIMIT && (p.next != 0 ==> p.next < |items| && (capacity > 0 ==> offset < p.next))
  {
    var entries := [];
    var index := offset;
    while index < |items| && |entries| < capacity
      invariant offset <= index && |entries| <= capacity && (index > offset ==> index <= |items|)
      invariant Listed(items, offset) == entries + Listed(items, index)
      invariant index == offset ==> entries == []
    {
      if items[index].Some? {
        entries := entries + [items[index].value];
      }
      index := index + 1;
    }
    p := Page(entries, if index < |items| then index else 0, generation);
  }

  // ---------------------------------------------------------------- the client

  datatype Listing = Complete(visited: seq<nat>, generation: nat) | Rejected(visited: seq<nat>)

  /** A page the client takes: no more entries than fit, an offset that grows, and the
      generation of the pages before it. */
  predicate Acceptable(p: Page, offset: nat, generation: nat) {
    |p.entries| <= PAGE && (p.next == 0 || p.next > offset) && (generation == 0 || p.generation == generation)
  }

  /** Follows the pages of any peer. It ends because an accepted offset grows within the 32
      bits of its field; a peer that lists honestly has every entry visited once, in order. */
  method FollowPages(peer: nat -> Page) returns (r: Listing)
    requires forall o :: peer(o).next < LIMIT
    ensures forall items, generation :: Honest(peer, items, generation) ==> r == Complete(Listed(items, 0), generation)
  {
    var offset, generation, visited := 0, 0, [];
    while true
      invariant offset < LIMIT
      invariant forall items, g :: Honest(peer, items, g) ==>
                  Listed(items, 0) == visited + Listed(items, offset) && (generation == 0 || generation == g)
      decreases LIMIT - offset
    {
      var p := peer(offset);
      if !Acceptable(p, offset, generation) {
        return Rejected(visited);
      }
      generation := p.generation;
      visited := visited + p.entries;
      if p.next == 0 {
        return Complete(visited, generation);
      }
      offset := p.next;
    }
  }

  /** The peer answers every offset with the page of one unchanged table. */
  ghost predicate Honest(peer: nat -> Page, items: seq<Option<nat>>, generation: nat) {
    generation != 0 && forall o :: IsPageOf(peer(o), items, o, generation)
  }

  ghost predicate IsPageOf(p: Page, items: seq<Option<nat>>, offset: nat, generation: nat) {
    && |p.entries| <= PAGE && p.generation == generation
    && Listed(items, offset) == p.entries + (if p.next == 0 then [] else Listed(items, p.next))
    && (p.next != 0 ==> offset < p.next)
  }

  // ---------------------------------------------------------------- gamepad order

  /** A tracked device: whether it is listed and a gamepad, and its event node. */
  datatype Tracked = Tracked(gamepad: bool, node: nat)

  /** Event node first, place in the table second. */
  predicate Before(table: seq<Tracked>, a: nat, b: nat)
    requires a < |table| && b < |table|
  {
    table[a].node < table[b].node || (table[a].node == table[b].node && a < b)
  }

  predicate Ordered(table: seq<Tracked>, s: seq<nat>) {
    && (forall i :: 0 <= i < |s| ==> s[i] < |table|)
    && (forall i, j :: 0 <= i < j < |s| ==> Before(table, s[i], s[j]))
  }

  /** s lists exactly the gamepads among the first n devices. */
  predicate Gamepads(table: seq<Tracked>, s: seq<nat>, n: nat)
    requires n <= |table|
  {
    && (forall i :: 0 <= i < |s| ==> s[i] < n && table[s[i]].gamepad)
    && (forall x :: 0 <= x < n && table[x].gamepad ==> x in s)
  }

  /** Where index goes: behind every entry its node does not precede. */
  predicate GoesAt(table: seq<Tracked>, s: seq<nat>, index: nat, position: nat) {
    && position <= |s| && index < |table| && (forall i :: 0 <= i < |s| ==> s[i] < |table|)
    && (forall i :: position <= i < |s| ==> table[s[i]].node > table[index].node)
    && (position > 0 ==> table[s[position - 1]].node <= table[index].node)
  }

  function Inserted(s: seq<nat>, index: nat, position: nat): seq<nat>
    requires position <= |s|
  {
    s[..position] + [index] + s[position..]
  }

  /** Makes room for index by moving later nodes up, and puts it there. */
  method Insert(table: seq<Tracked>, ordered: array<nat>, count: nat, index: nat) returns (position: nat)
    requires count < ordered.Length && index < |table| && forall i :: 0 <= i < count ==> ordered[i] < |table|
    modifies ordered
    ensures GoesAt(table, old(ordered[..count]), index, position)
    ensures ordered[..count + 1] == Inserted(old(ordered[..count]), index, position)
  {
    ghost var was := ordered[..count];
    position := count;
    while position > 0 && table[ordered[position - 1]].node > table[index].node
      invariant position <= count
      invariant ordered[..position] == was[..position]
      invariant ordered[position + 1..count + 1] == was[position..]
      invariant forall i :: position <= i < count ==> table[was[i]].node > table[index].node
    {
      ghost var moved := ordered[position + 1..count + 1];
      ordered[position] := ordered[position - 1];
      assert ordered[position..count + 1] == [was[position - 1]] + moved;
      position := position - 1;
    }
    ordered[position] := index;
    assert ordered[..count + 1] == ordered[..position] + [ordered[position]] + ordered[position + 1..count + 1];
    assert position > 0 ==> was[..position][position - 1] == was[position - 1];
  }

  lemma InsertedOrdered(table: seq<Tracked>, s: seq<nat>, index: nat, position: nat)
    requires Ordered(table, s) && GoesAt(table, s, index, position) && forall i :: 0 <= i < |s| ==> s[i] < index
    ensures Ordered(table, Inserted(s, index, position))
  {
    var now := Inserted(s, index, position);
    assert forall i :: 0 <= i < |now| ==> now[i] == if i < position then s[i] else if i == position then index
           else s[i - 1];
    forall i | 0 <= i < position
      ensures Before(table, s[i], index)
    {
      assert i == position - 1 || Before(table, s[i], s[position - 1]);
    }
  }

  /** The gamepads by event node, ties in table order. */
  method CollectGamepads(table: seq<Tracked>, ordered: array<nat>) returns (count: nat)
    requires |table| <= ordered.Length
    modifies ordered
    ensures count <= |table| && Ordered(table, ordered[..count]) && Gamepads(table, ordered[..count], |table|)
  {
    count := 0;
    var index := 0;
    while index < |table|
      invariant count <= index <= |table| && Ordered(table, ordered[..count])
                && Gamepads(table, ordered[..count], index)
    {
      if table[index].gamepad {
        ghost var was := ordered[..count];
        assert forall i :: 0 <= i < count ==> ordered[i] == was[i] && was[i] < index;
        var position := Insert(table, ordered, count, index);
        InsertedOrdered(table, was, index, position);
        InsertedGamepads(table, was, index, position);
        hide Ordered, Gamepads;
        count := count + 1;
      }
      index := index + 1;
    }
  }

  lemma InsertedGamepads(table: seq<Tracked>, was: seq<nat>, index: nat, position: nat)
    requires index < |table| && table[index].gamepad && position <= |was| && Gamepads(table, was, index)
    ensures Gamepads(table, Inserted(was, index, position), index + 1)
  {
    var now := Inserted(was, index, position);
    assert now[position] == index;
    forall x | 0 <= x < index && table[x].gamepad
      ensures x in now
    {
      var i :| 0 <= i < |was| && was[i] == x;
      assert now[if i < position then i else i + 1] == x;
    }
  }

  /** A strict order leaves one list of the gamepads: it is the stable sort. */
  lemma {:induction false} OrderIsUnique(table: seq<Tracked>, a: seq<nat>, b: seq<nat>)
    requires Ordered(table, a) && Ordered(table, b) && (forall x :: x in a <==> x in b)
    ensures a == b
    decreases |a|
  {
    assert (a != [] ==> a[0] in a) && (b != [] ==> b[0] in b);
    if a != [] {
      var x, y := a[0], b[0];
      assert x in b && y in a;
      var i :| 0 <= i < |b| && b[i] == x;
      var j :| 0 <= j < |a| && a[j] == y;
      assert i == 0 || Before(table, y, x);
      assert j == 0 || Before(table, x, y);
      assert x == y;
      TailIs(table, a);
      TailIs(table, b);
      OrderIsUnique(table, a[1..], b[1..]);
    }
  }

  lemma TailIs(table: seq<Tracked>, a: seq<nat>)
    requires Ordered(table, a) && a != []
    ensures Ordered(table, a[1..]) && forall x :: x in a[1..] <==> x in a && x != a[0]
  {
    assert forall i :: 0 < i < |a| ==> Before(table, a[0], a[i]);
    assert forall i :: 0 < i < |a| ==> a[i] == a[1..][i - 1];
  }
}
