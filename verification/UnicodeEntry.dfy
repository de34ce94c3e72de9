/** Text typed as UTF-16 units: what is decoded is what was encoded, and the keys typed
    for a code point spell it in hexadecimal. */
module UnicodeEntry {
  import opened Codes
  import opened Claims
  import opened Forwarding
  import opened Synthesis

  // ---------------------------------------------------------------- encoding

  predicate IsScalar(c: nat) { 0 < c <= 0x10FFFF && !(0xD800 <= c <= 0xDFFF) }

  /** Section 2.1 of RFC 2781. */
  function Encode(c: nat): seq<nat>
    requires IsScalar(c)
  {
    if c < 0x10000 then [c] else [0xD800 + (c - 0x10000) / 1024, 0xDC00 + (c - 0x10000) % 1024]
  }

  function EncodeAll(cs: seq<nat>): seq<nat>
    requires forall i :: 0 <= i < |cs| ==> IsScalar(cs[i])
  {
    if cs == [] then [] else Encode(cs[0]) + EncodeAll(cs[1..])
  }

  // ---------------------------------------------------------------- decoding

  datatype Decoded = Decoded(pending: nat, points: seq<nat>)

  function DecodeAll(pending: nat, units: seq<nat>): Decoded
    decreases |units|
  {
    if units == [] then Decoded(pending, [])
    else
      var u := DecodeUnit(pending, units[0]);
      var rest := DecodeAll(u.pending, units[1..]);
      rest.(points := (if u.codepoint.Some? then [u.codepoint.value] else []) + rest.points)
  }

  lemma {:induction false} DecodeConcat(pending: nat, a: seq<nat>, b: seq<nat>)
    ensures var d := DecodeAll(pending, a);
            var e := DecodeAll(d.pending, b);
            DecodeAll(pending, a + b) == Decoded(e.pending, d.points + e.points)
    decreases |a|
  {
    if a == [] {
      assert a + b == b;
    } else {
      assert (a + b)[0] == a[0] && (a + b)[1..] == a[1..] + b;
      DecodeConcat(DecodeUnit(pending, a[0]).pending, a[1..], b);
    }
  }

  lemma DecodeOne(c: nat)
    requires IsScalar(c)
    ensures DecodeAll(0, Encode(c)) == Decoded(0, [c])
  {
    if c >= 0x10000 {
      var high, low := 0xD800 + (c - 0x10000) / 1024, 0xDC00 + (c - 0x10000) % 1024;
      assert [high, low][1..] == [low] && [low][1..] == [];
      assert DecodeUnit(0, high) == Unit(high, None);
      assert DecodeUnit(high, low) == Unit(0, Some(c));
      assert DecodeAll(high, [low]) == Decoded(0, [c]) by { assert DecodeAll(0, []) == Decoded(0, []); }
    } else {
      assert [c][1..] == [];
    }
  }

  /** Decoding gives back every list of code points, and leaves no surrogate pending. */
  lemma {:induction false} DecodeEncoded(cs: seq<nat>)
    requires forall i :: 0 <= i < |cs| ==> IsScalar(cs[i])
    ensures DecodeAll(0, EncodeAll(cs)) == Decoded(0, cs)
  {
    if cs != [] {
      DecodeOne(cs[0]);
      DecodeEncoded(cs[1..]);
      DecodeConcat(0, Encode(cs[0]), EncodeAll(cs[1..]));
      assert cs == [cs[0]] + cs[1..];
      hide DecodeAll;
    }
  }

  // ---------------------------------------------------------------- typing

  predicate IsText(i: Input) { i.Keyboard? && Unicode in i.keyFlags }

  /** The units of an input list; key-ups carry none. */
  function Units(inputs: seq<Input>): seq<nat>
    requires forall i :: 0 <= i < |inputs| ==> IsText(inputs[i])
  {
    if inputs == [] then []
    else assert IsText(inputs[0]); (if Up in inputs[0].keyFlags then [] else [inputs[0].scan]) + Units(inputs[1..])
  }

  /** Types a list of code points, one entry sequence after the other. */
  function TypeAll(m: Machine, points: seq<nat>): (r: Machine)
    ensures Kept(m, r)
    decreases |points|
  {
    if points == [] then m else TypeAll(SendCodepoint(m, points[0]), points[1..])
  }

  /** The surrogate a machine waits with is no part of what it types. */
  lemma PendingApart(m: Machine, c: nat, p: nat)
    ensures SendCodepoint(m.(pendingHigh := p), c) == SendCodepoint(m, c).(pendingHigh := p)
  {
    StartApart(m, p);
    hide StartEntry;
  }

  lemma UpdateApart(m: Machine, code: nat, p: nat)
    ensures UpdateGeneric(m.(pendingHigh := p), code) ==
            UpdateGeneric(m, code).(m := UpdateGeneric(m, code).m.(pendingHigh := p))
  {}

  lemma StartApart(m: Machine, p: nat)
    ensures StartEntry(m.(pendingHigh := p)) == StartEntry(m).(m := StartEntry(m).m.(pendingHigh := p))
  {
    var k := StrikeEntry(m.fwd);
    var n := m.(fwd := k.fwd);
    UpdateApart(n, KEY_LEFTSHIFT, p);
    UpdateApart(UpdateGeneric(n, KEY_LEFTSHIFT).m, KEY_LEFTCTRL, p);
    hide StrikeEntry, UpdateGeneric;
  }

  lemma {:induction false} TypeApart(m: Machine, points: seq<nat>, p: nat)
    ensures TypeAll(m.(pendingHigh := p), points) == TypeAll(m, points).(pendingHigh := p)
    decreases |points|
  {
    hide SendCodepoint;
    if points != [] {
      PendingApart(m, points[0], p);
      TypeApart(SendCodepoint(m, points[0]), points[1..], p);
    }
  }

  lemma {:induction false} TypeConcat(m: Machine, a: seq<nat>, b: seq<nat>)
    ensures TypeAll(m, a + b) == TypeAll(TypeAll(m, a), b)
    decreases |a|
  {
    hide SendCodepoint;
    if a == [] {
      assert a + b == b;
    } else {
      assert (a + b)[0] == a[0] && (a + b)[1..] == a[1..] + b;
      TypeConcat(SendCodepoint(m, a[0]), a[1..], b);
    }
  }

  lemma TextSent(m: Machine, i: Input, moved: bool, o: Owner)
    requires IsText(i)
    ensures SendOne(m, i, moved, o) == if Up in i.keyFlags then m else SendUnit(m, i.scan)
  {}

  lemma UnitTyped(m: Machine, unit: nat)
    ensures var u := DecodeUnit(m.pendingHigh, unit);
            SendUnit(m, unit) == TypeAll(m, if u.codepoint.Some? then [u.codepoint.value]
              else []).(pendingHigh := u.pending)
  {
    var u := DecodeUnit(m.pendingHigh, unit);
    if u.codepoint.Some? {
      PendingApart(m, u.codepoint.value, u.pending);
      assert [u.codepoint.value][1..] == [];
    }
    hide SendCodepoint, DecodeUnit;
  }

  /** A fragment of text types what its units decode to. */
  lemma {:induction false} FragmentTyped(m: Machine, inputs: seq<Input>, moved: bool, o: Owner)
    requires forall i :: 0 <= i < |inputs| ==> IsText(inputs[i])
    ensures var d := DecodeAll(m.pendingHigh, Units(inputs));
            SendInputs(m, inputs, false, moved, o) == TypeAll(m, d.points).(pendingHigh := d.pending)
    decreases |inputs|
  {
    hide SendOne, SendUnit, DecodeUnit, SendCodepoint;
    if inputs != [] {
      var i, rest := inputs[0], inputs[1..];
      TextSent(m, i, moved, o);
      var n := SendOne(m, i, moved, o);
      FragmentTyped(n, rest, moved, o);
      if Up !in i.keyFlags {
        UnitTyped(m, i.scan);
        var u, units := DecodeUnit(m.pendingHigh, i.scan), Units(rest);
        var first, later := if u.codepoint.Some? then [u.codepoint.value] else [], DecodeAll(u.pending, units);
        assert ([i.scan] + units)[1..] == units;
        TypeApart(TypeAll(m, first), later.points, u.pending);
        TypeConcat(m, first, later.points);
      } else {
        assert Units(inputs) == Units(rest);
      }
    }
  }

  // ---------------------------------------------------------------- fragments

  predicate AllText(fragments: seq<seq<Input>>) {
    forall f, i :: 0 <= f < |fragments| && 0 <= i < |fragments[f]| ==> IsText(fragments[f][i])
  }

  /** The units of a batch, wherever it was cut. */
  function BatchUnits(fragments: seq<seq<Input>>): seq<nat>
    requires AllText(fragments)
  {
    if fragments == [] then [] else Units(fragments[0]) + BatchUnits(fragments[1..])
  }

  /** A batch sent fragment by fragment; only its first fragment starts it. */
  function SendFragments(m: Machine, fragments: seq<seq<Input>>, started: bool, o: Owner): Machine
    decreases |fragments|
  {
    if fragments == [] then m
    else SendFragments(SendBatch(m, fragments[0], started, o), fragments[1..], true, o)
  }

  lemma {:induction false} FragmentsTyped(m: Machine, fragments: seq<seq<Input>>, o: Owner)
    requires AllText(fragments) && m.fwd.sink.attached && !IsDead(m.fwd, o, Applied)
    ensures var d := DecodeAll(m.pendingHigh, BatchUnits(fragments));
            SendFragments(m, fragments, true, o) == TypeAll(m, d.points).(pendingHigh := d.pending)
    decreases |fragments|
  {
    hide SendInputs, TypeAll;
    if fragments == [] {
      TypeNothing(m);
    } else {
      var now, rest := Units(fragments[0]), BatchUnits(fragments[1..]);
      var d := DecodeAll(m.pendingHigh, now);
      var n := SendInputs(m, fragments[0], false, false, o);
      FragmentTyped(m, fragments[0], false, o);
      FragmentsTyped(n, fragments[1..], o);
      DecodeConcat(m.pendingHigh, now, rest);
      hide DecodeAll;
      TypeApart(TypeAll(m, d.points), DecodeAll(d.pending, rest).points, d.pending);
      TypeConcat(m, d.points, DecodeAll(d.pending, rest).points);
    }
  }

  lemma TypeNothing(m: Machine)
    ensures TypeAll(m, []) == m
  {}

  /** A batch of text types the code points its units decode to, one after the other. */
  lemma BatchTyped(m: Machine, fragments: seq<seq<Input>>, o: Owner)
    requires AllText(fragments) && fragments != [] && m.fwd.sink.attached && !IsDead(m.fwd, o, Applied)
    ensures var d := DecodeAll(0, BatchUnits(fragments));
            SendFragments(m, fragments, false, o) == TypeAll(m, d.points).(pendingHigh := d.pending)
  {
    var d := DecodeAll(0, BatchUnits(fragments));
    FragmentsTyped(m.(pendingHigh := 0), fragments, o);
    TypeApart(m, d.points, 0);
    hide DecodeAll, TypeAll, SendInputs, BatchUnits;
    StartsClean(m, fragments[0], o);
  }

  lemma StartsClean(m: Machine, inputs: seq<Input>, o: Owner)
    requires m.fwd.sink.attached
    ensures SendBatch(m, inputs, false, o) == SendBatch(m.(pendingHigh := 0), inputs, true, o)
  {}

  // ---------------------------------------------------------------- the digits

  function Value(digits: seq<nat>): nat {
    if digits == [] then 0 else Value(digits[..|digits| - 1]) * 16 + digits[|digits| - 1]
  }

  lemma {:induction false} DigitsValue(n: nat, width: nat)
    ensures Value(HexDigits(n, width)) == n && |HexDigits(n, width)| >= width
    decreases n, width
  {
    if n != 0 || width != 0 {
      var shorter := if width == 0 then 0 else width - 1;
      DigitsValue(n / 16, shorter);
      var init := HexDigits(n / 16, shorter);
      assert (init + [n % 16])[..|init|] == init;
    }
  }

  predicate IsHexKey(key: nat) { key in {11, 2, 3, 4, 5, 6, 7, 8, 9, 10, 30, 48, 46, 32, 18, 33} }

  /** The digit a key types, by its evdev code. */
  function KeyDigit(key: nat): nat {
    if key == 11 then 0 else if 2 <= key <= 10 then key - 1
    else if key == 30 then 10 else if key == 48 then 11 else if key == 46 then 12
    else if key == 32 then 13 else if key == 18 then 14 else 15
  }

  function Spelled(keys: seq<nat>): nat {
    if keys == [] then 0 else Spelled(keys[..|keys| - 1]) * 16 + KeyDigit(keys[|keys| - 1])
  }

  lemma {:induction false} SpelledDigits(digits: seq<nat>, keys: seq<nat>)
    requires |keys| == |digits| && forall i :: 0 <= i < |digits| ==> digits[i] < 16 && keys[i] == HexKey(digits[i])
    ensures Spelled(keys) == Value(digits)
  {
    if digits != [] {
      SpelledDigits(digits[..|digits| - 1], keys[..|keys| - 1]);
      assert KeyDigit(HexKey(digits[|digits| - 1])) == digits[|digits| - 1];
    }
  }

  /** The keys typed between the entry chord and the space spell the code point. */
  lemma KeysSpellTheCodePoint(c: nat)
    ensures Spelled(TypedKeys(c)) == c && |TypedKeys(c)| >= 4
  {
    var digits := TypedDigits(c);
    assert forall i :: 0 <= i < |digits| ==> digits[i] in digits;
    DigitsValue(c, 4);
    SpelledDigits(digits, TypedKeys(c));
  }
}
