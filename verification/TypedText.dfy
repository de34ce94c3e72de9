/** What a program reads off the sink: from the key events alone, the text a batch types. */
module TypedText {
  import opened Codes
  import opened Claims
  import opened Forwarding
  import opened Synthesis
  import opened SynthInvariant
  import opened UnicodeEntry

  /** The keys the program takes to be down, the hexadecimal keys of an entry in progress,
      and the text it has read. */
  datatype Reader = Reader(down: set<nat>, entry: Option<seq<nat>>, text: seq<nat>)

  /** U while left Ctrl and left Shift are down begins an entry, hexadecimal keys go on with
      it, space ends it, and any other key abandons it. */
  function Read(r: Reader, e: Event): Reader {
    if e.kind != 1 || e.code > KEY_MAX || e.value == 2 then r
    else if e.value == 0 then r.(down := r.down - {e.code})
    else
      var s := r.(down := r.down + {e.code});
      if e.code == 22 && 29 in r.down && 42 in r.down then s.(entry := Some([]))
      else if r.entry.None? then s
      else if e.code == 57 then s.(entry := None, text := r.text + [Spelled(r.entry.value)])
      else if IsHexKey(e.code) then s.(entry := Some(r.entry.value + [e.code]))
      else s.(entry := None)
  }

  function ReadAll(r: Reader, outs: seq<Out>): Reader {
    if outs == [] then r
    else
      var s := ReadAll(r, outs[..|outs| - 1]);
      if outs[|outs| - 1].ToSink? then Read(s, outs[|outs| - 1].event) else s
  }

  lemma {:induction false} ReadConcat(r: Reader, a: seq<Out>, b: seq<Out>)
    ensures ReadAll(r, a + b) == ReadAll(ReadAll(r, a), b)
    decreases |b|
  {
    if b == [] {
      assert a + b == a;
    } else {
      assert (a + b)[..|a + b| - 1] == a + b[..|b| - 1] && (a + b)[|a + b| - 1] == b[|b| - 1];
      ReadConcat(r, a, b[..|b| - 1]);
    }
  }

  /** On a steady sink what was written from f to g takes the reader from r to s. */
  predicate Reads(f: Forward, g: Forward, r: Reader, s: Reader) {
    && f.trace <= g.trace && f.sink.Steady() && g.sink.Steady() && r.down == f.sink.down && s.down == g.sink.down
    && ReadAll(r, g.trace[|f.trace|..]) == s
  }

  lemma ReadsOn(f: Forward, g: Forward, h: Forward, r: Reader, s: Reader, t: Reader)
    requires Reads(f, g, r, s) && Reads(g, h, s, t)
    ensures Reads(f, h, r, t)
  {
    var a, b := g.trace[|f.trace|..], h.trace[|g.trace|..];
    assert h.trace[|f.trace|..] == a + b;
    ReadConcat(r, a, b);
    hide ReadAll;
  }

  lemma ReadsNothing(f: Forward, g: Forward, r: Reader)
    requires f.sink.Steady() && g.sink.Steady() && r.down == f.sink.down == g.sink.down && g.trace == f.trace
    ensures Reads(f, g, r, r)
  {
    assert f.trace[|f.trace|..] == [];
  }

  // ---------------------------------------------------------------- taps

  lemma KeyReads(f: Forward, code: nat, value: nat, r: Reader)
    requires f.sink.Steady() && r.down == f.sink.down && code <= KEY_MAX && value <= 1
    ensures Reads(f, WriteSink(f, [KeyEvent(code, value)]), r, Read(r, KeyEvent(code, value)))
  {
    var e := KeyEvent(code, value);
    var g := WriteSink(f, [e]);
    assert [e][..0] == [] && Stamp(f, [e])[..0] == [];
    assert NoteWritten(f.sink.down, [e], true) == NoteKey(f.sink.down, e, true);
    assert g.trace[|f.trace|..] == Stamp(f, [e]);
  }

  /** The reader after a press of code and no change of what is down. */
  function Struck(r: Reader, code: nat): Reader { Read(r, KeyEvent(code, 1)).(down := r.down) }

  lemma TapReads(f: Forward, code: nat, r: Reader)
    requires f.sink.Steady() && r.down == f.sink.down && code <= KEY_MAX && code != 29 && code != 42
    ensures Reads(f, Tap(f, code), r, Struck(r, code))
  {
    var v := if code in f.sink.down then 1 else 0;
    var a, b := KeyEvent(code, 1 - v), KeyEvent(code, v);
    var g := Tap(f, code);
    var outs := Stamp(f, [a, b]);
    assert [a, b][..1] == [a] && [a][..0] == [] && outs[..1][..0] == [];
    assert NoteWritten(f.sink.down, [a], true) == NoteKey(f.sink.down, a, true);
    assert NoteWritten(f.sink.down, [a, b], true) == NoteKey(NoteKey(f.sink.down, a, true), b, true) == f.sink.down;
    assert g.trace[|f.trace|..] == outs;
    assert ReadAll(r, outs[..1]) == Read(r, a);
    assert ReadAll(r, outs) == Read(Read(r, a), b);
    assert Read(Read(r, a), b) == Struck(r, code);
  }

  /** Every key of the list, and then space. */
  lemma {:induction false} DigitsRead(f: Forward, keys: seq<nat>, r: Reader)
    requires f.sink.Steady() && r.down == f.sink.down && r.entry.Some?
    requires forall k :: 0 <= k < |keys| ==> IsHexKey(keys[k])
    ensures Reads(f, TapAll(f, keys + [57]), r,
                  Reader(r.down, None, r.text + [Spelled(r.entry.value + keys)]))
    decreases |keys|
  {
    hide Tap, Spelled;
    var all := keys + [57];
    var g := Tap(f, all[0]);
    TapReads(f, all[0], r);
    if keys == [] {
      assert all[1..] == [] && r.entry.value + keys == r.entry.value;
      assert TapAll(g, []) == g;
    } else {
      var rest := keys[1..];
      assert all[1..] == rest + [57] && all[0] == keys[0];
      var s := Struck(r, keys[0]);
      assert s.entry == Some(r.entry.value + [keys[0]]) && s.text == r.text;
      DigitsRead(g, rest, s);
      assert r.entry.value + [keys[0]] + rest == r.entry.value + keys;
      hide TapAll, Reads;
      TapMore(f, all);
      ReadsOn(f, g, TapAll(g, rest + [57]), r, s, Reader(r.down, None, r.text + [Spelled(r.entry.value + keys)]));
    }
  }

  lemma TapMore(f: Forward, keys: seq<nat>)
    requires keys != [] && f.sink.Steady()
    ensures TapAll(f, keys) == TapAll(Tap(f, keys[0]), keys[1..])
  {
    hide Tap;
  }

  // ---------------------------------------------------------------- the entry chord

  /** A modifier goes down, or is already. */
  lemma HeldReads(f: Forward, code: nat, r: Reader)
    requires f.sink.Steady() && r.down == f.sink.down && r.entry.None? && (code == 29 || code == 42)
    ensures var g := SinkKey(f, code, true); Reads(f, g, r, r.(down := r.down + {code})) && SinkKeyOk(f, code, true)
  {
    var g := f.(sink := f.sink.(synth := f.sink.synth + {code}));
    ReadsNothing(f, g, r);
    KeyReads(g, code, 1, r);
    assert Wanted(g, code);
    hide WriteSink;
    assert Reads(f, WriteSink(g, [KeyEvent(code, 1)]), r, Read(r, KeyEvent(code, 1)));
    assert code in r.down ==> r.down + {code} == r.down;
  }

  /** A modifier that is down stays or goes up. */
  lemma LetReads(m: Machine, code: nat, r: Reader)
    requires m.fwd.sink.Steady() && r.down == m.fwd.sink.down && code in r.down && code !in m.onAbs && code <= KEY_MAX
    ensures var s := UpdateGeneric(m, code);
            && s.ok && Reads(m.fwd, s.m.fwd, r, r.(down := s.m.fwd.sink.down)) && s.m.onAbs == m.onAbs
            && forall c :: c != code ==> (c in s.m.fwd.sink.down <==> c in r.down)
  {
    var held := Held(m.applied, code);
    var f := m.fwd;
    var g := f.(sink := f.sink.(synth := if held then f.sink.synth + {code} else f.sink.synth - {code}));
    ReadsNothing(f, g, r);
    KeyReads(g, code, 0, r);
    hide WriteSink, Held, Wanted;
    assert Reads(f, WriteSink(g, [KeyEvent(code, 0)]), r, Read(r, KeyEvent(code, 0)));
  }

  lemma StrikeReads(f: Forward, r: Reader)
    requires f.sink.Steady() && r.down == f.sink.down && r.entry.None?
    ensures var k := StrikeEntry(f);
            k.ok && Reads(f, k.fwd, r, Reader(r.down + {29, 42}, Some([]), r.text))
  {
    var a := SinkKey(f, 29, true);
    var s := r.(down := r.down + {29});
    HeldReads(f, 29, r);
    var b := SinkKey(a, 42, true);
    var t := s.(down := s.down + {42});
    HeldReads(a, 42, s);
    TapReads(b, 22, t);
    assert t.down == r.down + {29, 42};
    assert Struck(t, 22) == Reader(r.down + {29, 42}, Some([]), r.text);
    hide SinkKey, SinkKeyOk, Tap;
    ReadsOn(f, a, b, r, s, t);
    ReadsOn(f, b, Tap(b, 22), r, t, Struck(t, 22));
  }

  lemma StartReads(m: Machine, r: Reader)
    requires m.fwd.sink.Steady() && r.down == m.fwd.sink.down && r.entry.None? && 29 !in m.onAbs && 42 !in m.onAbs
    ensures var e := StartEntry(m); e.ok && Reads(m.fwd, e.m.fwd, r, Reader(e.m.fwd.sink.down, Some([]), r.text))
  {
    var k := StrikeEntry(m.fwd);
    var n := m.(fwd := k.fwd);
    var s := Reader(r.down + {29, 42}, Some([]), r.text);
    StrikeReads(m.fwd, r);
    hide StrikeEntry, UpdateGeneric, ReadAll;
    LetReads(n, 42, s);
    var d := UpdateGeneric(n, 42).m;
    var t := s.(down := d.fwd.sink.down);
    LetReads(d, 29, t);
    var e := UpdateGeneric(d, 29).m;
    ReadsOn(m.fwd, n.fwd, d.fwd, r, s, t);
    ReadsOn(m.fwd, d.fwd, e.fwd, r, t, t.(down := e.fwd.sink.down));
  }

  // ---------------------------------------------------------------- text

  lemma TypedKeysSpell(c: nat)
    ensures forall k :: 0 <= k < |TypedKeys(c)| ==> IsHexKey(TypedKeys(c)[k])
  {
    var digits := TypedDigits(c);
    assert forall i :: 0 <= i < |digits| ==> digits[i] in digits;
  }

  predicate Typeable(c: nat) { 0 < c <= 0x10FFFF }

  function Sifted(points: seq<nat>): seq<nat> {
    if points == [] then [] else (if Typeable(points[0]) then [points[0]] else []) + Sifted(points[1..])
  }

  lemma EntryReads(m: Machine, c: nat, r: Reader)
    requires m.fwd.sink.Steady() && r.down == m.fwd.sink.down && r.entry.None? && Typeable(c)
    requires 29 !in m.onAbs && 42 !in m.onAbs
    ensures var g := SendCodepoint(m, c); Reads(m.fwd, g.fwd, r, Reader(g.fwd.sink.down, None, r.text + [c]))
  {
    hide StartEntry, ReadAll, TypedKeys, Spelled, TapAll;
    StartReads(m, r);
    var e := StartEntry(m).m;
    var s := Reader(e.fwd.sink.down, Some([]), r.text);
    TypedKeysSpell(c);
    KeysSpellTheCodePoint(c);
    DigitsRead(e.fwd, TypedKeys(c), s);
    assert [] + TypedKeys(c) == TypedKeys(c);
    var g := TapAll(e.fwd, TypedKeys(c) + [57]);
    ReadsOn(m.fwd, e.fwd, g, r, s, Reader(s.down, None, r.text + [c]));
  }

  lemma CodepointReads(m: Machine, c: nat, r: Reader)
    requires MachineInv(m) && m.fwd.sink.Steady() && r.down == m.fwd.sink.down && r.entry.None?
    ensures var g := SendCodepoint(m, c);
            && g.fwd.sink.Steady()
            && Reads(m.fwd, g.fwd, r, Reader(g.fwd.sink.down, None, r.text + if Typeable(c) then [c] else []))
  {
    if Typeable(c) {
      assert 29 !in m.onAbs && 42 !in m.onAbs;
      hide MachineInv, SendCodepoint, ReadAll;
      EntryReads(m, c, r);
    } else {
      hide MachineInv, StartEntry, TapAll;
      assert r.text + [] == r.text;
      ReadsNothing(m.fwd, m.fwd, r);
    }
  }

  lemma TypeMore(m: Machine, points: seq<nat>)
    ensures TypeAll(m, points) == if points == [] then m else TypeAll(SendCodepoint(m, points[0]), points[1..])
  {
    hide SendCodepoint;
  }

  lemma {:induction false} PointsRead(m: Machine, points: seq<nat>, r: Reader)
    requires MachineInv(m) && m.fwd.sink.Steady() && r.down == m.fwd.sink.down && r.entry.None?
    ensures var g := TypeAll(m, points);
            Reads(m.fwd, g.fwd, r, Reader(g.fwd.sink.down, None, r.text + Sifted(points)))
    decreases |points|
  {
    hide MachineInv, SendCodepoint, Reads, Typeable, TypeAll;
    TypeMore(m, points);
    if points == [] {
      assert r.text + [] == r.text;
      ReadsNothing(m.fwd, m.fwd, r);
    } else {
      var n := SendCodepoint(m, points[0]);
      SendCodepointKeeps(m, points[0]);
      CodepointReads(m, points[0], r);
      var s := Reader(n.fwd.sink.down, None, r.text + if Typeable(points[0]) then [points[0]] else []);
      PointsRead(n, points[1..], s);
      var g := TypeAll(n, points[1..]);
      assert r.text + Sifted(points) == s.text + Sifted(points[1..]);
      ReadsOn(m.fwd, n.fwd, g.fwd, r, s, Reader(g.fwd.sink.down, None, r.text + Sifted(points)));
    }
  }

  // ---------------------------------------------------------------- UTF-16

  /** The code points of a list of units, read by looking ahead: a pair of surrogates is one,
      and a surrogate without its partner is none. */
  function Scalars(units: seq<nat>): seq<nat>
    decreases |units|
  {
    if units == [] then []
    else if |units| > 1 && 0xD800 <= units[0] < 0xDC00 && 0xDC00 <= units[1] < 0xE000 then
      [0x10000 + (units[0] - 0xD800) * 0x400 + (units[1] - 0xDC00)] + Scalars(units[2..])
    else if 0xD800 <= units[0] < 0xE000 then Scalars(units[1..])
    else [units[0]] + Scalars(units[1..])
  }

  /** The units that a pending surrogate still belongs to. */
  function Joined(pending: nat, units: seq<nat>): seq<nat> { if IsHigh(pending) then [pending] + units else units }

  lemma ScalarsNext(pending: nat, unit: nat, rest: seq<nat>)
    ensures var u := DecodeUnit(pending, unit);
            Scalars(Joined(pending, [unit] + rest)) ==
            (if u.codepoint.Some? then [u.codepoint.value] else []) + Scalars(Joined(u.pending, rest))
  {
    var units := [unit] + rest;
    var all := Joined(pending, units);
    assert units[1..] == rest && units[0] == unit;
    if IsHigh(pending) {
      assert all[1..] == units && all[2..] == rest && all[1] == unit;
      if !IsLow(unit) {
        SkipsHigh(pending, units);
      }
    }
    if !IsHigh(unit) {
      SkipsLone(unit, rest);
    }
  }

  lemma SkipsHigh(high: nat, units: seq<nat>)
    requires IsHigh(high) && !(units != [] && IsLow(units[0]))
    ensures Scalars([high] + units) == Scalars(units)
  {
    assert ([high] + units)[1..] == units;
  }

  lemma SkipsLone(unit: nat, rest: seq<nat>)
    requires !IsHigh(unit)
    ensures Scalars([unit] + rest) == (if IsLow(unit) then [] else [unit]) + Scalars(rest)
  {
    assert ([unit] + rest)[1..] == rest;
  }

  /** Decoding unit by unit, from no or some pending surrogate, finds them all. */
  lemma {:induction false} DecodesScalars(pending: nat, units: seq<nat>)
    ensures DecodeAll(pending, units).points == Scalars(Joined(pending, units))
    decreases |units|
  {
    hide DecodeUnit;
    if units == [] {
      assert IsHigh(pending) ==> [pending][1..] == [] && [pending] + units == [pending];
    } else {
      hide Scalars, Joined;
      assert units == [units[0]] + units[1..];
      ScalarsNext(pending, units[0], units[1..]);
      DecodesScalars(DecodeUnit(pending, units[0]).pending, units[1..]);
    }
  }

  lemma {:induction false} ScalarsOfEncoded(points: seq<nat>)
    requires forall i :: 0 <= i < |points| ==> IsScalar(points[i])
    ensures Scalars(EncodeAll(points)) == points && Sifted(points) == points
  {
    DecodeEncoded(points);
    DecodesScalars(0, EncodeAll(points));
    SiftedAll(points);
  }

  lemma {:induction false} SiftedAll(points: seq<nat>)
    requires forall i :: 0 <= i < |points| ==> IsScalar(points[i])
    ensures Sifted(points) == points
  {
    if points != [] {
      SiftedAll(points[1..]);
    }
  }

  /** Whatever units a batch of text carries, with or without key-ups and wherever it was cut
      into fragments, a program that reads a steady sink reads their code points and nothing
      else. */
  lemma TextIsRead(m: Machine, fragments: seq<seq<Input>>, o: Owner, r: Reader)
    requires MachineInv(m) && m.fwd.sink.Steady() && !IsDead(m.fwd, o, Applied)
    requires AllText(fragments) && fragments != [] && r.down == m.fwd.sink.down && r.entry.None?
    ensures var g := SendFragments(m, fragments, false, o);
            && m.fwd.trace <= g.fwd.trace
            && ReadAll(r, g.fwd.trace[|m.fwd.trace|..]) ==
               Reader(g.fwd.sink.down, None, r.text + Sifted(Scalars(BatchUnits(fragments))))
  {
    var units := BatchUnits(fragments);
    var points := DecodeAll(0, units).points;
    BatchTyped(m, fragments, o);
    DecodesScalars(0, units);
    hide MachineInv, TypeAll, DecodeAll, SendFragments, Scalars, Sifted, ReadAll, IsDead, BatchUnits;
    PointsRead(m, points, r);
  }

  /** So text in UTF-16 is read back as the list of code points that was encoded. */
  lemma TextArrivesWhole(m: Machine, points: seq<nat>, fragments: seq<seq<Input>>, o: Owner, r: Reader)
    requires forall i :: 0 <= i < |points| ==> IsScalar(points[i])
    requires MachineInv(m) && m.fwd.sink.Steady() && !IsDead(m.fwd, o, Applied)
    requires AllText(fragments) && fragments != [] && BatchUnits(fragments) == EncodeAll(points)
    requires r.down == m.fwd.sink.down && r.entry.None?
    ensures var g := SendFragments(m, fragments, false, o);
            && m.fwd.trace <= g.fwd.trace
            && ReadAll(r, g.fwd.trace[|m.fwd.trace|..]) == Reader(g.fwd.sink.down, None, r.text + points)
  {
    ScalarsOfEncoded(points);
    hide MachineInv, SendFragments, Scalars, Sifted, ReadAll, IsDead, BatchUnits, EncodeAll;
    TextIsRead(m, fragments, o, r);
  }
}
