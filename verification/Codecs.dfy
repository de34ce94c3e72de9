/** The wire forms both ends agree on: synthesized inputs, hook events and hashes. */
module Codecs {
  import opened Codes
  import opened Wire

  const TYPE_KEYBOARD := 1
  const TYPE_MOUSE := 0

  predicate Fits16(v: nat) { v < 0x1_0000 }
  predicate Fits32(v: nat) { v < 0x1_0000_0000 }
  predicate Fits64(v: nat) { v < 0x1_0000_0000_0000_0000 }
  predicate FitsSigned(v: int) { -0x8000_0000 <= v < 0x8000_0000 }

  /** A 32-bit signed value as its unsigned bits, and back. */
  function Unsigned(v: int): (r: nat)
    ensures Fits32(r) && (FitsSigned(v) ==> Signed(r) == v)
  {
    v % 0x1_0000_0000
  }

  function Signed(n: nat): (r: int) { if n < 0x8000_0000 then n else n - 0x1_0000_0000 }

  lemma SignedBack(n: nat)
    requires Fits32(n)
    ensures FitsSigned(Signed(n)) && Unsigned(Signed(n)) == n
  {}

  // ---------------------------------------------------------------- inputs

  const INPUT_SIZE := 40

  datatype WireInput =
    | KeyboardInput(vk: nat, scan: nat, flags: nat, time: nat, extra: nat)
    | MouseInput(dx: int, dy: int, data: nat, flags: nat, time: nat, extra: nat)

  predicate InputOk(i: WireInput) {
    match i
    case KeyboardInput(vk, scan, flags, time, extra) =>
      Fits16(vk) && Fits16(scan) && Fits32(flags) && Fits32(time) && Fits64(extra)
    case MouseInput(dx, dy, data, flags, time, extra) =>
      FitsSigned(dx) && FitsSigned(dy) && Fits32(data) && Fits32(flags) && Fits32(time) && Fits64(extra)
  }

  function InputFields(i: WireInput): seq<seq<byte>> {
    match i
    case KeyboardInput(vk, scan, flags, time, extra) =>
      [U32(TYPE_KEYBOARD), U32(0), U16(vk), U16(scan), U32(flags), U32(time), U32(0), U64(extra), U64(0)]
    case MouseInput(dx, dy, data, flags, time, extra) =>
      [U32(TYPE_MOUSE), U32(0), U32(Unsigned(dx)), U32(Unsigned(dy)), U32(data), U32(flags), U32(time), U32(0),
        U64(extra)]
  }

  const KEYBOARD_LAYOUT: seq<nat> := [0, 4, 8, 10, 12, 16, 20, 24, 32, 40]
  const MOUSE_LAYOUT: seq<nat> := [0, 4, 8, 12, 16, 20, 24, 28, 32, 40]

  function InputLayout(i: WireInput): seq<nat> { if i.KeyboardInput? then KEYBOARD_LAYOUT else MOUSE_LAYOUT }

  function EncodeInput(i: WireInput): seq<byte> { Join(InputFields(i)) }

  lemma InputSize(i: WireInput)
    ensures LaidOut(InputFields(i), InputLayout(i)) && |EncodeInput(i)| == INPUT_SIZE
  {
    hide U16, U32, U64;
    JoinSize(InputFields(i), InputLayout(i));
  }

  function DecodeInput(s: seq<byte>): (r: Option<WireInput>)
    requires |s| == INPUT_SIZE
  {
    if ReadU32(s, 4) != 0 then None
    else if ReadU32(s, 0) == TYPE_KEYBOARD then
      if ReadU32(s, 20) != 0 || ReadU64(s, 32) != 0 then None
      else Some(KeyboardInput(ReadU16(s, 8), ReadU16(s, 10), ReadU32(s, 12), ReadU32(s, 16), ReadU64(s, 24)))
    else if ReadU32(s, 0) == TYPE_MOUSE then
      if ReadU32(s, 28) != 0 then None
      else Some(MouseInput(Signed(ReadU32(s, 8)), Signed(ReadU32(s, 12)), ReadU32(s, 16), ReadU32(s, 20),
                           ReadU32(s, 24), ReadU64(s, 32)))
    else None
  }

  /** Both ends' encoder: zeros, then each field at its offset. */
  method WriteInput(out: array<byte>, i: WireInput)
    requires out.Length == INPUT_SIZE
    modifies out
    ensures out[..] == EncodeInput(i)
  {
    Clear(out, INPUT_SIZE);
    if i.KeyboardInput? {
      WriteKeyboard(out, i);
    } else {
      WriteMouse(out, i);
    }
  }

  method WriteKeyboard(out: array<byte>, i: WireInput)
    requires out.Length == INPUT_SIZE && out[..INPUT_SIZE] == Zeros(INPUT_SIZE) && i.KeyboardInput?
    modifies out
    ensures out[..] == EncodeInput(i)
  {
    hide U16, U32, U64, Zeros, Holds, Only;
    ZeroHolds(out[..], INPUT_SIZE, 4);
    ZeroHolds(out[..], INPUT_SIZE, 20);
    ZeroHolds(out[..], INPUT_SIZE, 32);
    PutU32(out, 0, TYPE_KEYBOARD);
    PutU16(out, 8, i.vk);
    PutU16(out, 10, i.scan);
    PutU32(out, 12, i.flags);
    PutU32(out, 16, i.time);
    PutU64(out, 24, i.extra);
    InputIs(out[..], i);
  }

  method WriteMouse(out: array<byte>, i: WireInput)
    requires out.Length == INPUT_SIZE && out[..INPUT_SIZE] == Zeros(INPUT_SIZE) && i.MouseInput?
    modifies out
    ensures out[..] == EncodeInput(i)
  {
    hide U16, U32, U64, Zeros, Holds, Only;
    ZeroHolds(out[..], INPUT_SIZE, 4);
    ZeroHolds(out[..], INPUT_SIZE, 28);
    PutU32(out, 0, TYPE_MOUSE);
    PutU32(out, 8, Unsigned(i.dx));
    PutU32(out, 12, Unsigned(i.dy));
    PutU32(out, 16, i.data);
    PutU32(out, 20, i.flags);
    PutU32(out, 24, i.time);
    PutU64(out, 32, i.extra);
    InputIs(out[..], i);
  }

  /** Bytes with every field of an input at its offset are its encoding. */
  lemma InputIs(s: seq<byte>, i: WireInput)
    requires |s| == INPUT_SIZE
    requires forall k :: 0 <= k < |InputFields(i)| ==> Holds(s, InputLayout(i)[k], InputFields(i)[k])
    ensures s == EncodeInput(i)
  {
    hide U16, U32, U64, Holds;
    var f, at := InputFields(i), InputLayout(i);
    InputSize(i);
    JoinIs(s, f, at, |f|);
    assert f[..|f|] == f && s[..at[|f|]] == s;
  }

  lemma KeyboardRoundTrip(i: WireInput)
    requires InputOk(i) && i.KeyboardInput?
    ensures |EncodeInput(i)| == INPUT_SIZE && DecodeInput(EncodeInput(i)) == Some(i)
  {
    hide U16, U32, U64, ReadU16, ReadU32, ReadU64, Join, LaidOut;
    var s, f, at := EncodeInput(i), InputFields(i), KEYBOARD_LAYOUT;
    InputSize(i);
    FieldAt(f, at, 0); U32Reads(TYPE_KEYBOARD, s, 0);
    FieldAt(f, at, 1); U32Reads(0, s, 4);
    FieldAt(f, at, 2); U16Reads(i.vk, s, 8);
    FieldAt(f, at, 3); U16Reads(i.scan, s, 10);
    FieldAt(f, at, 4); U32Reads(i.flags, s, 12);
    FieldAt(f, at, 5); U32Reads(i.time, s, 16);
    FieldAt(f, at, 6); U32Reads(0, s, 20);
    FieldAt(f, at, 7); U64Reads(i.extra, s, 24);
    FieldAt(f, at, 8); U64Reads(0, s, 32);
  }

  lemma MouseRoundTrip(i: WireInput)
    requires InputOk(i) && i.MouseInput?
    ensures |EncodeInput(i)| == INPUT_SIZE && DecodeInput(EncodeInput(i)) == Some(i)
  {
    hide U16, U32, U64, ReadU16, ReadU32, ReadU64, Join, LaidOut, Unsigned;
    var s, f, at := EncodeInput(i), InputFields(i), MOUSE_LAYOUT;
    InputSize(i);
    FieldAt(f, at, 0); U32Reads(TYPE_MOUSE, s, 0);
    FieldAt(f, at, 1); U32Reads(0, s, 4);
    FieldAt(f, at, 2); U32Reads(Unsigned(i.dx), s, 8);
    FieldAt(f, at, 3); U32Reads(Unsigned(i.dy), s, 12);
    FieldAt(f, at, 4); U32Reads(i.data, s, 16);
    FieldAt(f, at, 5); U32Reads(i.flags, s, 20);
    FieldAt(f, at, 6); U32Reads(i.time, s, 24);
    FieldAt(f, at, 7); U32Reads(0, s, 28);
    FieldAt(f, at, 8); U64Reads(i.extra, s, 32);
  }

  /** The service decodes the input the client encoded. */
  lemma InputRoundTrip(i: WireInput)
    requires InputOk(i)
    ensures |EncodeInput(i)| == INPUT_SIZE && DecodeInput(EncodeInput(i)) == Some(i)
  {
    hide EncodeInput, DecodeInput;
    if i.KeyboardInput? {
      KeyboardRoundTrip(i);
    } else {
      MouseRoundTrip(i);
    }
  }

  /** It accepts nothing but such an encoding. */
  lemma InputCanonical(s: seq<byte>)
    requires |s| == INPUT_SIZE && DecodeInput(s).Some?
    ensures InputOk(DecodeInput(s).value) && EncodeInput(DecodeInput(s).value) == s
  {
    hide U16, U32, U64, ReadU16, ReadU32, ReadU64, Join;
    var i := DecodeInput(s).value;
    var f := InputFields(i);
    U32Writes(s, 0); U32Writes(s, 4); U32Writes(s, 12); U32Writes(s, 16); U32Writes(s, 20); U64Writes(s, 32);
    if i.KeyboardInput? {
      U16Writes(s, 8); U16Writes(s, 10); U64Writes(s, 24);
    } else {
      U32Writes(s, 8); U32Writes(s, 24); U32Writes(s, 28);
      SignedBack(ReadU32(s, 8));
      SignedBack(ReadU32(s, 12));
    }
    InputSize(i);
    JoinIs(s, f, InputLayout(i), |f|);
    assert f[..|f|] == f;
  }

  // ---------------------------------------------------------------- hook events

  const HOOK_KEYBOARD := 13
  const HOOK_MOUSE := 14

  datatype HookEvent =
    | KeyEventIn(message: nat, vk: nat, scan: nat, flags: nat, time: nat, extra: nat, device: nat)
    | MouseEventIn(message: nat, x: int, y: int, data: nat, flags: nat, time: nat, extra: nat, device: nat, dx: int,
      dy: int)

  predicate EventOk(e: HookEvent) {
    && Fits32(e.message) && Fits32(e.flags) && Fits64(e.time) && Fits64(e.extra) && Fits32(e.device)
    && match e
       case KeyEventIn(_, vk, scan, _, _, _, _) => Fits32(vk) && Fits32(scan)
       case MouseEventIn(_, x, y, data, _, _, _, _, dx, dy) =>
         FitsSigned(x) && FitsSigned(y) && Fits32(data) && FitsSigned(dx) && FitsSigned(dy)
  }

  function EventFields(e: HookEvent): seq<seq<byte>> {
    match e
    case KeyEventIn(message, vk, scan, flags, time, extra, device) =>
      [U32(HOOK_KEYBOARD), U32(0), U32(message), U32(vk), U32(scan), U32(flags), U64(time), U64(extra), U32(device),
        U32(0)]
    case MouseEventIn(message, x, y, data, flags, time, extra, device, dx, dy) =>
      [U32(HOOK_MOUSE), U32(0), U32(message), U32(Unsigned(x)), U32(Unsigned(y)), U32(data), U32(flags), U64(time),
       U64(extra),
       U32(device), U32(0), U32(Unsigned(dx)), U32(Unsigned(dy))]
  }

  const KEY_EVENT_LAYOUT: seq<nat> := [0, 4, 8, 12, 16, 20, 24, 32, 40, 44, 48]
  const MOUSE_EVENT_LAYOUT: seq<nat> := [0, 4, 8, 12, 16, 20, 24, 28, 36, 44, 48, 52, 56, 60]

  function EventLayout(e: HookEvent): seq<nat> { if e.KeyEventIn? then KEY_EVENT_LAYOUT else MOUSE_EVENT_LAYOUT }

  function EncodeEvent(e: HookEvent): seq<byte> { Join(EventFields(e)) }

  function DecodeEvent(s: seq<byte>): Option<HookEvent> {
    if |s| < 8 || ReadU32(s, 4) != 0 then None
    else if ReadU32(s, 0) == HOOK_KEYBOARD && |s| == 48 then
      if ReadU32(s, 44) != 0 then None
      else Some(KeyEventIn(ReadU32(s, 8), ReadU32(s, 12), ReadU32(s, 16), ReadU32(s, 20), ReadU64(s, 24),
                           ReadU64(s, 32), ReadU32(s, 40)))
    else if ReadU32(s, 0) == HOOK_MOUSE && |s| == 60 then
      if ReadU32(s, 48) != 0 then None
      else Some(MouseEventIn(ReadU32(s, 8), Signed(ReadU32(s, 12)), Signed(ReadU32(s, 16)), ReadU32(s, 20),
                             ReadU32(s, 24), ReadU64(s, 28), ReadU64(s, 36), ReadU32(s, 44),
                             Signed(ReadU32(s, 52)), Signed(ReadU32(s, 56))))
    else None
  }

  lemma EventSize(e: HookEvent)
    ensures LaidOut(EventFields(e), EventLayout(e)) && |EncodeEvent(e)| == if e.KeyEventIn? then 48 else 60
  {
    hide U16, U32, U64;
    JoinSize(EventFields(e), EventLayout(e));
  }

  lemma KeyEventRoundTrip(e: HookEvent)
    requires EventOk(e) && e.KeyEventIn?
    ensures DecodeEvent(EncodeEvent(e)) == Some(e)
  {
    hide U16, U32, U64, ReadU16, ReadU32, ReadU64, Join, LaidOut;
    var s, f, at := EncodeEvent(e), EventFields(e), KEY_EVENT_LAYOUT;
    EventSize(e);
    FieldAt(f, at, 0); U32Reads(HOOK_KEYBOARD, s, 0);
    FieldAt(f, at, 1); U32Reads(0, s, 4);
    FieldAt(f, at, 2); U32Reads(e.message, s, 8);
    FieldAt(f, at, 3); U32Reads(e.vk, s, 12);
    FieldAt(f, at, 4); U32Reads(e.scan, s, 16);
    FieldAt(f, at, 5); U32Reads(e.flags, s, 20);
    FieldAt(f, at, 6); U64Reads(e.time, s, 24);
    FieldAt(f, at, 7); U64Reads(e.extra, s, 32);
    FieldAt(f, at, 8); U32Reads(e.device, s, 40);
    FieldAt(f, at, 9); U32Reads(0, s, 44);
  }

  lemma MouseEventRoundTrip(e: HookEvent)
    requires EventOk(e) && e.MouseEventIn?
    ensures DecodeEvent(EncodeEvent(e)) == Some(e)
  {
    hide U16, U32, U64, ReadU16, ReadU32, ReadU64, Join, LaidOut, Unsigned;
    var s, f, at := EncodeEvent(e), EventFields(e), MOUSE_EVENT_LAYOUT;
    EventSize(e);
    FieldAt(f, at, 0); U32Reads(HOOK_MOUSE, s, 0);
    FieldAt(f, at, 1); U32Reads(0, s, 4);
    FieldAt(f, at, 2); U32Reads(e.message, s, 8);
    FieldAt(f, at, 3); U32Reads(Unsigned(e.x), s, 12);
    FieldAt(f, at, 4); U32Reads(Unsigned(e.y), s, 16);
    FieldAt(f, at, 5); U32Reads(e.data, s, 20);
    FieldAt(f, at, 6); U32Reads(e.flags, s, 24);
    FieldAt(f, at, 7); U64Reads(e.time, s, 28);
    FieldAt(f, at, 8); U64Reads(e.extra, s, 36);
    FieldAt(f, at, 9); U32Reads(e.device, s, 44);
    FieldAt(f, at, 10); U32Reads(0, s, 48);
    FieldAt(f, at, 11); U32Reads(Unsigned(e.dx), s, 52);
    FieldAt(f, at, 12); U32Reads(Unsigned(e.dy), s, 56);
  }

  /** The client decodes the hook event the service encoded. */
  lemma EventRoundTrip(e: HookEvent)
    requires EventOk(e)
    ensures DecodeEvent(EncodeEvent(e)) == Some(e)
  {
    hide EncodeEvent, DecodeEvent;
    if e.KeyEventIn? {
      KeyEventRoundTrip(e);
    } else {
      MouseEventRoundTrip(e);
    }
  }

  // ---------------------------------------------------------------- hashes

  const DIGITS := "0123456789abcdef"

  function DigitValue(c: char): int { if c <= '9' then c as int - '0' as int else c as int - 'a' as int + 10 }

  predicate IsDigit(c: char) { '0' <= c <= '9' || 'a' <= c <= 'f' }

  method DecodeHash(raw: seq<byte>) returns (hex: string)
    ensures |hex| == 2 * |raw|
    ensures forall i :: 0 <= i < |raw| ==> hex[2 * i] == DIGITS[raw[i] / 16] && hex[2 * i + 1] == DIGITS[raw[i] % 16]
  {
    hex := "";
    var i := 0;
    while i < |raw|
      invariant i <= |raw| && |hex| == 2 * i
      invariant forall j :: 0 <= j < i ==> hex[2 * j] == DIGITS[raw[j] / 16] && hex[2 * j + 1] == DIGITS[raw[j] % 16]
    {
      hex := hex + [DIGITS[raw[i] / 16], DIGITS[raw[i] % 16]];
      i := i + 1;
    }
  }

  method EncodeHash(hex: string) returns (raw: seq<byte>)
    requires |hex| % 2 == 0 && forall i :: 0 <= i < |hex| ==> IsDigit(hex[i])
    ensures |raw| == |hex| / 2
    ensures forall i :: 0 <= i < |raw| ==> raw[i] as int == 16 * DigitValue(hex[2 * i]) + DigitValue(hex[2 * i + 1])
  {
    raw := [];
    var i := 0;
    while i < |hex| / 2
      invariant i <= |hex| / 2 && |raw| == i
      invariant forall j :: 0 <= j < i ==> raw[j] as int == 16 * DigitValue(hex[2 * j]) + DigitValue(hex[2 * j + 1])
    {
      assert IsDigit(hex[2 * i]) && IsDigit(hex[2 * i + 1]);
      raw := raw + [16 * DigitValue(hex[2 * i]) + DigitValue(hex[2 * i + 1])];
      i := i + 1;
    }
  }

  lemma DigitBack(n: nat)
    requires n < 16
    ensures IsDigit(DIGITS[n]) && DigitValue(DIGITS[n]) == n
  {}

  lemma ValueBack(c: char)
    requires IsDigit(c)
    ensures 0 <= DigitValue(c) < 16 && DIGITS[DigitValue(c)] == c
  {}

  /** Writing a hash out and reading it back changes nothing. */
  method HashRoundTrip(raw: seq<byte>) returns (back: seq<byte>)
    ensures back == raw
  {
    var hex := DecodeHash(raw);
    forall i | 0 <= i < |hex|
      ensures IsDigit(hex[i])
    {
      DigitBack(raw[i / 2] / 16);
      DigitBack(raw[i / 2] % 16);
      assert hex[2 * (i / 2)] == DIGITS[raw[i / 2] / 16];
    }
    back := EncodeHash(hex);
    forall i | 0 <= i < |raw|
      ensures back[i] == raw[i]
    {
      DigitBack(raw[i] / 16);
      DigitBack(raw[i] % 16);
    }
  }

  method HexRoundTrip(hex: string) returns (back: string)
    requires |hex| % 2 == 0 && forall i :: 0 <= i < |hex| ==> IsDigit(hex[i])
    ensures back == hex
  {
    var raw := EncodeHash(hex);
    back := DecodeHash(raw);
    forall i | 0 <= i < |hex|
      ensures back[i] == hex[i]
    {
      var j := i / 2;
      ValueBack(hex[2 * j]);
      ValueBack(hex[2 * j + 1]);
      assert raw[j] as int == 16 * DigitValue(hex[2 * j]) + DigitValue(hex[2 * j + 1]);
      assert raw[j] as int / 16 == DigitValue(hex[2 * j]) && raw[j] as int % 16 == DigitValue(hex[2 * j + 1]);
    }
  }
}
