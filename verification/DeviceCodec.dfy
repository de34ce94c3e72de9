/** Device descriptions and gamepad readings on the wire. */
module DeviceCodec {
  import opened Codes
  import opened Wire
  import opened Codecs

  const AXES := 64
  const BUTTONS := 128
  const BITMAP := 16

  // ---------------------------------------------------------------- gamepad axes

  datatype Axis = Axis(code: nat, value: int)

  predicate AxisOk(a: Axis) { a.code < AXES && FitsSigned(a.value) }

  /** Axes in strictly ascending code order, all after the code last. */
  predicate AxesOk(axes: seq<Axis>, last: int)
    decreases |axes|
  {
    axes == [] || (AxisOk(axes[0]) && last < axes[0].code && AxesOk(axes[1..], axes[0].code))
  }

  function EncodeAxis(a: Axis): (r: seq<byte>)
    ensures |r| == 8
  {
    U32(a.code) + U32(Unsigned(a.value))
  }

  function ReadAxis(s: seq<byte>): Axis
    requires |s| >= 8
  {
    Axis(ReadU32(s, 0), Signed(ReadU32(s, 4)))
  }

  function EncodeAxes(axes: seq<Axis>): (r: seq<byte>)
    ensures |r| == 8 * |axes|
  {
    if axes == [] then [] else EncodeAxis(axes[0]) + EncodeAxes(axes[1..])
  }

  function DecodeAxes(s: seq<byte>, n: nat, last: int): Option<seq<Axis>>
    requires |s| >= 8 * n
    decreases n
  {
    if n == 0 then Some([])
    else
      var a := ReadAxis(s);
      if a.code >= AXES || a.code <= last then None
      else
        match DecodeAxes(s[8..], n - 1, a.code)
        case None => None
        case Some(rest) => Some([a] + rest)
  }

  lemma AxisReads(a: Axis, s: seq<byte>)
    requires AxisOk(a) && |s| >= 8 && s[..8] == EncodeAxis(a)
    ensures ReadAxis(s) == a
  {
    var w := s[..8];
    assert w[0..4] == U32(a.code) && w[4..8] == U32(Unsigned(a.value)) by { hide U32; }
    hide U32, EncodeAxis;
    assert s[0..4] == w[0..4] && s[4..8] == w[4..8];
    U32Reads(a.code, s, 0);
    U32Reads(Unsigned(a.value), s, 4);
  }

  lemma {:induction false} AxesRoundTrip(axes: seq<Axis>, last: int, rest: seq<byte>)
    requires AxesOk(axes, last)
    ensures DecodeAxes(EncodeAxes(axes) + rest, |axes|, last) == Some(axes)
    decreases |axes|
  {
    hide EncodeAxis, ReadAxis;
    if axes != [] {
      var s, tail := EncodeAxes(axes) + rest, EncodeAxes(axes[1..]) + rest;
      assert s[8..] == tail && s[..8] == EncodeAxis(axes[0]);
      AxisReads(axes[0], s);
      AxesRoundTrip(axes[1..], axes[0].code, rest);
      assert axes == [axes[0]] + axes[1..];
    }
  }

  // ---------------------------------------------------------------- gamepad readings

  datatype Gamepad = Gamepad(device: nat, generation: nat, buttonCount: nat, buttons: seq<byte>, axes: seq<Axis>)

  function Pow2(k: nat): (r: nat)
    ensures r > 0
  {
    if k == 0 then 1 else 2 * Pow2(k - 1)
  }

  predicate Pressed(buttons: seq<byte>, bit: nat)
    requires bit < 8 * |buttons|
  {
    buttons[bit / 8] as int / Pow2(bit % 8) % 2 == 1
  }

  /** No button beyond the ones the device has is reported as pressed. */
  predicate ButtonsWithin(buttons: seq<byte>, count: nat) {
    |buttons| == BITMAP && forall bit :: count <= bit < BUTTONS ==> !Pressed(buttons, bit)
  }

  predicate GamepadOk(g: Gamepad) {
    && 0 < g.device && Fits32(g.device) && Fits64(g.generation) && g.buttonCount <= BUTTONS
    && ButtonsWithin(g.buttons, g.buttonCount) && |g.axes| <= AXES && AxesOk(g.axes, -1)
  }

  /** As many axes as the wire form takes. */
  function Clip(axes: seq<Axis>): (r: seq<Axis>)
    ensures |r| <= AXES
  {
    if |axes| < AXES then axes else axes[..AXES]
  }

  function EncodeGamepad(g: Gamepad): seq<byte>
    requires |g.buttons| == BITMAP
  {
    Join(GamepadFields(g))
  }

  function GamepadFields(g: Gamepad): seq<seq<byte>> {
    [U32(g.device), U32(g.buttonCount), U64(g.generation), U32(|Clip(g.axes)|), U32(0), g.buttons,
      EncodeAxes(Clip(g.axes))]
  }

  function GamepadLayout(g: Gamepad): seq<nat> { [0, 4, 8, 16, 20, 24, 40, 40 + 8 * |Clip(g.axes)|] }

  lemma GamepadSize(g: Gamepad)
    requires |g.buttons| == BITMAP
    ensures LaidOut(GamepadFields(g), GamepadLayout(g)) && |EncodeGamepad(g)| == 40 + 8 * |Clip(g.axes)|
  {
    hide U32, U64, EncodeAxes, Clip;
    JoinSize(GamepadFields(g), GamepadLayout(g));
  }

  /** The service's encoder: a zeroed prefix with its fields at their offsets, then one
      entry per axis. */
  method WriteGamepad(out: array<byte>, g: Gamepad) returns (n: nat)
    requires out.Length >= 40 + 8 * AXES && |g.buttons| == BITMAP
    modifies out
    ensures n == 40 + 8 * |Clip(g.axes)| && out[..n] == EncodeGamepad(g)
  {
    hide U16, U32, U64, Zeros, Holds, Only, EncodeAxes;
    var axes := Clip(g.axes);
    Clear(out, 40);
    ZeroHolds(out[..], 40, 20);
    PutU32(out, 0, g.device);
    PutU32(out, 4, g.buttonCount);
    PutU64(out, 8, g.generation);
    PutU32(out, 16, |axes|);
    PutBytes(out, 24, g.buttons);
    WriteAxes(out, axes);
    n := 40 + 8 * |axes|;
    GamepadIs(out[..], g);
  }

  method WriteAxes(out: array<byte>, axes: seq<Axis>)
    requires out.Length >= 40 + 8 * |axes|
    modifies out
    ensures Wrote(old(out[..]), out[..], 40, EncodeAxes(axes))
  {
    hide U32, Holds, EncodeAxes;
    ghost var was := out[..];
    assert Holds(out[..], 40, EncodeAxes(axes[..0])) by { NothingHeld(out[..], 40, axes); }
    var i := 0;
    while i < |axes|
      invariant i <= |axes| && Holds(out[..], 40, EncodeAxes(axes[..i])) && Only(was, out[..], 40, 8 * i)
    {
      PutU32(out, 40 + 8 * i, axes[i].code);
      PutU32(out, 44 + 8 * i, Unsigned(axes[i].value));
      AxisAppended(out[..], axes, i);
      i := i + 1;
    }
    assert axes[..i] == axes;
    OnlyThere(was, out[..], 40, EncodeAxes(axes));
  }

  lemma NothingHeld(s: seq<byte>, at: nat, axes: seq<Axis>)
    requires at <= |s|
    ensures Holds(s, at, EncodeAxes(axes[..0]))
  {}

  lemma {:induction false} EncodeAxesAppend(axes: seq<Axis>, a: Axis)
    ensures EncodeAxes(axes + [a]) == EncodeAxes(axes) + EncodeAxis(a)
    decreases |axes|
  {
    hide EncodeAxis;
    if axes != [] {
      assert (axes + [a])[1..] == axes[1..] + [a];
      EncodeAxesAppend(axes[1..], a);
    } else {
      assert (axes + [a])[1..] == [];
    }
  }

  lemma AxisAppended(s: seq<byte>, axes: seq<Axis>, i: nat)
    requires i < |axes| && Holds(s, 40, EncodeAxes(axes[..i]))
    requires Holds(s, 40 + 8 * i, U32(axes[i].code)) && Holds(s, 44 + 8 * i, U32(Unsigned(axes[i].value)))
    ensures Holds(s, 40, EncodeAxes(axes[..i + 1]))
  {
    hide U32, Holds, EncodeAxes;
    HoldsJoin(s, 40 + 8 * i, U32(axes[i].code), U32(Unsigned(axes[i].value)));
    HoldsJoin(s, 40, EncodeAxes(axes[..i]), EncodeAxis(axes[i]));
    EncodeAxesAppend(axes[..i], axes[i]);
    assert axes[..i + 1] == axes[..i] + [axes[i]];
  }

  lemma GamepadIs(s: seq<byte>, g: Gamepad)
    requires |g.buttons| == BITMAP && |s| >= 40 + 8 * |Clip(g.axes)|
    requires forall k :: 0 <= k < |GamepadFields(g)| ==> Holds(s, GamepadLayout(g)[k], GamepadFields(g)[k])
    ensures s[..40 + 8 * |Clip(g.axes)|] == EncodeGamepad(g)
  {
    hide U32, U64, Holds, EncodeAxes, Clip;
    var f, at := GamepadFields(g), GamepadLayout(g);
    GamepadSize(g);
    JoinIs(s, f, at, |f|);
    assert f[..|f|] == f;
  }

  function DecodeGamepad(s: seq<byte>): Option<Gamepad> {
    if |s| < 40 || ReadU32(s, 0) == 0 || ReadU32(s, 20) != 0 then None
    else
      var count, n := ReadU32(s, 4), ReadU32(s, 16);
      if count > BUTTONS || n > AXES || |s| != 40 + 8 * n then None
      else
        match DecodeAxes(s[40..], n, -1)
        case None => None
        case Some(axes) =>
          if ButtonsWithin(s[24..40], count) then Some(Gamepad(ReadU32(s, 0), ReadU64(s, 8), count, s[24..40], axes))
            else None
  }

  /** The client reads the gamepad state the service wrote. */
  lemma GamepadRoundTrip(g: Gamepad)
    requires GamepadOk(g)
    ensures DecodeGamepad(EncodeGamepad(g)) == Some(g)
  {
    hide U32, U64, ReadU32, ReadU64, Join, LaidOut, EncodeAxes, ButtonsWithin, AxesOk, DecodeAxes;
    assert |g.buttons| == BITMAP by { GamepadBitmap(g); }
    var s, f, at := EncodeGamepad(g), GamepadFields(g), GamepadLayout(g);
    GamepadSize(g);
    assert Clip(g.axes) == g.axes;
    FieldAt(f, at, 0); U32Reads(g.device, s, 0);
    FieldAt(f, at, 1); U32Reads(g.buttonCount, s, 4);
    FieldAt(f, at, 2); U64Reads(g.generation, s, 8);
    FieldAt(f, at, 3); U32Reads(|g.axes|, s, 16);
    FieldAt(f, at, 4); U32Reads(0, s, 20);
    FieldAt(f, at, 5);
    FieldAt(f, at, 6);
    AxesRoundTrip(g.axes, -1, []);
    assert EncodeAxes(g.axes) + [] == EncodeAxes(g.axes);
    assert s[40..] == s[40..40 + 8 * |g.axes|];
  }

  lemma GamepadBitmap(g: Gamepad)
    requires GamepadOk(g)
    ensures |g.buttons| == BITMAP
  {}

  // ---------------------------------------------------------------- button codes

  /** Reading the codes on from prev: each is larger than the one before, save that once, if
      it has not yet happened, the list may start over below its first code. */
  predicate ButtonsOk(codes: seq<nat>, prev: nat, first: nat, descended: bool)
    decreases |codes|
  {
    codes == [] ||
    var c := codes[0];
    && 0 < c && Fits16(c)
    && (c <= prev ==> !descended && c < first)
    && ButtonsOk(codes[1..], c, if first == 0 then c else first, descended || c <= prev)
  }

  /** A button list as a device reports it. */
  predicate ButtonListOk(codes: seq<nat>) {
    |codes| <= BUTTONS && ButtonsOk(codes, 0, 0, false)
  }

  const BTN_MISC := 0x100

  /** The codes of a key bitmap from lo up to hi that still fit, after those in codes. */
  function Collect(bits: set<nat>, lo: nat, hi: nat, codes: seq<nat>): seq<nat>
    decreases hi - lo
  {
    if lo >= hi then codes
    else Collect(bits, lo + 1, hi, if lo in bits && |codes| < BUTTONS then codes + [lo] else codes)
  }

  function CollectButtons(bits: set<nat>): seq<nat> {
    Collect(bits, BTN_MISC, BTN_JOYSTICK, Collect(bits, BTN_JOYSTICK, KEY_MAX + 1, []))
  }

  predicate Between(codes: seq<nat>, lo: nat, hi: nat) {
    && (forall i :: 0 <= i < |codes| ==> lo <= codes[i] < hi)
    && (forall i, j :: 0 <= i < j < |codes| ==> codes[i] < codes[j])
  }

  /** Collecting appends codes in ascending order. */
  lemma {:induction false} CollectAppends(bits: set<nat>, lo: nat, hi: nat, before: seq<nat>, codes: seq<nat>,
                                          from: nat)
    requires from <= lo && Between(codes, from, lo) && |before + codes| <= BUTTONS
    ensures exists more ::
              && Between(more, from, if lo <= hi then hi else lo) && codes <= more
              && Collect(bits, lo, hi, before + codes) == before + more && |before + more| <= BUTTONS
    decreases hi - lo
  {
    if lo < hi {
      var next := if lo in bits && |before + codes| < BUTTONS then codes + [lo] else codes;
      assert before + codes + [lo] == before + (codes + [lo]);
      CollectAppends(bits, lo + 1, hi, before, next, from);
    }
  }

  lemma {:induction false} AscendingOk(codes: seq<nat>, rest: seq<nat>, prev: nat, first: nat, descended: bool, lo: nat)
    requires Between(codes, lo, 0x1_0000) && 0 < lo && prev < lo
    requires codes != [] ==> ButtonsOk(rest, codes[|codes| - 1], if first == 0 then codes[0] else first, descended)
    requires codes == [] ==> ButtonsOk(rest, prev, first, descended)
    ensures ButtonsOk(codes + rest, prev, first, descended)
    decreases |codes|
  {
    if codes == [] {
      assert codes + rest == rest;
    } else {
      var c, t, f := codes[0], codes[1..], if first == 0 then codes[0] else first;
      TailBetween(codes, lo);
      assert prev < c < 0x1_0000 && (t != [] ==> t[|t| - 1] == codes[|codes| - 1]);
      hide Between;
      AscendingOk(t, rest, c, f, descended, c + 1);
      assert (codes + rest)[0] == c && (codes + rest)[1..] == t + rest;
    }
  }

  lemma TailBetween(codes: seq<nat>, lo: nat)
    requires Between(codes, lo, 0x1_0000) && codes != []
    ensures Between(codes[1..], codes[0] + 1, 0x1_0000)
  {
    assert forall i :: 0 <= i < |codes[1..]| ==> codes[1..][i] == codes[i + 1];
  }

  lemma DescendingOk(low: seq<nat>, prev: nat, first: nat)
    requires Between(low, BTN_MISC, BTN_JOYSTICK) && low != [] && low[0] <= prev && BTN_JOYSTICK <= first
    ensures ButtonsOk(low, prev, first, false)
  {
    assert low[1..] + [] == low[1..];
    AscendingOk(low[1..], [], low[0], first, true, low[0] + 1);
  }

  lemma CollectedParts(bits: set<nat>) returns (high: seq<nat>, low: seq<nat>)
    ensures CollectButtons(bits) == high + low && |high + low| <= BUTTONS
    ensures Between(high, BTN_JOYSTICK, KEY_MAX + 1) && Between(low, BTN_MISC, BTN_JOYSTICK)
  {
    var none: seq<nat> := [];
    assert none + none == none;
    CollectAppends(bits, BTN_JOYSTICK, KEY_MAX + 1, none, none, BTN_JOYSTICK);
    high :| Between(high, BTN_JOYSTICK, KEY_MAX + 1) && Collect(bits, BTN_JOYSTICK, KEY_MAX + 1, none) == none + high
      && |none + high| <= BUTTONS;
    assert none + high == high && high + none == high;
    hide Between, Collect;
    assert Between(none, BTN_MISC, BTN_MISC) by { NoneBetween(BTN_MISC); }
    CollectAppends(bits, BTN_MISC, BTN_JOYSTICK, high, none, BTN_MISC);
    low :| Between(low, BTN_MISC, BTN_JOYSTICK) && Collect(bits, BTN_MISC, BTN_JOYSTICK, high + none) == high + low
      && |high + low| <= BUTTONS;
  }

  lemma NoneBetween(lo: nat)
    ensures Between([], lo, lo)
  {}

  lemma JoinedOk(high: seq<nat>, low: seq<nat>)
    requires Between(high, BTN_JOYSTICK, KEY_MAX + 1) && Between(low, BTN_MISC, BTN_JOYSTICK)
    ensures ButtonsOk(high + low, 0, 0, false)
  {
    if high == [] {
      assert high + low == low + [];
      AscendingOk(low, [], 0, 0, false, BTN_MISC);
    } else {
      if low != [] {
        DescendingOk(low, high[|high| - 1], high[0]);
      }
      hide ButtonsOk;
      AscendingOk(high, low, 0, 0, false, BTN_JOYSTICK);
    }
  }

  predicate IsButton(code: nat) { BTN_MISC <= code <= KEY_MAX }

  /** The order in which joydev numbers buttons. */
  predicate Precedes(a: nat, b: nat) {
    if a >= BTN_JOYSTICK then b < BTN_JOYSTICK || a < b else b < BTN_JOYSTICK && a < b
  }

  /** The list holds buttons of the bitmap only, and leaves one out only when it is full of
      buttons that come before it. */
  ghost predicate Reports(codes: seq<nat>, bits: set<nat>) {
    && (forall c :: c in codes ==> c in bits && IsButton(c))
    && (forall c :: c in bits && IsButton(c) && c !in codes ==>
          |codes| == BUTTONS && forall x :: x in codes ==> Precedes(x, c))
  }

  lemma {:induction false} CollectHolds(bits: set<nat>, lo: nat, hi: nat, codes: seq<nat>)
    requires |codes| <= BUTTONS
    ensures var r := Collect(bits, lo, hi, codes);
            && codes <= r && |r| <= BUTTONS
            && (forall c :: c in r ==> c in codes || (c in bits && lo <= c < hi))
            && (forall c :: c in bits && lo <= c < hi && c !in r ==>
                  |r| == BUTTONS && forall x :: x in r ==> x in codes || x < c)
    decreases hi - lo
  {
    if lo < hi {
      var next := if lo in bits && |codes| < BUTTONS then codes + [lo] else codes;
      CollectHolds(bits, lo + 1, hi, next);
      var r := Collect(bits, lo + 1, hi, next);
      assert |codes| == BUTTONS ==> r == codes;
      assert lo in next ==> lo in r;
    }
  }

  lemma CollectedAll(bits: set<nat>)
    ensures Reports(CollectButtons(bits), bits)
  {
    hide Collect;
    CollectHolds(bits, BTN_JOYSTICK, KEY_MAX + 1, []);
    CollectHolds(bits, BTN_MISC, BTN_JOYSTICK, Collect(bits, BTN_JOYSTICK, KEY_MAX + 1, []));
  }

  /** The button list built from any key bitmap holds its buttons in joydev's order and
      passes the decoder's order check. */
  lemma CollectedButtonsOk(bits: set<nat>)
    ensures ButtonListOk(CollectButtons(bits)) && Reports(CollectButtons(bits), bits)
  {
    hide CollectButtons, Between;
    var high, low := CollectedParts(bits);
    JoinedOk(high, low);
    CollectedAll(bits);
  }

  /** The loops that build the list. */
  method CollectGamepadButtons(bits: set<nat>) returns (codes: seq<nat>)
    ensures codes == CollectButtons(bits) && ButtonListOk(codes) && Reports(codes, bits)
  {
    CollectedButtonsOk(bits);
    codes := [];
    var code := BTN_JOYSTICK;
    while code <= KEY_MAX
      invariant code <= KEY_MAX + 1
                && Collect(bits, code, KEY_MAX + 1, codes) == Collect(bits, BTN_JOYSTICK, KEY_MAX + 1, [])
    {
      if code in bits && |codes| < BUTTONS {
        codes := codes + [code];
      }
      code := code + 1;
    }
    ghost var high := codes;
    code := BTN_MISC;
    while code < BTN_JOYSTICK
      invariant code <= BTN_JOYSTICK
                && Collect(bits, code, BTN_JOYSTICK, codes) == Collect(bits, BTN_MISC, BTN_JOYSTICK, high)
    {
      if code in bits && |codes| < BUTTONS {
        codes := codes + [code];
      }
      code := code + 1;
    }
  }

  function EncodeButtons(codes: seq<nat>): (r: seq<byte>)
    ensures |r| == 2 * |codes|
  {
    if codes == [] then [] else U16(codes[0]) + EncodeButtons(codes[1..])
  }

  function DecodeButtons(s: seq<byte>, n: nat, prev: nat, first: nat, descended: bool): Option<seq<nat>>
    requires |s| >= 2 * n
    decreases n
  {
    if n == 0 then Some([])
    else
      var c := ReadU16(s, 0);
      if c == 0 || (c <= prev && (descended || c >= first)) then None
      else
        match DecodeButtons(s[2..], n - 1, c, if first == 0 then c else first, descended || c <= prev)
        case None => None
        case Some(rest) => Some([c] + rest)
  }

  lemma {:induction false} ButtonsRoundTrip(codes: seq<nat>, prev: nat, first: nat, descended: bool, rest: seq<byte>)
    requires ButtonsOk(codes, prev, first, descended)
    ensures DecodeButtons(EncodeButtons(codes) + rest, |codes|, prev, first, descended) == Some(codes)
    decreases |codes|
  {
    if codes != [] {
      var c := codes[0];
      var s, tail := EncodeButtons(codes) + rest, EncodeButtons(codes[1..]) + rest;
      assert s[2..] == tail && s[0..2] == U16(c) by { hide U16; }
      hide U16;
      U16Reads(c, s, 0);
      ButtonsRoundTrip(codes[1..], c, if first == 0 then c else first, descended || c <= prev, rest);
      assert codes == [c] + codes[1..];
    }
  }

  // ---------------------------------------------------------------- axis descriptions

  datatype AxisInfo = AxisInfo(code: nat, minimum: int, maximum: int, fuzz: int, flat: int, resolution: int)

  predicate InfoOk(a: AxisInfo) {
    a.code < AXES && FitsSigned(a.minimum) && FitsSigned(a.maximum) && FitsSigned(a.fuzz) && FitsSigned(a.flat)
      && FitsSigned(a.resolution)
  }

  predicate InfosOk(axes: seq<AxisInfo>, last: int)
    decreases |axes|
  {
    axes == [] || (InfoOk(axes[0]) && last < axes[0].code && InfosOk(axes[1..], axes[0].code))
  }

  function InfoFields(a: AxisInfo): seq<seq<byte>> {
    [U32(a.code), U32(Unsigned(a.minimum)), U32(Unsigned(a.maximum)), U32(Unsigned(a.fuzz)), U32(Unsigned(a.flat)),
      U32(Unsigned(a.resolution))]
  }

  const INFO_LAYOUT: seq<nat> := [0, 4, 8, 12, 16, 20, 24]

  function EncodeInfo(a: AxisInfo): (r: seq<byte>)
    ensures |r| == 24
  {
    InfoSize(a);
    Join(InfoFields(a))
  }

  lemma InfoSize(a: AxisInfo)
    ensures LaidOut(InfoFields(a), INFO_LAYOUT) && |Join(InfoFields(a))| == 24
  {
    hide U32;
    JoinSize(InfoFields(a), INFO_LAYOUT);
  }

  function ReadInfo(s: seq<byte>): AxisInfo
    requires |s| >= 24
  {
    AxisInfo(ReadU32(s, 0), Signed(ReadU32(s, 4)), Signed(ReadU32(s, 8)), Signed(ReadU32(s, 12)),
      Signed(ReadU32(s, 16)), Signed(ReadU32(s, 20)))
  }

  function EncodeInfos(axes: seq<AxisInfo>): (r: seq<byte>)
    ensures |r| == 24 * |axes|
  {
    if axes == [] then [] else EncodeInfo(axes[0]) + EncodeInfos(axes[1..])
  }

  function DecodeInfos(s: seq<byte>, n: nat, last: int): Option<seq<AxisInfo>>
    requires |s| >= 24 * n
    decreases n
  {
    if n == 0 then Some([])
    else
      var a := ReadInfo(s);
      if a.code >= AXES || a.code <= last then None
      else
        match DecodeInfos(s[24..], n - 1, a.code)
        case None => None
        case Some(rest) => Some([a] + rest)
  }

  lemma U32At(s: seq<byte>, w: seq<byte>, at: nat, v: nat)
    requires Fits32(v) && at + 4 <= |w| <= |s| && s[..|w|] == w && w[at..at + 4] == U32(v)
    ensures ReadU32(s, at) == v
  {
    assert s[at..at + 4] == w[at..at + 4];
    hide U32;
    U32Reads(v, s, at);
  }

  lemma InfoReads(a: AxisInfo, s: seq<byte>)
    requires InfoOk(a) && |s| >= 24 && s[..24] == EncodeInfo(a)
    ensures ReadInfo(s) == a
  {
    hide U32, ReadU32, Join, LaidOut, Unsigned;
    var w, f, at := EncodeInfo(a), InfoFields(a), INFO_LAYOUT;
    InfoSize(a);
    FieldAt(f, at, 0); U32At(s, w, 0, a.code);
    FieldAt(f, at, 1); U32At(s, w, 4, Unsigned(a.minimum));
    FieldAt(f, at, 2); U32At(s, w, 8, Unsigned(a.maximum));
    FieldAt(f, at, 3); U32At(s, w, 12, Unsigned(a.fuzz));
    FieldAt(f, at, 4); U32At(s, w, 16, Unsigned(a.flat));
    FieldAt(f, at, 5); U32At(s, w, 20, Unsigned(a.resolution));
  }

  lemma {:induction false} InfosRoundTrip(axes: seq<AxisInfo>, last: int, rest: seq<byte>)
    requires InfosOk(axes, last)
    ensures DecodeInfos(EncodeInfos(axes) + rest, |axes|, last) == Some(axes)
    decreases |axes|
  {
    hide EncodeInfo, ReadInfo;
    if axes != [] {
      var s, tail := EncodeInfos(axes) + rest, EncodeInfos(axes[1..]) + rest;
      assert s[24..] == tail && s[..24] == EncodeInfo(axes[0]);
      InfoReads(axes[0], s);
      InfosRoundTrip(axes[1..], axes[0].code, rest);
      assert axes == [axes[0]] + axes[1..];
    }
  }

  // ---------------------------------------------------------------- device descriptions

  datatype Device = Device(id: nat, capabilities: nat, bus: nat, vendor: nat, product: nat, version: nat,
                           name: seq<byte>, path: seq<byte>, physical: seq<byte>, unique: seq<byte>,
                           axes: seq<AxisInfo>, buttons: seq<nat>)

  /** A fixed buffer that holds a terminated string. */
  predicate TextOk(t: seq<byte>, capacity: nat) { |t| == capacity && 0 in t }

  predicate DeviceOk(d: Device) {
    && 0 < d.id && Fits32(d.id) && Fits32(d.capabilities) && Fits16(d.bus) && Fits16(d.vendor) && Fits16(d.product)
    && Fits16(d.version)
    && TextOk(d.name, 256) && TextOk(d.path, 512) && TextOk(d.physical, 256) && TextOk(d.unique, 128)
    && |d.axes| <= AXES && InfosOk(d.axes, -1) && ButtonListOk(d.buttons)
  }

  predicate Sized(d: Device) {
    && |d.name| == 256 && |d.path| == 512 && |d.physical| == 256 && |d.unique| == 128
    && |d.axes| <= AXES && |d.buttons| <= BUTTONS
  }

  function EncodeAxisTable(axes: seq<AxisInfo>): (r: seq<byte>)
    requires |axes| <= AXES
    ensures |r| == 8 + 24 * AXES
  {
    U32(|axes|) + U32(0) + EncodeInfos(axes) + Zeros(24 * (AXES - |axes|))
  }

  function EncodeButtonTable(codes: seq<nat>): (r: seq<byte>)
    requires |codes| <= BUTTONS
    ensures |r| == 8 + 2 * BUTTONS
  {
    U32(|codes|) + U32(0) + EncodeButtons(codes) + Zeros(2 * (BUTTONS - |codes|))
  }

  function DeviceFields(d: Device): seq<seq<byte>>
    requires Sized(d)
  {
    [U32(d.id), U32(d.capabilities), U16(d.bus), U16(d.vendor), U16(d.product), U16(d.version), U32(0), U32(0),
     d.name, d.path, d.physical, d.unique, EncodeAxisTable(d.axes), EncodeButtonTable(d.buttons)]
  }

  const DEVICE_LAYOUT: seq<nat> := [0, 4, 8, 10, 12, 14, 16, 20, 24, 280, 792, 1048, 1176, 2720, 2984]

  function EncodeDevice(d: Device): seq<byte>
    requires Sized(d)
  {
    Join(DeviceFields(d))
  }

  lemma DeviceSize(d: Device)
    requires Sized(d)
    ensures LaidOut(DeviceFields(d), DEVICE_LAYOUT) && |EncodeDevice(d)| == 2984
  {
    hide U16, U32, EncodeAxisTable, EncodeButtonTable;
    JoinSize(DeviceFields(d), DEVICE_LAYOUT);
  }

  /** The service's encoder: zeros, then each field and table entry at its offset. */
  method WriteDevice(out: array<byte>, d: Device)
    requires out.Length == 2984 && Sized(d)
    modifies out
    ensures out[..] == EncodeDevice(d)
  {
    hide U16, U32, U64, Zeros, Holds, Only, EncodeAxisTable, EncodeButtonTable;
    Clear(out, 2984);
    ZeroHolds(out[..], 2984, 16);
    ZeroHolds(out[..], 2984, 20);
    ZeroHolds(out[..], 2984, 1176);
    WriteIdentity(out, d);
    assert Holds(out[..], 1176, Zeros(8 + 24 * AXES)) && Holds(out[..], 2720, Zeros(8 + 2 * BUTTONS)) by {
      TableZeros(out[..]);
    }
    WriteAxisTable(out, d.axes);
    WriteButtonTable(out, d.buttons);
    DeviceIs(out[..], d);
  }

  lemma TableZeros(s: seq<byte>)
    requires Holds(s, 1176, Zeros(1808))
    ensures Holds(s, 1176, Zeros(8 + 24 * AXES)) && Holds(s, 2720, Zeros(8 + 2 * BUTTONS))
  {
    HoldsTail(s, 1176, 1808, 1544);
    assert s[1176..2720] == s[1176..2984][..1544];
  }

  /** The fixed fields and the texts. */
  method WriteIdentity(out: array<byte>, d: Device)
    requires out.Length == 2984 && Sized(d)
    requires Holds(out[..], 16, U32(0)) && Holds(out[..], 20, U32(0)) && Holds(out[..], 1176, Zeros(1808))
    modifies out
    ensures forall k :: 0 <= k < 12 ==> Holds(out[..], DEVICE_LAYOUT[k], DeviceFields(d)[k])
    ensures Holds(out[..], 1176, Zeros(1808))
  {
    hide U16, U32, U64, Zeros, Holds, Only, EncodeAxisTable, EncodeButtonTable;
    PutU32(out, 0, d.id);
    PutU32(out, 4, d.capabilities);
    PutU16(out, 8, d.bus);
    PutU16(out, 10, d.vendor);
    PutU16(out, 12, d.product);
    PutU16(out, 14, d.version);
    PutBytes(out, 24, d.name);
    PutBytes(out, 280, d.path);
    PutBytes(out, 792, d.physical);
    PutBytes(out, 1048, d.unique);
  }

  method WriteAxisTable(out: array<byte>, axes: seq<AxisInfo>)
    requires out.Length == 2984 && |axes| <= AXES && Holds(out[..], 1176, Zeros(8 + 24 * AXES))
    modifies out
    ensures Wrote(old(out[..]), out[..], 1176, EncodeAxisTable(axes))
  {
    hide U32, Zeros, Holds, EncodeInfos;
    ghost var was := out[..];
    AxisZeros(out[..]);
    PutU32(out, 1176, |axes|);
    var i := 0;
    InfosHeld(out[..], axes);
    while i < |axes|
      invariant i <= |axes| && Holds(out[..], 1176, U32(|axes|)) && Holds(out[..], 1180, U32(0))
      invariant Holds(out[..], 1184, EncodeInfos(axes[..i])) && Holds(out[..], 1184 + 24 * i, Zeros(24 * (AXES - i)))
      invariant Only(was, out[..], 1176, 8 + 24 * AXES)
    {
      HoldsTail(out[..], 1184 + 24 * i, 24 * (AXES - i), 24);
      WriteInfo(out, 1184 + 24 * i, axes[i]);
      InfoAppended(out[..], axes, i);
      i := i + 1;
    }
    assert axes[..i] == axes;
    AxisTableHeld(out[..], axes);
    OnlyThere(was, out[..], 1176, EncodeAxisTable(axes));
  }

  method WriteInfo(out: array<byte>, at: nat, a: AxisInfo)
    requires at + 24 <= out.Length
    modifies out
    ensures Wrote(old(out[..]), out[..], at, EncodeInfo(a))
  {
    hide U32, Holds;
    ghost var was := out[..];
    PutU32(out, at, a.code);
    PutU32(out, at + 4, Unsigned(a.minimum));
    PutU32(out, at + 8, Unsigned(a.maximum));
    PutU32(out, at + 12, Unsigned(a.fuzz));
    PutU32(out, at + 16, Unsigned(a.flat));
    PutU32(out, at + 20, Unsigned(a.resolution));
    InfoHeld(out[..], at, a);
    OnlyThere(was, out[..], at, EncodeInfo(a));
  }

  lemma InfoHeld(s: seq<byte>, at: nat, a: AxisInfo)
    requires forall k :: 0 <= k < |InfoFields(a)| ==> Holds(s, at + INFO_LAYOUT[k], InfoFields(a)[k])
    ensures Holds(s, at, EncodeInfo(a))
  {
    var f := InfoFields(a);
    InfoSize(a);
    assert Holds(s, at + INFO_LAYOUT[5], f[5]);
    hide U32;
    var w := s[at..at + 24];
    forall k | 0 <= k < |f|
      ensures Holds(w, INFO_LAYOUT[k], f[k])
    {
      assert Holds(s, at + INFO_LAYOUT[k], f[k]);
      assert w[INFO_LAYOUT[k]..INFO_LAYOUT[k] + 4] == s[at + INFO_LAYOUT[k]..at + INFO_LAYOUT[k] + 4];
    }
    JoinIs(w, f, INFO_LAYOUT, |f|);
    assert f[..|f|] == f && w[..24] == w;
  }

  lemma AxisZeros(s: seq<byte>)
    requires Holds(s, 1176, Zeros(8 + 24 * AXES))
    ensures Holds(s, 1180, U32(0)) && Holds(s, 1184, Zeros(24 * AXES))
  {
    HoldsTail(s, 1176, 8 + 24 * AXES, 8);
    HoldsTail(s, 1176, 8 + 24 * AXES, 4);
    assert U32(0) == Zeros(4);
    assert s[1180..1184] == s[1180..2720][..4];
  }

  lemma InfosHeld(s: seq<byte>, axes: seq<AxisInfo>)
    requires 1184 <= |s|
    ensures Holds(s, 1184, EncodeInfos(axes[..0]))
  {}

  lemma {:induction false} EncodeInfosAppend(axes: seq<AxisInfo>, a: AxisInfo)
    ensures EncodeInfos(axes + [a]) == EncodeInfos(axes) + EncodeInfo(a)
    decreases |axes|
  {
    hide EncodeInfo;
    if axes != [] {
      assert (axes + [a])[1..] == axes[1..] + [a];
      EncodeInfosAppend(axes[1..], a);
    } else {
      assert (axes + [a])[1..] == [];
    }
  }

  lemma InfoAppended(s: seq<byte>, axes: seq<AxisInfo>, i: nat)
    requires i < |axes| && Holds(s, 1184, EncodeInfos(axes[..i])) && Holds(s, 1184 + 24 * i, EncodeInfo(axes[i]))
    ensures Holds(s, 1184, EncodeInfos(axes[..i + 1]))
  {
    hide Holds, EncodeInfos, EncodeInfo;
    HoldsJoin(s, 1184, EncodeInfos(axes[..i]), EncodeInfo(axes[i]));
    EncodeInfosAppend(axes[..i], axes[i]);
    assert axes[..i + 1] == axes[..i] + [axes[i]];
  }

  lemma AxisTableHeld(s: seq<byte>, axes: seq<AxisInfo>)
    requires |axes| <= AXES && Holds(s, 1176, U32(|axes|)) && Holds(s, 1180, U32(0))
    requires Holds(s, 1184, EncodeInfos(axes)) && Holds(s, 1184 + 24 * |axes|, Zeros(24 * (AXES - |axes|)))
    ensures Holds(s, 1176, EncodeAxisTable(axes))
  {
    hide U32, Zeros, Holds, EncodeInfos;
    HoldsJoin(s, 1176, U32(|axes|), U32(0));
    HoldsJoin(s, 1176, U32(|axes|) + U32(0), EncodeInfos(axes));
    HoldsJoin(s, 1176, U32(|axes|) + U32(0) + EncodeInfos(axes), Zeros(24 * (AXES - |axes|)));
  }

  method WriteButtonTable(out: array<byte>, codes: seq<nat>)
    requires out.Length == 2984 && |codes| <= BUTTONS && Holds(out[..], 2720, Zeros(8 + 2 * BUTTONS))
    modifies out
    ensures Wrote(old(out[..]), out[..], 2720, EncodeButtonTable(codes))
  {
    hide U16, U32, Zeros, Holds, EncodeButtons;
    ghost var was := out[..];
    ButtonZeros(out[..]);
    PutU32(out, 2720, |codes|);
    var i := 0;
    CodesHeld(out[..], codes);
    while i < |codes|
      invariant i <= |codes| && Holds(out[..], 2720, U32(|codes|)) && Holds(out[..], 2724, U32(0))
      invariant Holds(out[..], 2728, EncodeButtons(codes[..i]))
                && Holds(out[..], 2728 + 2 * i, Zeros(2 * (BUTTONS - i)))
      invariant Only(was, out[..], 2720, 8 + 2 * BUTTONS)
    {
      HoldsTail(out[..], 2728 + 2 * i, 2 * (BUTTONS - i), 2);
      PutU16(out, 2728 + 2 * i, codes[i]);
      CodeAppended(out[..], codes, i);
      i := i + 1;
    }
    assert codes[..i] == codes;
    ButtonTableHeld(out[..], codes);
    OnlyThere(was, out[..], 2720, EncodeButtonTable(codes));
  }

  lemma ButtonZeros(s: seq<byte>)
    requires Holds(s, 2720, Zeros(8 + 2 * BUTTONS))
    ensures Holds(s, 2724, U32(0)) && Holds(s, 2728, Zeros(2 * BUTTONS))
  {
    HoldsTail(s, 2720, 8 + 2 * BUTTONS, 8);
    HoldsTail(s, 2720, 8 + 2 * BUTTONS, 4);
    assert U32(0) == Zeros(4);
    assert s[2724..2728] == s[2724..2984][..4];
  }

  lemma CodesHeld(s: seq<byte>, codes: seq<nat>)
    requires 2728 <= |s|
    ensures Holds(s, 2728, EncodeButtons(codes[..0]))
  {}

  lemma {:induction false} EncodeButtonsAppend(codes: seq<nat>, c: nat)
    ensures EncodeButtons(codes + [c]) == EncodeButtons(codes) + U16(c)
    decreases |codes|
  {
    hide U16;
    if codes != [] {
      assert (codes + [c])[1..] == codes[1..] + [c];
      EncodeButtonsAppend(codes[1..], c);
    } else {
      assert (codes + [c])[1..] == [];
    }
  }

  lemma CodeAppended(s: seq<byte>, codes: seq<nat>, i: nat)
    requires i < |codes| && Holds(s, 2728, EncodeButtons(codes[..i])) && Holds(s, 2728 + 2 * i, U16(codes[i]))
    ensures Holds(s, 2728, EncodeButtons(codes[..i + 1]))
  {
    hide Holds, EncodeButtons, U16;
    HoldsJoin(s, 2728, EncodeButtons(codes[..i]), U16(codes[i]));
    EncodeButtonsAppend(codes[..i], codes[i]);
    assert codes[..i + 1] == codes[..i] + [codes[i]];
  }

  lemma ButtonTableHeld(s: seq<byte>, codes: seq<nat>)
    requires |codes| <= BUTTONS && Holds(s, 2720, U32(|codes|)) && Holds(s, 2724, U32(0))
    requires Holds(s, 2728, EncodeButtons(codes)) && Holds(s, 2728 + 2 * |codes|, Zeros(2 * (BUTTONS - |codes|)))
    ensures Holds(s, 2720, EncodeButtonTable(codes))
  {
    hide U32, Zeros, Holds, EncodeButtons;
    HoldsJoin(s, 2720, U32(|codes|), U32(0));
    HoldsJoin(s, 2720, U32(|codes|) + U32(0), EncodeButtons(codes));
    HoldsJoin(s, 2720, U32(|codes|) + U32(0) + EncodeButtons(codes), Zeros(2 * (BUTTONS - |codes|)));
  }

  lemma DeviceIs(s: seq<byte>, d: Device)
    requires Sized(d) && |s| == 2984
    requires forall k :: 0 <= k < 14 ==> Holds(s, DEVICE_LAYOUT[k], DeviceFields(d)[k])
    ensures s == EncodeDevice(d)
  {
    hide U16, U32, Holds, EncodeAxisTable, EncodeButtonTable;
    var f := DeviceFields(d);
    DeviceSize(d);
    JoinIs(s, f, DEVICE_LAYOUT, |f|);
    assert f[..|f|] == f && s[..2984] == s;
  }

  function DecodeAxisTable(s: seq<byte>): Option<seq<AxisInfo>>
    requires |s| == 8 + 24 * AXES
  {
    if ReadU32(s, 0) > AXES || ReadU32(s, 4) != 0 then None else DecodeInfos(s[8..], ReadU32(s, 0), -1)
  }

  function DecodeButtonTable(s: seq<byte>): Option<seq<nat>>
    requires |s| == 8 + 2 * BUTTONS
  {
    if ReadU32(s, 0) > BUTTONS || ReadU32(s, 4) != 0 then None else DecodeButtons(s[8..], ReadU32(s, 0), 0, 0, false)
  }

  function DecodeDevice(s: seq<byte>): Option<Device> {
    if |s| != 2984 || ReadU32(s, 0) == 0 || ReadU32(s, 16) != 0 || ReadU32(s, 20) != 0
       || 0 !in s[24..280] || 0 !in s[280..792] || 0 !in s[792..1048] || 0 !in s[1048..1176] then None
    else
      match DecodeAxisTable(s[1176..2720])
      case None => None
      case Some(axes) =>
        match DecodeButtonTable(s[2720..2984])
        case None => None
        case Some(buttons) =>
          Some(Device(ReadU32(s, 0), ReadU32(s, 4), ReadU16(s, 8), ReadU16(s, 10), ReadU16(s, 12), ReadU16(s, 14),
                      s[24..280], s[280..792], s[792..1048], s[1048..1176], axes, buttons))
  }

  lemma TableParts(n: nat, body: seq<byte>)
    requires Fits32(n)
    ensures var s := U32(n) + U32(0) + body; ReadU32(s, 0) == n && ReadU32(s, 4) == 0 && s[8..] == body
  {
    hide U32, ReadU32;
    var s := U32(n) + U32(0) + body;
    assert s[0..4] == U32(n) && s[4..8] == U32(0);
    U32Reads(n, s, 0);
    U32Reads(0, s, 4);
  }

  lemma AxisTableRoundTrip(axes: seq<AxisInfo>)
    requires |axes| <= AXES && InfosOk(axes, -1)
    ensures DecodeAxisTable(EncodeAxisTable(axes)) == Some(axes)
  {
    hide EncodeInfos, Zeros, ReadU32, U32, InfosOk, DecodeInfos;
    var body := EncodeInfos(axes) + Zeros(24 * (AXES - |axes|));
    assert EncodeAxisTable(axes) == U32(|axes|) + U32(0) + body;
    TableParts(|axes|, body);
    InfosRoundTrip(axes, -1, Zeros(24 * (AXES - |axes|)));
  }

  lemma ButtonTableRoundTrip(codes: seq<nat>)
    requires ButtonListOk(codes)
    ensures DecodeButtonTable(EncodeButtonTable(codes)) == Some(codes)
  {
    hide EncodeButtons, Zeros, ReadU32, U32, ButtonsOk, DecodeButtons;
    var body := EncodeButtons(codes) + Zeros(2 * (BUTTONS - |codes|));
    assert EncodeButtonTable(codes) == U32(|codes|) + U32(0) + body;
    TableParts(|codes|, body);
    ButtonsRoundTrip(codes, 0, 0, false, Zeros(2 * (BUTTONS - |codes|)));
  }

  lemma IdentityReads(d: Device)
    requires DeviceOk(d) && Sized(d)
    ensures var s := EncodeDevice(d);
            && |s| == 2984 && ReadU32(s, 0) == d.id && ReadU32(s, 4) == d.capabilities && ReadU16(s, 8) == d.bus
            && ReadU16(s, 10) == d.vendor
            && ReadU16(s, 12) == d.product && ReadU16(s, 14) == d.version && ReadU32(s, 16) == 0 && ReadU32(s, 20) == 0
  {
    hide U16, U32, ReadU16, ReadU32, Join, LaidOut, EncodeAxisTable, EncodeButtonTable, InfosOk, ButtonListOk;
    var s, f, at := EncodeDevice(d), DeviceFields(d), DEVICE_LAYOUT;
    DeviceSize(d);
    FieldAt(f, at, 0); U32Reads(d.id, s, 0);
    FieldAt(f, at, 1); U32Reads(d.capabilities, s, 4);
    FieldAt(f, at, 2); U16Reads(d.bus, s, 8);
    FieldAt(f, at, 3); U16Reads(d.vendor, s, 10);
    FieldAt(f, at, 4); U16Reads(d.product, s, 12);
    FieldAt(f, at, 5); U16Reads(d.version, s, 14);
    FieldAt(f, at, 6); U32Reads(0, s, 16);
    FieldAt(f, at, 7); U32Reads(0, s, 20);
  }

  lemma TextsRead(d: Device)
    requires Sized(d)
    ensures var s := EncodeDevice(d);
            && |s| == 2984 && s[24..280] == d.name && s[280..792] == d.path && s[792..1048] == d.physical
            && s[1048..1176] == d.unique
            && s[1176..2720] == EncodeAxisTable(d.axes) && s[2720..2984] == EncodeButtonTable(d.buttons)
  {
    hide U16, U32, Join, LaidOut, EncodeAxisTable, EncodeButtonTable;
    var f, at := DeviceFields(d), DEVICE_LAYOUT;
    DeviceSize(d);
    FieldAt(f, at, 8);
    FieldAt(f, at, 9);
    FieldAt(f, at, 10);
    FieldAt(f, at, 11);
    FieldAt(f, at, 12);
    FieldAt(f, at, 13);
  }

  /** The client reads the device description the service wrote. */
  lemma DeviceRoundTrip(d: Device)
    requires DeviceOk(d)
    ensures Sized(d) && DecodeDevice(EncodeDevice(d)) == Some(d)
  {
    assert Sized(d) by { hide InfosOk, ButtonsOk; }
    hide EncodeDevice, EncodeAxisTable, EncodeButtonTable, DecodeAxisTable, DecodeButtonTable, ReadU16, ReadU32, Sized,
         InfosOk, ButtonListOk;
    IdentityReads(d);
    TextsRead(d);
    AxisTableRoundTrip(d.axes);
    ButtonTableRoundTrip(d.buttons);
  }
}
