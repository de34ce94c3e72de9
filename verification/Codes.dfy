/** The evdev event types and key codes the broker names, and the key classes it
    distinguishes. */
module Codes {
  const KEY_MAX := 767
  const EV_KEY := 1
  const EV_REL := 2
  const EV_ABS := 3

  const KEY_1 := 2
  const KEY_0 := 11
  const KEY_E := 18
  const KEY_U := 22
  const KEY_LEFTCTRL := 29
  const KEY_A := 30
  const KEY_D := 32
  const KEY_F := 33
  const KEY_LEFTSHIFT := 42
  const KEY_C := 46
  const KEY_B := 48
  const KEY_SPACE := 57
  const BTN_LEFT := 0x110
  const BTN_RIGHT := 0x111
  const BTN_MIDDLE := 0x112
  const BTN_SIDE := 0x113
  const BTN_EXTRA := 0x114
  const BTN_FORWARD := 0x115
  const BTN_BACK := 0x116
  const BTN_JOYSTICK := 0x120

  datatype Option<+T> = None | Some(value: T)

  /** Codes of keys, as opposed to buttons of mice, tablets and controllers. */
  predicate IsKeyboardKey(code: nat) {
    0 < code < 0x100 || 0x160 <= code < 0x220 || 0x230 <= code < 0x2c0
  }

  /** Ctrl, Shift, Alt and Meta on both sides, and the three locks. */
  predicate IsModifierOrLock(code: nat) {
    code in {29, 97, 42, 54, 56, 100, 125, 126, 58, 69, 70}
  }

  /** One code for each of the two X buttons, which have two codes each. */
  function CanonicalButton(code: nat): nat {
    if code == BTN_BACK then BTN_SIDE else if code == BTN_FORWARD then BTN_EXTRA else code
  }

  /** The second code of an X button; any other code is paired with itself. */
  function ButtonAlias(code: nat): nat {
    if code == BTN_SIDE then BTN_BACK else if code == BTN_EXTRA then BTN_FORWARD else CanonicalButton(code)
  }

  /** One raw evdev event, without its timestamp. */
  datatype Event = Event(kind: nat, code: nat, value: int) {
    /** A key transition or repeat of a code the key bitmaps cover. */
    predicate IsKey() { kind == EV_KEY && code <= KEY_MAX }
  }

  function KeyEvent(code: nat, value: int): Event { Event(EV_KEY, code, value) }
}
