/** Keycodes the keymap sees: the Anne Pro 2 keycode enumeration, which the
    board places at the start of the framework's free range, and the one
    custom keycode the keymap adds right after it. */
module Keycodes {

  /** A keycode as the framework passes it: a 16-bit unsigned value. */
  type Keycode = k: int | 0 <= k < 0x1_0000

  /** Where the framework's user-defined keycode range starts. Its value
      belongs to the framework and is left open here; the only assumption is
      that the twelve board keycodes and the custom one after them still fit
      in 16 bits. */
  type SafeRangeStart = k: int | 0 <= k <= 0xFFFF - 12

  const SafeRange: SafeRangeStart

  /** The board's keycode enumeration, in declaration order. */
  datatype Ap2Key =
    | Bt1 | Bt2 | Bt3 | Bt4 | BtUnpair | Usb
    | LedOn | LedOff | LedNextProfile | LedPrevProfile | LedNextIntensity | LedSpeed

  /** Position of a board key in its enumeration. */
  function Ordinal(k: Ap2Key): (i: nat)
    ensures i < 12
  {
    match k
    case Bt1 => 0
    case Bt2 => 1
    case Bt3 => 2
    case Bt4 => 3
    case BtUnpair => 4
    case Usb => 5
    case LedOn => 6
    case LedOff => 7
    case LedNextProfile => 8
    case LedPrevProfile => 9
    case LedNextIntensity => 10
    case LedSpeed => 11
  }

  /** First value after the board's keycodes. */
  const Ap2SafeRange: Keycode := SafeRange + 12

  /** The keymap's own LED on/off keycode, declared equal to Ap2SafeRange. */
  const LedToggle: Keycode := Ap2SafeRange

  /** The value the enumeration gives a board key: consecutive from SafeRange,
      so every board keycode lies in [SafeRange, Ap2SafeRange) and is
      therefore different from LedToggle. */
  function Code(k: Ap2Key): (r: Keycode)
    ensures SafeRange <= r < Ap2SafeRange
    ensures r != LedToggle
  {
    SafeRange + Ordinal(k)
  }
}
