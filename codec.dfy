/** The byte-level codec of the input bridge: how one received byte becomes a
    signed relative delta (`to_num`) and how a wire button code becomes the
    input library's button code (`to_button`). Pure functions, no state. */
module Codec {

  /** Rust's `u8`, `u16` and `i32`, with their ranges made explicit. */
  newtype u8 = x: int | 0 <= x < 0x100
  newtype u16 = x: int | 0 <= x < 0x1_0000
  newtype i32 = x: int | -0x8000_0000 <= x < 0x8000_0000

  datatype Option<T> = None | Some(value: T)

  // ---------------------------------------------------------------------------
  // Relative deltas
  // ---------------------------------------------------------------------------

  /** The byte a delta is sent as: the delta modulo 256 (two's complement). */
  function Encode(n: i32): (b: u8)
  {
    ((n as int + 0x100) % 0x100) as u8
  }

  /** `to_num`: a received byte read as a signed delta. Bytes up to 128 keep
      their value, bytes above 128 wrap to negative. The result is the one
      value in [-127, 128] that is congruent to the byte modulo 256, so
      re-encoding it gives the byte back. */
  function ToNum(b: u8): (n: i32)
    ensures -127 <= n <= 128
    ensures Encode(n) == b
  {
    var num := b as i32;
    if num > 128 then num - 0x100 else num
  }

  /** The two branches of `to_num`. */
  lemma ToNumCases(b: u8)
    ensures b <= 128 ==> ToNum(b) as int == b as int
    ensures b > 128 ==> ToNum(b) as int == b as int - 0x100
  {
  }

  /** Two different bytes never decode to the same delta. */
  lemma ToNumInjective(a: u8, b: u8)
    ensures ToNum(a) == ToNum(b) ==> a == b
  {
  }

  /** Every delta in [-127, 128] is sent as some byte and decoded back
      unchanged: `to_num` is onto that range, so it is a bijection between
      bytes and [-127, 128]. */
  lemma EncodeThenToNum(n: i32)
    requires -127 <= n <= 128
    ensures ToNum(Encode(n)) == n
  {
  }

  // ---------------------------------------------------------------------------
  // Button codes
  // ---------------------------------------------------------------------------

  /** The wire codes reserved for the three named mouse buttons. */
  const LEFT_MOUSE: u8 := 90
  const RIGHT_MOUSE: u8 := 91
  const MIDDLE_MOUSE: u8 := 92

  /** The input library's `BTN_LEFT`, `BTN_RIGHT` and `BTN_MIDDLE`. Their
      values belong to a library outside this model, so every definition that
      needs them takes them as a parameter and nothing is assumed of them. */
  datatype KeyCodes = KeyCodes(left: u16, right: u16, middle: u16)

  predicate IsReserved(b: u8)
  {
    b == LEFT_MOUSE || b == RIGHT_MOUSE || b == MIDDLE_MOUSE
  }

  /** `to_button`: a reserved wire code becomes the matching named button of
      the library; any other byte is passed through, widened to 16 bits with
      its value unchanged. */
  function ToButton(keys: KeyCodes, b: u8): (code: u16)
    ensures b == LEFT_MOUSE ==> code == keys.left
    ensures b == RIGHT_MOUSE ==> code == keys.right
    ensures b == MIDDLE_MOUSE ==> code == keys.middle
    ensures !IsReserved(b) ==> code as int == b as int
  {
    match b
    case 90 => keys.left
    case 91 => keys.right
    case 92 => keys.middle
    case _ => b as u16
  }

  /** The assumption under which the three named buttons cannot be confused
      with each other or with a passed-through byte: their codes differ and
      lie outside the byte range. (Linux's input codes, 0x110 to 0x112, meet
      it.) */
  predicate Distinguishable(keys: KeyCodes)
  {
    keys.left != keys.right && keys.left != keys.middle && keys.right != keys.middle &&
    keys.left >= 0x100 && keys.right >= 0x100 && keys.middle >= 0x100
  }

  /** The wire code that `to_button` maps to a given library code, if any. */
  function WireCode(keys: KeyCodes, code: u16): (r: Option<u8>)
  {
    if code == keys.left then Some(LEFT_MOUSE)
    else if code == keys.right then Some(RIGHT_MOUSE)
    else if code == keys.middle then Some(MIDDLE_MOUSE)
    else if code < 0x100 && !IsReserved(code as u8) then Some(code as u8)
    else None
  }

  /** Under the assumption above, the wire code is recovered from the library
      code, so `to_button` is injective. */
  lemma ToButtonRoundTrip(keys: KeyCodes, b: u8)
    requires Distinguishable(keys)
    ensures WireCode(keys, ToButton(keys, b)) == Some(b)
  {
  }

  lemma ToButtonInjective(keys: KeyCodes, a: u8, b: u8)
    requires Distinguishable(keys)
    ensures ToButton(keys, a) == ToButton(keys, b) ==> a == b
  {
  }

  /** Without the assumption, `to_button` need not be injective: when the
      library's left button happens to be code 7, wire codes 90 and 7 press
      the same button. */
  lemma ToButtonCollision()
    ensures ToButton(KeyCodes(7, 0x111, 0x112), LEFT_MOUSE) == ToButton(KeyCodes(7, 0x111, 0x112), 7)
  {
  }
}
