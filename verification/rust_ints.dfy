/** Rust's unsigned fixed-width integer types, as bounded newtypes of `int`. */
module RustInts {

  /** Rust `u8`: an arithmetic result outside [0, 255] is a verification error here. */
  newtype u8 = x: int | 0 <= x < 0x100

  /** Rust `u16`, used for sprite-sheet rectangles. */
  newtype u16 = x: int | 0 <= x < 0x1_0000
}
