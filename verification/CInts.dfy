/** The integers of C. */
module CInts {

  const INT_MAX := 0x7FFF_FFFF

  /** A C int. */
  type Int32 = x: int | -INT_MAX - 1 <= x <= INT_MAX

  /** The int that is left of `x` when the bits above are cut off. */
  function Wrap(x: int): Int32 {
    (x + 0x8000_0000) % 0x1_0000_0000 - 0x8000_0000
  }
}
