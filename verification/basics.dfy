/** Types the models share. */
module Basics {

  datatype Option<T> = None | Some(value: T)

  /** Unsigned integers of the sources. */
  type u8 = x: nat | x < 0x100
  type u16 = x: nat | x < 0x1_0000

  const TWO32 := 0x1_0000_0000
}
