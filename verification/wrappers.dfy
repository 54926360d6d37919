/** Small helper types shared by the model. */
module Wrappers {

  /** A value that may be absent: the outcome of polling a conversion that
      may not have finished yet. */
  datatype Option<+T> = None | Some(value: T)

  /** The firmware's fixed-width integer globals. */
  type UInt8 = x: int | 0 <= x < 0x100
  type UInt16 = x: int | 0 <= x < 0x1_0000
  type Int8 = x: int | -0x80 <= x < 0x80
}
