/** Shared result types. */
module Wrappers {

  datatype Option<+T> = None | Some(value: T)

  /** The least number that does not fit the source's 64-bit unsigned integers. */
  const U64_LIMIT: nat := 0x1_0000_0000_0000_0000

  /** The least positive number that does not fit the source's 64-bit signed integers. */
  const I64_LIMIT: nat := 0x8000_0000_0000_0000
}
