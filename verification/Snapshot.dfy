/** What a dump file holds. */
module Snapshot {
  import opened Wrappers
  import opened Decimal

  /** A string and, perhaps, the Unix time in milliseconds at which it expires. */
  datatype StringEntry = StringEntry(key: Bytes, value: Bytes, expiresAtUnix: Option<nat>)
}
