/** Shared vocabulary. */
module Basics {

  datatype Option<+T> = None | Some(value: T)

  /** The two failures that a gateway may mark as safe to retry. */
  datatype Hint = Unavailable | RateLimited

  const MAX_INT64: nat := 0x7fff_ffff_ffff_ffff
}
