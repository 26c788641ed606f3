/** Optional values used across the model. */
module Wrappers {

  /** A value that may be absent; stands for JavaScript's `null` results. */
  datatype Option<+T> = None | Some(value: T)
}
