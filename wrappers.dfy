/** The absent-or-present value the pages use where the source has `T | null`. */
module Wrappers {
  datatype Option<T> = None | Some(value: T)
}
