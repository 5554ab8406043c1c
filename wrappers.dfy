/** An optional value: JavaScript's `T | undefined` for results that may be missing. */
module Wrappers {
  datatype Option<+T> = None | Some(value: T)
}
