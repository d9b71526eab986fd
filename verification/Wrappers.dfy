/** The result type of operations that may return nothing. */
module Wrappers {
  datatype Option<+T> = None | Some(value: T)
}
