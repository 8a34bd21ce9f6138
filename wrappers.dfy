/** Shared value wrappers. */
module Wrappers {

  /** A value that may be absent, like Python's `None`. */
  datatype Option<T> = None | Some(value: T)
}
