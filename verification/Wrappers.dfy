/** The optional values used throughout: Python's `None` next to a value. */
module Wrappers {
  datatype Option<+T> = None | Some(value: T)
}
