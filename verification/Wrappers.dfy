// Optional values, used across the project for Python's None.
module Wrappers {
  datatype Option<+T> = None | Some(value: T)
}
