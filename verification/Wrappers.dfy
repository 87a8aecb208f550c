/** A value that may be missing, shared by all models. */
module Wrappers {
  datatype Option<+T> = None | Some(value: T)
}
