/** A value that may be absent, as a null or undefined in the controller. */
module Wrappers {
  datatype Option<T> = None | Some(value: T)
}
