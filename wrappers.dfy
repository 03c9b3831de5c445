/** A value that may be absent (an `undefined` field or property). */
module Wrappers {
  datatype Option<+T> = None | Some(value: T)
}
