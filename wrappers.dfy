/** A value that may be missing: JavaScript's `null`/`undefined`, or a failed fetch. */
module Wrappers {
  datatype Option<+T> = None | Some(value: T)
}
