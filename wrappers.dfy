/** A value that may be missing: JavaScript's `undefined`/`null` next to a real value. */
module Wrappers {

  datatype Option<+T> = None | Some(value: T)
}
