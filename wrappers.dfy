/** The optional value used where the source returns `undefined` or falls through. */
module Wrappers {
  datatype Option<+T> = None | Some(value: T)
}
