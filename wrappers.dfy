/** The optional value used for the source's `undefined` / null references. */
module Wrappers {
  datatype Option<+T> = None | Some(value: T)
}
