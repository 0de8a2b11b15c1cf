/** The optional-argument datatype used for `previous_hash=None`. */
module Wrappers {
  datatype Option<+T> = None | Some(value: T)
}
