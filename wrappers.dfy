/** The optional-value datatype used for the cookie a response sets. */
module Wrappers {

  datatype Option<+T> = None | Some(value: T)
}
