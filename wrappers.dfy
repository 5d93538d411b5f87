/** The optional-value datatype used for lookups, parse results and send errors. */
module Wrappers {
  datatype Option<+T> = None | Some(value: T)
}
