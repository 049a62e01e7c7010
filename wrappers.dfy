/** The optional value used for query parameters that may be missing. */
module Wrappers {

  datatype Option<+T> = None | Some(value: T)
}
