/** The optional-value datatype used for regex matches that may fail. */
module Wrappers {

  datatype Option<T> = None | Some(value: T)
}
