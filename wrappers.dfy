/** Option, the possibly-absent value used throughout the model. */
module Wrappers {

  datatype Option<+T> = None | Some(value: T)
}
