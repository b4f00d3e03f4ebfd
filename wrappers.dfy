/** The optional value used throughout the model, for JavaScript results that may be absent. */
module Wrappers {
  datatype Option<+T> = None | Some(value: T)
}
