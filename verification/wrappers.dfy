/** The optional value the model uses where the engine would raise a KeyError. */
module Wrappers {

  datatype Option<+T> = None | Some(value: T)
}
