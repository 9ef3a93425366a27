/** Option: the model's stand-in for a nullable reference or a `T?` value. */
module Wrappers {
  datatype Option<+T> = None | Some(value: T)
}
