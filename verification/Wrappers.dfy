/** The optional value used for Swift's `T?` throughout the model. */
module Wrappers {
  datatype Option<+T> = None | Some(value: T)
}
