/** The optional value used where the source has a nullable type. */
module Wrappers {
  datatype Option<+T> = None | Some(value: T)
}
