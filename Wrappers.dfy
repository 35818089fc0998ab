/** The optional value used wherever the source returns a nullable pointer or a success flag. */
module Wrappers {
  datatype Option<+T> = None | Some(value: T)
}
