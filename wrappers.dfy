/** The optional value used where the Java code returns a nullable reference. */
module Wrappers {
  datatype Option<+T> = None | Some(value: T)
}
