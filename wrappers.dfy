/** The optional value used where the Java code accepts or returns null. */
module Wrappers {
  datatype Option<T> = None | Some(value: T)
}
