/** The optional value used wherever a Java reference may be null. */
module Wrappers {

  datatype Option<+T> = None | Some(value: T)
}
