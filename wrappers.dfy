/** The optional value shared by the modules of this project. */
module Wrappers {

  /** A value that may be absent, in place of a null reference. */
  datatype Option<+T> = None | Some(value: T)
}
