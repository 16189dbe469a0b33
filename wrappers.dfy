/** The usual optional-value datatype, shared by both backends. */
module Wrappers {

  datatype Option<+T> = None | Some(value: T)
}
