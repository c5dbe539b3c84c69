/** The optional value used for JSON fields that may be missing and for searches that may fail. */
module Wrappers {

  datatype Option<+T> = None | Some(value: T)
}
