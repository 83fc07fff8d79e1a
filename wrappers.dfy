/** The optional value used for fields that a JSON payload may leave out. */
module Wrappers {

  datatype Option<+T> = None | Some(value: T)
}
