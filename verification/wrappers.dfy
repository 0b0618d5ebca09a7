/** The optional value used wherever PHP returns a value or `null`. */
module Wrappers {

  datatype Option<+T> = None | Some(value: T)
}
