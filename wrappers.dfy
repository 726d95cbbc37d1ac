/** The optional value used where the source has `T | undefined`. */
module Wrappers {

  datatype Option<+T> = None | Some(value: T)
}
