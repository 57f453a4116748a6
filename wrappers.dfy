/** The optional value used where the source yields `undefined`. */
module Wrappers {
  datatype Option<+T> = None | Some(value: T)
}
