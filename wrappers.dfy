/** The optional value used where the JavaScript builder returns `undefined`. */
module Wrappers {

  datatype Option<+T> = None | Some(value: T)

}
