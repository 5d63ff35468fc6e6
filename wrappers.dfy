/** The optional value used wherever the game holds something that may be `undefined`. */
module Wrappers {

  datatype Option<+T> = None | Some(value: T)
}
