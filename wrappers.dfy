/** Option: a value or Ruby's nil. */
module Wrappers {

  datatype Option<+T> = None | Some(value: T)

}
