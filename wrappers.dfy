/** The optional value used where the runner either prints something or not. */
module Wrappers {

  datatype Option<+T> = None | Some(value: T)
}
