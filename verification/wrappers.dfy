/** Option, shared by the presence model and the message handler. */
module Wrappers {

  datatype Option<+T> = None | Some(value: T)
}
