/** The optional value shared by the chat and calendar models. */
module Wrappers {

  datatype Option<+T> = None | Some(value: T)
}
