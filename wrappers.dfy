/** The optional value used where the generator may produce nothing. */
module Wrappers {

  datatype Option<+T> = None | Some(value: T)
}
