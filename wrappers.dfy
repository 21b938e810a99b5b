/** The optional value used for a node's not-yet-recorded region. */
module Wrappers {

  datatype Option<T> = None | Some(value: T)
}
