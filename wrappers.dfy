/** The optional value used where the source returns or accepts null. */
module Wrappers {

  datatype Option<T> = None | Some(value: T)
}
