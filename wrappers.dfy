/** The optional value used where the script returns either a value or `None`. */
module Wrappers {

  datatype Option<T> = None | Some(value: T)
}
