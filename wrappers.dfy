/** The optional value used for attributes that may hold Python's `None`. */
module Wrappers {
  datatype Option<+T> = None | Some(value: T)
}
