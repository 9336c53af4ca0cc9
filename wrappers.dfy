/** The optional value used wherever the source passes `None` or a lookup may fail. */
module Wrappers {
  datatype Option<T> = None | Some(value: T)
}
