/** The optional value used wherever a JavaScript property may be missing. */
module Wrappers {
  datatype Option<T> = None | Some(value: T)
}
