/** The optional value used wherever the pages test for a missing result. */
module Wrappers {

  datatype Option<T> = None | Some(value: T)
}
