/** The optional value shared by every module: Python's and JavaScript's "or null". */
module Wrappers {
  datatype Option<+T> = None | Some(value: T)
}
