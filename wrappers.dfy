/** The optional value used wherever the program returns Python's None. */
module Wrappers {

  datatype Option<+T> = None | Some(value: T)
}
