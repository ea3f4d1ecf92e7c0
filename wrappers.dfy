/** The optional value used wherever the program returns `None` or leaves something unset. */
module Wrappers {

  datatype Option<+T> = None | Some(value: T)
}
