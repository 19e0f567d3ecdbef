/** The optional value used where the program returns a value or Python's `None`. */
module Wrappers {

  datatype Option<+T> = None | Some(value: T)
}
