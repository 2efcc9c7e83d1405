/** The optional value used for the calculator's active operation. */
module Wrappers {

  datatype Option<+T> = None | Some(value: T)
}
