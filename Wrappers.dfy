/** The usual optional-value datatype, standing for a value that may be `null`. */
module Wrappers {

  datatype Option<+T> = None | Some(value: T)
}
