/** The usual optional-value wrapper, standing for a possibly-null pointer. */
module Wrappers {

  datatype Option<+T> = None | Some(value: T)
}
