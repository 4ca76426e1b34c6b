/** The optional-value datatype used by the parsers and the frame input. */
module Wrappers {

  datatype Option<+T> = None | Some(value: T)
}
