/** The optional values the calculator passes around: Python's `None` versus a number. */
module Wrappers {

  datatype Option<+T> = None | Some(value: T)
}
