/** The Option type used for values the program keeps as Python `None` until first set. */
module Wrappers {

  datatype Option<+T> = None | Some(value: T)
}
