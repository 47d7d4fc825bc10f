/** The Option datatype used for values JavaScript may leave out (null or undefined). */
module Wrappers {

  datatype Option<+T> = None | Some(value: T)
}
