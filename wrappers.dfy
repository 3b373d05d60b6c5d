/** The optional value used for results that a library call may fail to produce. */
module Wrappers {

  datatype Option<+T> = None | Some(value: T)
}
