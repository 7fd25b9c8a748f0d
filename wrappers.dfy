/** The Some/None datatype that stands in for a nullable Java reference. */
module Wrappers {

  datatype Option<+T> = None | Some(value: T)
}
