/** The nullable results of the controller (`T | null`) as an option type. */
module Wrappers {
  datatype Option<+T> = None | Some(value: T)
}
