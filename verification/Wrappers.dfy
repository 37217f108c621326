/** The option type the readers return, and the two-case status of a handled message. */
module Wrappers {

  datatype Option<+T> = None | Some(value: T)

  datatype Status = Ok | Failure
}
