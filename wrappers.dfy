/** The optional value used for results of the program's collaborators that may fail. */
module Wrappers {

  /** None stands for a failed call (an error return), Some(v) for a successful one. */
  datatype Option<+T> = None | Some(value: T)
}
