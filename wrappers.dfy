/** Option and outcome values used across the model. */
module Wrappers {

  datatype Option<+T> = None | Some(value: T)

  /** The outcome of a step that either completes or raises an error carrying `error`. */
  datatype Outcome<+E> = Pass | Fail(error: E)
}
