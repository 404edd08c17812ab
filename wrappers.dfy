/** The optional-value datatype used where the planner may produce nothing. */
module Wrappers {
  datatype Option<+T> = None | Some(value: T)
}
