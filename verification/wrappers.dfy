/** The optional-value datatype used for "routed somewhere" versus "dropped". */
module Wrappers {

  datatype Option<+T> = None | Some(value: T)
}
