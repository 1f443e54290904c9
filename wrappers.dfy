/** The source's `null` results and optional arguments. */
module Wrappers {
  datatype Option<+T> = None | Some(value: T)
}
