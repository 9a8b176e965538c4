/** The optional value used wherever the worker returns `null` or a field may be absent. */
module Wrappers {
  datatype Option<+T> = None | Some(value: T)
}
