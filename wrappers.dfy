/** The optional value used for JavaScript's `null`/`undefined` and for a handler that emits no event. */
module Wrappers {
  datatype Option<+T> = None | Some(value: T)
}
