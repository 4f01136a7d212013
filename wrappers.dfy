/** Shared optional-value type: a query parameter, a header or a quote that may be absent. */
module Wrappers {
  datatype Option<+T> = None | Some(value: T)
}
