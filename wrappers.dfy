/** The one optional-value type the model needs: a parsed number that may be NaN, a stored record
    that may be absent, a batch request that a message may or may not start. */
module Wrappers {
  datatype Option<+T> = None | Some(value: T)
}
