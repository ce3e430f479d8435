/** The optional-value type used for the source's nullable fields (`T | null`). */
module Wrappers {

  datatype Option<+T> = None | Some(value: T)
}
