/** The optional-value type shared by every module of the model. */
module Wrappers {

  /** A value that may be absent: JavaScript's `undefined` is modelled as `None`. */
  datatype Option<+T> = None | Some(value: T)
}
