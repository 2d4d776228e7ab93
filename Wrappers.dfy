/** The optional-value wrapper used across the model. */
module Wrappers {
  /** Python's `Optional[T]`: `None` or a present value. */
  datatype Option<+T> = None | Some(value: T)
}
