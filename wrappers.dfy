/** Option and Result, the model's stand-ins for Python's None and for exceptions. */
module Wrappers {

  /** `None` is Python's `None`; `Some(v)` is a present value. */
  datatype Option<+T> = None | Some(value: T)

  /** `Err` stands for an exception raised by the operation. */
  datatype Result<+T, +E> = Ok(value: T) | Err(error: E)
}
