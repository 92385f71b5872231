/** Values that may be missing, and operations that may raise. */
module Wrappers {
  datatype Option<+T> = None | Some(value: T)

  datatype Error = ValueError | RuntimeError | IndexError | StructError

  datatype Result<+T> = Ok(value: T) | Raise(error: Error)
}
