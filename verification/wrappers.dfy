/** Values shared by the whole model: the Go `(value, error)` return convention and 32-bit process ids. */
module Wrappers {

  datatype Option<+T> = None | Some(value: T)

  /** `Success(v)` stands for a Go call returning `(v, nil)`, `Failure(e)` for one returning an error whose text is `e`. */
  datatype Result<+R, +E> = Success(value: R) | Failure(error: E)

  /** A process id as the source holds it: a 32-bit signed integer. */
  newtype Int32 = x: int | -0x8000_0000 <= x < 0x8000_0000
}
