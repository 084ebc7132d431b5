/** Small value types shared by the modules of the bill-upload model. */
module Wrappers {

  /** A value that may be absent: a missing form field, an unset
      environment variable, a storage call that raises no exception. */
  datatype Option<+T> = None | Some(value: T)

  /** The outcome of a step that either yields a value or stops with an error. */
  datatype Result<+R, +E> = Success(value: R) | Failure(error: E)

  /** One octet of an uploaded file. */
  newtype byte = b: int | 0 <= b < 256

  type Bytes = seq<byte>
}
