/** Values shared by the browser component and the analysis service. */
module Common {

  /** A value that may be absent: JavaScript's `undefined` or Python's `None`. */
  datatype Option<+T> = None | Some(value: T)

  /** What a call into a library outside the model produced: a value, or an exception with its message. */
  datatype Outcome<+T> = Done(value: T) | Raised(message: string)

  /** A value or the error that stopped its computation. */
  datatype Result<+T, +E> = Success(value: T) | Failure(error: E)

  type Bytes = seq<bv8>

  /** A file as the browser hands it over and as the service receives it in a multipart body. */
  datatype FileHandle = FileHandle(name: string, contentType: string, content: Bytes)
}
