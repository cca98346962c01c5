/** Failure-carrying wrappers used throughout the model: `Option` for the
    ImgFlip client's "no match" and null cases, `Result` for a value or an exception. */
module Results {

  datatype Option<+T> = None | Some(value: T)

  datatype Result<+T, +E> = Success(value: T) | Failure(error: E)
}
