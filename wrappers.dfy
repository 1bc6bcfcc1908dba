/** Failure-carrying values shared by every module of the model. */
module Wrappers {

  /** A value that may be absent: `std::string::npos`, a missing map entry, a null pointer. */
  datatype Option<T> = None | Some(value: T)

  /** A value or the error the C++ code would report (a return code or a thrown exception). */
  datatype Result<T, E> = Ok(value: T) | Err(error: E)
}
