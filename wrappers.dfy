/** Option and Result, the two failure-carrying datatypes the rest of the model uses. */
module Wrappers {

  datatype Option<+T> = None | Some(value: T)

  datatype Result<+T, +E> = Ok(value: T) | Err(error: E)

  /** An HTTP error as the API reports it: a status code and a detail message. */
  datatype HttpError = HttpError(status: nat, detail: string)
}
