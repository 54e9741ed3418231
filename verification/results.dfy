/** Failure-carrying values shared by the model.
    A Python `None` argument becomes `None`, and a raised exception becomes `Err`
    carrying the exception's message. */
module Results {

  /** An optional value: the `None`/value split of a Python keyword argument. */
  datatype Option<+T> = None | Some(value: T)

  /** Either a value or the message of the exception that replaced it. */
  datatype Result<+T> = Ok(value: T) | Err(error: string)
}
