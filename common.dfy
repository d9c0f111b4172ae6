/** Error kinds and the result type shared by the recommendation engine. */
module Common {

  /** `BadInput` is the engine's own `BadInputError`; `KeyMissing` stands for the
      `KeyError` that a dictionary lookup on an unknown movie id raises. */
  datatype Error = BadInput | KeyMissing

  datatype Result<T> = Ok(value: T) | Err(error: Error)
}
