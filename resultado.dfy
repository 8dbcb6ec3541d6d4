/** Success/failure values shared by the stores: Go returns `(value, error)` pairs,
    modelled here as one value that is either the result or the error. */
module Resultado {

  datatype Option<T> = None | Some(value: T)

  /** `Ok(v)` is a nil `error`; `Err(e)` a non-nil one. */
  datatype Result<T, E> = Ok(value: T) | Err(error: E)
}
