/** The optional and tagged-union values every public operation of the helper layer uses. */
module Results {

  /** An option bag field, or a parameter, that the caller may leave undefined. */
  datatype Option<T> = None | Some(value: T)

  /** Exactly one of a success carrying a value or a failure carrying an error. */
  datatype Result<T, E> = Success(value: T) | Failure(error: E)
}
