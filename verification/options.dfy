/** Absent values and thrown errors of the TypeScript code, made explicit. */
module Options {

  /** `null` / `undefined` versus a present value. */
  datatype Option<T> = None | Some(value: T)

  /** A call that returns a value or throws an error. */
  datatype Result<T, E> = Success(value: T) | Failure(error: E)
}
