/** Failure-carrying results. A JavaScript promise that rejects is modelled by
    the `Failure`/`Fail` case, carrying the string form of the rejection. */
module Wrappers {

  datatype Option<+T> = None | Some(value: T)

  /** A promise that resolves to a value of type T, or rejects with a message. */
  datatype Result<+T> = Success(value: T) | Failure(error: string)

  /** A `Promise<void>` that resolves, or rejects with a message. */
  datatype Outcome = Pass | Fail(error: string)
}
