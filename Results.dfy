/** Failure-compatible result types shared by every module of the model. */
module Results {

  /** A value that may be absent: Java's `Optional`, TypeScript's `T | null`. */
  datatype Option<+T> = None | Some(value: T)

  /** A computation that either yields a value or fails with an error (a thrown exception). */
  datatype Result<+T, +E> = Ok(value: T) | Err(error: E)

  /** A computation without a value that either passes or fails with an error (a rejected promise). */
  datatype Outcome<+E> = Pass | Fail(error: E)
}
