/** The two failure-carrying results used throughout the model. */
module Wrappers {

  datatype Option<+T> = None | Some(value: T)

  /** A remote query either answers or fails; which error it failed with never matters to a caller. */
  datatype Result<+T> = Ok(value: T) | Err

  /** The answer to the `i`-th query of a batch. Queries beyond the recorded answers failed. */
  function Answer<T>(answers: seq<Result<T>>, i: nat): Result<T> {
    if i < |answers| then answers[i] else Err
  }
}
