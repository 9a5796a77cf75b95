/** Option and Result: the absent value and the stage failure of the pipeline. */
module Wrappers {

  datatype Option<+T> = None | Some(value: T) {
    /** The carried value, or `default` when there is none (Python's `x or default`). */
    function GetOr(default: T): T {
      match this
      case Some(v) => v
      case None => default
    }
  }

  /** A stage either returns its trace or fails with a description of the error. */
  datatype Result<+T> = Success(value: T) | Failure(error: string)
}
