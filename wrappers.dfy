/** Failure-carrying values shared by the whole model. */
module Wrappers {

  /** A Java reference that may be null: `None` stands for null. */
  datatype Option<+T> = None | Some(value: T) {
    function GetOr(default: T): T {
      match this
      case Some(v) => v
      case None => default
    }
  }

  /** The outcome of a call into code this model cannot see: it returned a value or threw. */
  datatype Reply<+T> = Returned(value: T) | Threw

  /** The outcome of an operation of the modelled code that throws an exception of its own. */
  datatype Result<+T, +E> = Ok(value: T) | Err(error: E)
}
