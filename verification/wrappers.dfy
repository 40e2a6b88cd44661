/** Failure-carrying values: Option stands for Java's nullable references and
    for "this step threw", Result for a save that is refused with a reason. */
module Wrappers {

  datatype Option<+T> = None | Some(value: T) {
    function GetOr(default: T): T {
      match this
      case Some(v) => v
      case None => default
    }
  }

  datatype Result<+T, +E> = Ok(value: T) | Err(error: E)
}
