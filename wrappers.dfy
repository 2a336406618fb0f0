/** Option and Result, modelling Java's null references and exceptions. */
module Wrappers {

  /** A Java reference that may be null: None models null. */
  datatype Option<+T> = None | Some(value: T) {
    function GetOr(default: T): T {
      match this
      case Some(v) => v
      case None => default
    }
  }

  /** A computation that returns normally (Ok) or throws the exception in Err. */
  datatype Result<+T, +E> = Ok(value: T) | Err(error: E)
}
