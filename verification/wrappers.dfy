/** Failure-carrying datatypes shared by the arcade client model. */
module Wrappers {

  /** A value that may be absent: a store node that does not exist, an unset field. */
  datatype Option<+T> = None | Some(value: T) {

    /** The value if present, `default` otherwise. */
    function GetOr(default: T): T {
      match this
      case Some(v) => v
      case None => default
    }
  }

  /** The outcome of a handler: a value, or the error it reports to the user. */
  datatype Result<+R, +E> = Ok(value: R) | Err(error: E)

  /** What a read-modify-write handler does to a store node: nothing, or a full overwrite. */
  datatype Action<+T> = NoWrite | Write(written: T)
}
