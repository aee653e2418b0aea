/** Option and Result, used for Java's nullable values and for failures. */
module Wrappers {

  /** An optional value: `None` stands for a Java `null`, i.e. "never set". */
  datatype Option<+T> = None | Some(value: T) {

    /** The value, or `default` when there is none. */
    function GetOr(default: T): T
    {
      match this
      case Some(v) => v
      case None => default
    }
  }

  /** Either a value or the error that prevented it. */
  datatype Result<+T, +E> = Success(value: T) | Failure(error: E)
}
