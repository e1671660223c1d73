/** Failure-carrying wrappers shared by the model: `Option` stands for a Kotlin
    nullable value, `Result` for a value or a thrown exception. */
module Wrappers {

  /** A Kotlin `T?`: either absent (`null`) or present. */
  datatype Option<+T> = None | Some(value: T) {

    /** Kotlin's elvis operator `this ?: default`. */
    function GetOr(default: T): T
    {
      match this
      case Some(v) => v
      case None => default
    }
  }

  /** A computation that either yields a value or raises an error. */
  datatype Result<+R, +E> = Ok(value: R) | Err(error: E)
}
