/** Value types shared by every module of the model: Kotlin's 32-bit `Int`,
    nullable values and callback outcomes. */
module Common {

  /** Kotlin `Int`. Request codes and result codes are compared, never computed,
      so no wrap-around arithmetic is needed. */
  newtype int32 = x: int | -0x8000_0000 <= x < 0x8000_0000

  /** A Kotlin nullable value: `None` is `null`. */
  datatype Option<+T> = None | Some(value: T) {

    /** Kotlin's elvis operator `this ?: default`. */
    function OrElse(default: T): T {
      match this
      case Some(v) => v
      case None => default
    }
  }

  /** A value or an error, as delivered to a success / failure callback pair. */
  datatype Result<+T, +E> = Success(value: T) | Failure(error: E)
}
