/** Option and Result: the model's stand-ins for Java's `null` and for exceptions. */
module Wrappers {

  /** `None` plays the part of a Java `null` reference. */
  datatype Option<+T> = None | Some(value: T) {
    function GetOr(default: T): T {
      match this
      case Some(v) => v
      case None => default
    }
  }

  /** The runtime exceptions the modelled Java code can raise. */
  datatype JavaError =
    | NullPointer        // java.lang.NullPointerException from Objects.requireNonNull
    | IndexOutOfBounds   // java.lang.StringIndexOutOfBoundsException from substring

  datatype Result<+R> = Success(value: R) | Failure(error: JavaError)
}
