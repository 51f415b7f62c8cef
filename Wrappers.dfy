/** The optional value used wherever the source has a nullable reference or a
    `DateTime?`, and wherever a .NET call can fail (a TryParse, an overflow). */
module Wrappers {

  datatype Option<T> = None | Some(value: T) {

    /** The value, or the given default when there is none (the `??` operator). */
    function GetOr(default: T): T {
      match this
      case Some(v) => v
      case None => default
    }
  }
}
