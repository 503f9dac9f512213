/** The optional value used where the source tests a key with `??` or `isset`. */
module Wrappers {

  datatype Option<+T> = None | Some(value: T) {

    /** The wrapped value, or `otherwise` when there is none. */
    function GetOr(otherwise: T): T {
      match this
      case Some(v) => v
      case None => otherwise
    }
  }
}
