/** The optional value used for the response fields that the handler may leave unset. */
module Wrappers {

  /** `None` stands for a property that was never assigned on the JavaScript object
      (and is therefore absent from the serialised response). */
  datatype Option<+T> = None | Some(value: T) {

    /** The value if present, otherwise `default`. */
    function GetOr(default: T): T {
      match this
      case Some(v) => v
      case None => default
    }
  }
}
