/** Small wrapper datatypes shared by every module of the model. */
module Wrappers {

  /** A value that may be absent: JavaScript's `undefined` / `null` for a field or a lookup. */
  datatype Option<+T> = None | Some(value: T) {
    function GetOr(default: T): T {
      match this
      case Some(v) => v
      case None => default
    }
  }

  /** How an awaited call ends: it resolves with a value, or it throws an `Error` with a message. */
  datatype Outcome<+T> = Done(value: T) | Threw(message: string)

  /** A dialog shown with `Alert.alert(title, message)`. */
  datatype Alert = Alert(title: string, message: string)
}
