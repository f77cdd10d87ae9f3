/** Small result types shared by the whole model. */
module Wrappers {

  /** A value that may be missing: `null`/`undefined` in the application. */
  datatype Option<+T> = None | Some(value: T) {
    function GetOr(default: T): T {
      match this
      case Some(v) => v
      case None => default
    }
  }

  /** What an Observable returned by a store method delivers: one value, or an error. */
  datatype Outcome<+T> = Next(value: T) | Error

  /** A `router.navigate(commands)` call made by an operation, or none. */
  datatype Nav = NoNav | Navigate(commands: seq<string>)

  /** What a form handler does for the user: the `alert` text it shows (if any), and where it navigates. */
  datatype Feedback = Feedback(alert: Option<string>, nav: Nav)
}
