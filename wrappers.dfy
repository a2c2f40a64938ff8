/** Small value types shared by every module: optional values and the two ways
    an awaited JavaScript call can end. */
module Wrappers {

  datatype Option<+T> = None | Some(value: T) {
    function GetOr(default: T): T {
      match this
      case Some(v) => v
      case None => default
    }
  }

  /** A value a JavaScript `throw` produced: an `Error` object carries a
      message; anything else (a string, a plain object) is not an `Error`. */
  datatype Thrown = ErrorObject(message: string) | OtherValue

  /** How an awaited call ends: it returns a value or it throws. */
  datatype Outcome<+T> = Returned(value: T) | Threw(thrown: Thrown)

  /** JavaScript truthiness of a value that is a string or absent
      (`null`/`undefined`): present and not the empty string. */
  predicate Truthy(s: Option<string>) {
    s.Some? && s.value != ""
  }

  /** JavaScript `a || b` on two strings. */
  function OrElse(a: string, b: string): string {
    if a != "" then a else b
  }
}
