/**
 * The application's error family: `DefaultError` and its two subclasses
 * `AuthError` and `NotFoundError`, as one closed datatype. Every variant is
 * a `DefaultError` (the subclasses extend it), and each answers the same
 * three questions: its name, its HTTP code and its message.
 */
module Errors {
  import opened Values

  datatype AppError =
    | DefaultError(name: string, code: int, message: string)
    | AuthError(message: string)
    | NotFoundError(message: string)
  {
    /** The `name` property. */
    function Name(): (n: string) {
      match this
      case DefaultError(n, _, _) => n
      case AuthError(_) => "AuthError"
      case NotFoundError(_) => "NotFoundError"
    }

    /** The `code` property. */
    function Code(): (c: int) {
      match this
      case DefaultError(_, c, _) => c
      case AuthError(_) => 401
      case NotFoundError(_) => 404
    }
  }

  /** The message `AuthError` falls back to when it is given none. */
  const UnauthorizedMessage: string := "Unauthorized"

  /** `message` of `new Error(m)`: the empty string when `m` is undefined. */
  function ErrorMessage(m: Option<string>): (s: string) {
    match m
    case Some(s) => s
    case None => ""
  }

  /** `new DefaultError({ name, code, message })`; an undefined message gives "". */
  function NewDefaultError(name: string, code: int, message: Option<string>): (e: AppError)
    ensures e.Name() == name && e.Code() == code
    ensures message.Some? ==> e.message == message.value
    ensures message.None? ==> e.message == ""
  {
    DefaultError(name, code, ErrorMessage(message))
  }

  /** `new AuthError(message)`; an undefined message defaults to "Unauthorized". */
  function NewAuthError(message: Option<string>): (e: AppError)
    ensures e.Name() == "AuthError" && e.Code() == 401
    ensures message.Some? ==> e.message == message.value
    ensures message.None? ==> e.message == UnauthorizedMessage
  {
    AuthError(if message.Some? then message.value else UnauthorizedMessage)
  }

  /** `new NotFoundError(message)`; there is no default, so undefined gives "". */
  function NewNotFoundError(message: Option<string>): (e: AppError)
    ensures e.Name() == "NotFoundError" && e.Code() == 404
    ensures e.message == ErrorMessage(message)
  {
    NotFoundError(ErrorMessage(message))
  }
}
