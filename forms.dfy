/** What the login, signup and profile-edit pages share: the observable
    effects of a submit, message selection, and the password rule. */
module Forms {
  import opened Wrappers
  import opened Api

  /** Observable effects of a submit handler, in the order they happen.
      `Sent` records the request together with the page's busy flag and error
      text at the moment it was issued. */
  datatype Effect =
    | Sent(request: Request, busy: bool, shownError: string)
    | UserRefreshed(lookup: Option<Request>)
    | Navigated(path: string)
    | NavigateLater(path: string)

  /** The text a `catch (err)` shows: the message of an `Error`, otherwise the
      page's own fallback. */
  function CaughtMessage(e: Thrown, fallback: string): (m: string)
    ensures e.ErrorObject? ==> m == e.message
    ensures e.OtherValue? ==> m == fallback
  {
    match e
    case ErrorObject(message) => message
    case OtherValue => fallback
  }

  /** The text shown for a response with `success == false`. */
  function RejectionMessage(message: string, fallback: string): (m: string)
    requires fallback != ""
    ensures m != ""
    ensures message != "" ==> m == message
    ensures message == "" ==> m == fallback
  {
    OrElse(message, fallback)
  }

  const MinPasswordLength := 6
  const PasswordMismatch := "비밀번호가 일치하지 않습니다."
  const PasswordTooShort := "비밀번호는 최소 6자 이상이어야 합니다."

  /** The password rule of the signup and profile forms: the mismatch is
      reported first, then a password shorter than six characters. */
  function PasswordProblem(password: string, confirm: string): (problem: Option<string>)
    ensures problem.None? <==> password == confirm && |password| >= MinPasswordLength
    ensures password != confirm ==> problem == Some(PasswordMismatch)
    ensures password == confirm && |password| < MinPasswordLength ==> problem == Some(PasswordTooShort)
  {
    if password != confirm then Some(PasswordMismatch)
    else if |password| < MinPasswordLength then Some(PasswordTooShort)
    else None
  }
}
