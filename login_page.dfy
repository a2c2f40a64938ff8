/** `handleSubmit` of app/login/page.tsx. */
module LoginPage {
  import opened Wrappers
  import opened Api
  import opened Session
  import opened Forms

  const LoginRejected := "로그인에 실패했습니다."
  const LoginCrashed := "로그인 중 오류가 발생했습니다."

  class LoginPage {
    var email: string
    var password: string
    var error: string
    var loading: bool

    constructor ()
      ensures email == "" && password == "" && error == "" && !loading
    {
      email, password, error, loading := "", "", "", false;
    }

    /** Submits the form; `answer` is the login response and `lookup` the
        answer to the `refreshUser` that follows a successful login. */
    method HandleSubmit(auth: AuthProvider, answer: Network<AuthResponse>, lookup: Network<ApiResponse<User>>)
      returns (log: seq<Effect>)
      modifies this, auth, auth.storage
      ensures email == old(email) && password == old(password) && !loading
      ensures |log| >= 1
      ensures log[0] == Sent(Prepare(old(auth.storage.Model()), auth.env, "/auth/login",
                                     RequestInit(POST, map[], Some(LoginBody(LoginData(email, password))))),
                             true, "")
      ensures var out := Settle(answer);
              var issued := old(auth.Model()).(store := Persist(old(auth.storage.Model()), out));
              match out
              case Returned(response) =>
                if response.success then
                  && log == [log[0], UserRefreshed(LookupFor(issued.store, auth.env)), Navigated("/")]
                  && auth.Model() == Refreshed(issued, lookup)
                  && error == ""
                else
                  && log == [log[0]]
                  && auth.Model() == issued
                  && error == RejectionMessage(response.message, LoginRejected)
              case Threw(e) =>
                && log == [log[0]]
                && auth.Model() == issued
                && error == CaughtMessage(e, LoginCrashed)
    {
      error := "";
      loading := true;
      var req, out := Login(auth.storage, auth.env, LoginData(email, password), answer);
      log := [Sent(req, loading, error)];
      match out {
        case Returned(response) =>
          if response.success {
            var me := auth.RefreshUser(lookup);
            log := log + [UserRefreshed(me), Navigated("/")];
          } else {
            error := RejectionMessage(response.message, LoginRejected);
          }
        case Threw(e) =>
          error := CaughtMessage(e, LoginCrashed);
      }
      loading := false;
    }
  }
}
