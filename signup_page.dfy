/** `handleChange` and `handleSubmit` of app/signup/page.tsx. */
module SignupPage {
  import opened Wrappers
  import opened Api
  import opened Session
  import opened Forms

  const SignupRejected := "회원가입에 실패했습니다."
  const SignupCrashed := "회원가입 중 오류가 발생했습니다."

  datatype SignupForm = SignupForm(
    email: string, password: string, passwordConfirm: string,
    name: string, phoneNumber: string, managementCode: string)

  /** The `name` attributes of the form's inputs. */
  datatype SignupField = Email | Password | PasswordConfirm | Name | PhoneNumber | ManagementCode

  function FieldOf(f: SignupForm, k: SignupField): string {
    match k
    case Email => f.email
    case Password => f.password
    case PasswordConfirm => f.passwordConfirm
    case Name => f.name
    case PhoneNumber => f.phoneNumber
    case ManagementCode => f.managementCode
  }

  /** `{...prev, [name]: value}`: the named field takes the value, every
      other field keeps its own. */
  function WithField(f: SignupForm, k: SignupField, value: string): (r: SignupForm)
    ensures FieldOf(r, k) == value
    ensures forall j :: j != k ==> FieldOf(r, j) == FieldOf(f, j)
  {
    match k
    case Email => f.(email := value)
    case Password => f.(password := value)
    case PasswordConfirm => f.(passwordConfirm := value)
    case Name => f.(name := value)
    case PhoneNumber => f.(phoneNumber := value)
    case ManagementCode => f.(managementCode := value)
  }

  /** The body `handleSubmit` sends: every field except `passwordConfirm`. */
  function SignupRequestBody(f: SignupForm): (d: SignupData)
    ensures d.email == f.email && d.password == f.password
    ensures d.name == Some(f.name) && d.phoneNumber == Some(f.phoneNumber)
    ensures d.managementCode == Some(f.managementCode)
  {
    SignupData(f.email, f.password, Some(f.name), Some(f.phoneNumber), Some(f.managementCode))
  }

  class SignupPage {
    var form: SignupForm
    var error: string
    var loading: bool

    constructor ()
      ensures form == SignupForm("", "", "", "", "", "") && error == "" && !loading
    {
      form := SignupForm("", "", "", "", "", "");
      error, loading := "", false;
    }

    method HandleChange(k: SignupField, value: string)
      modifies this
      ensures form == WithField(old(form), k, value)
      ensures error == old(error) && loading == old(loading)
    {
      form := WithField(form, k, value);
    }

    /** Submits the form; `answer` is the signup response and `lookup` the
        answer to the `refreshUser` that follows a successful signup. */
    method HandleSubmit(auth: AuthProvider, answer: Network<AuthResponse>, lookup: Network<ApiResponse<User>>)
      returns (log: seq<Effect>)
      modifies this, auth, auth.storage
      ensures form == old(form)
      ensures var problem := PasswordProblem(form.password, form.passwordConfirm);
              problem.Some? ==>
                && error == problem.value && log == []
                && loading == old(loading) && auth.Model() == old(auth.Model())
      ensures var problem := PasswordProblem(form.password, form.passwordConfirm);
              problem.None? ==>
                && !loading
                && |log| >= 1
                && log[0] == Sent(Prepare(old(auth.storage.Model()), auth.env, "/auth/signup",
                                          RequestInit(POST, map[], Some(SignupBody(SignupRequestBody(form))))),
                                  true, "")
                && var out := Settle(answer);
                   var issued := old(auth.Model()).(store := Persist(old(auth.storage.Model()), out));
                   match out
                   case Returned(response) =>
                     if response.success then
                       && log == [log[0], UserRefreshed(LookupFor(issued.store, auth.env)), Navigated("/")]
                       && auth.Model() == Refreshed(issued, lookup)
                       && error == ""
                     else
                       && log == [log[0]]
                       && auth.Model() == issued
                       && error == RejectionMessage(response.message, SignupRejected)
                   case Threw(e) =>
                     && log == [log[0]]
                     && auth.Model() == issued
                     && error == CaughtMessage(e, SignupCrashed)
    {
      error := "";
      log := [];
      if form.password != form.passwordConfirm {
        error := PasswordMismatch;
        return;
      }
      if |form.password| < MinPasswordLength {
        error := PasswordTooShort;
        return;
      }
      loading := true;
      var req, out := Signup(auth.storage, auth.env, SignupRequestBody(form), answer);
      log := [Sent(req, loading, error)];
      match out {
        case Returned(response) =>
          if response.success {
            var me := auth.RefreshUser(lookup);
            log := log + [UserRefreshed(me), Navigated("/")];
          } else {
            error := RejectionMessage(response.message, SignupRejected);
          }
        case Threw(e) =>
          error := CaughtMessage(e, SignupCrashed);
      }
      loading := false;
    }
  }
}
