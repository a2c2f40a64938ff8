/** The redirect/prefill effect, `handleChange` and `handleSubmit` of
    app/profile/edit/page.tsx. The page does not call the backend yet. */
module ProfileEditPage {
  import opened Wrappers
  import opened Api
  import opened Forms

  const ProfileUpdated := "회원정보가 수정되었습니다."

  datatype ProfileForm = ProfileForm(
    name: string, phoneNumber: string, managementCode: string,
    password: string, passwordConfirm: string)

  datatype ProfileField = Name | PhoneNumber | ManagementCode | Password | PasswordConfirm

  function FieldOf(f: ProfileForm, k: ProfileField): string {
    match k
    case Name => f.name
    case PhoneNumber => f.phoneNumber
    case ManagementCode => f.managementCode
    case Password => f.password
    case PasswordConfirm => f.passwordConfirm
  }

  function WithField(f: ProfileForm, k: ProfileField, value: string): (r: ProfileForm)
    ensures FieldOf(r, k) == value
    ensures forall j :: j != k ==> FieldOf(r, j) == FieldOf(f, j)
  {
    match k
    case Name => f.(name := value)
    case PhoneNumber => f.(phoneNumber := value)
    case ManagementCode => f.(managementCode := value)
    case Password => f.(password := value)
    case PasswordConfirm => f.(passwordConfirm := value)
  }

  /** The password is checked only when one of the two password fields is
      filled in; then the shared rule applies. */
  function ProfileProblem(f: ProfileForm): (problem: Option<string>)
    ensures problem.None? <==>
              f.password == f.passwordConfirm && (f.password == "" || |f.password| >= MinPasswordLength)
    ensures f.password == "" && f.passwordConfirm == "" ==> problem.None?
    ensures f.password != f.passwordConfirm ==> problem == Some(PasswordMismatch)
    ensures f.password == f.passwordConfirm && f.password != "" && |f.password| < MinPasswordLength ==>
              problem == Some(PasswordTooShort)
  {
    if f.password != "" || f.passwordConfirm != "" then PasswordProblem(f.password, f.passwordConfirm)
    else None
  }

  class ProfileEditPage {
    var form: ProfileForm
    var error: string
    var success: string
    var submitting: bool

    constructor ()
      ensures form == ProfileForm("", "", "", "", "") && error == "" && success == "" && !submitting
    {
      form := ProfileForm("", "", "", "", "");
      error, success, submitting := "", "", false;
    }

    /** The effect that runs whenever the session's `user` or `loading`
        changes: send an anonymous visitor to the login page, prefill the
        name of a signed-in one. */
    method OnSession(user: Option<User>, loading: bool) returns (redirect: Option<string>)
      modifies this
      ensures !loading && user.None? ==> redirect == Some("/login") && form == old(form)
      ensures user.Some? ==> redirect == None && form == old(form).(name := user.value.name)
      ensures loading && user.None? ==> redirect == None && form == old(form)
      ensures error == old(error) && success == old(success) && submitting == old(submitting)
    {
      redirect := None;
      if !loading && user.None? {
        redirect := Some("/login");
      } else if user.Some? {
        form := form.(name := user.value.name);
      }
    }

    method HandleChange(k: ProfileField, value: string)
      modifies this
      ensures form == WithField(old(form), k, value)
      ensures error == old(error) && success == old(success) && submitting == old(submitting)
    {
      form := WithField(form, k, value);
    }

    /** Submits the form; on success it schedules the move to "/profile". */
    method HandleSubmit() returns (log: seq<Effect>)
      modifies this
      ensures form == old(form)
      ensures ProfileProblem(form).Some? ==>
                && error == ProfileProblem(form).value && success == ""
                && log == [] && submitting == old(submitting)
      ensures ProfileProblem(form).None? ==>
                && error == "" && success == ProfileUpdated
                && log == [NavigateLater("/profile")] && !submitting
    {
      error := "";
      success := "";
      log := [];
      if form.password != "" || form.passwordConfirm != "" {
        if form.password != form.passwordConfirm {
          error := PasswordMismatch;
          return;
        }
        if |form.password| < MinPasswordLength {
          error := PasswordTooShort;
          return;
        }
      }
      submitting := true;
      success := ProfileUpdated;
      log := [NavigateLater("/profile")];
      submitting := false;
    }
  }
}
