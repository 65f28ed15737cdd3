/** The registration page: two password checks in a fixed order, then the
    register request with the form's fields except the confirmation. */
module Register {
  import opened Outcomes
  import Api
  import JsString

  /** The options of the role `<select>`. */
  datatype RoleOption = StaffOption | ManagerOption | AdminOption

  function RoleValue(o: RoleOption): string
  {
    match o
    case StaffOption => "staff"
    case ManagerOption => "manager"
    case AdminOption => "admin"
  }

  const DefaultRole := "staff"

  /** The values the role field can hold: the default and the options. */
  predicate SelectableRole(role: string)
  {
    role == "staff" || role == "manager" || role == "admin"
  }

  /** Every option yields a selectable role, and different options different
      roles. */
  lemma RoleOptionsDistinct(a: RoleOption, b: RoleOption)
    ensures SelectableRole(RoleValue(a))
    ensures RoleValue(a) == RoleValue(b) ==> a == b
  {
  }

  datatype RegisterForm = RegisterForm(
    username: string, email: string, password: string, confirmPassword: string, role: string)

  const EmptyForm := RegisterForm("", "", "", "", DefaultRole)

  const PasswordsDiffer := "Passwords do not match!"
  const PasswordTooShort := "Password must be at least 8 characters long!"
  const RegistrationFailed := "Registration failed. Please try again."
  const RegistrationSucceeded := "Registration successful! Please login."
  const MinPasswordLength := 8
  const LoginPath := "/login"

  /** The client-side checks, in their order: the mismatch check first, the
      length check (on JavaScript's UTF-16 length) second. */
  function Validate(form: RegisterForm): (problem: Option<string>)
    ensures problem == Some(PasswordsDiffer) <==> form.password != form.confirmPassword
    ensures problem == Some(PasswordTooShort) <==>
      form.password == form.confirmPassword && JsString.Utf16Length(form.password) < MinPasswordLength
    ensures problem == None <==>
      form.password == form.confirmPassword && JsString.Utf16Length(form.password) >= MinPasswordLength
  {
    if form.password != form.confirmPassword then Some(PasswordsDiffer)
    else if JsString.Utf16Length(form.password) < MinPasswordLength then Some(PasswordTooShort)
    else None
  }

  /** A short password that also differs from its confirmation is reported
      as a mismatch: the first check wins. */
  lemma MismatchReportedFirst(form: RegisterForm)
    requires form.password != form.confirmPassword
    requires JsString.Utf16Length(form.password) < MinPasswordLength
    ensures Validate(form) == Some(PasswordsDiffer)
  {
  }

  /** The register request body: four fields copied from the form; the
      confirmation is never sent. */
  function Payload(form: RegisterForm): (b: Api.Body)
    ensures b.Keys == {"username", "email", "password", "role"}
    ensures "confirmPassword" !in b
    ensures b["username"] == form.username && b["email"] == form.email
    ensures b["password"] == form.password && b["role"] == form.role
  {
    map["username" := form.username, "email" := form.email,
        "password" := form.password, "role" := form.role]
  }

  class RegisterPage {
    var form: RegisterForm
    var error: string
    var loading: bool

    /** The role field only ever holds a role the form offers. */
    ghost predicate Valid()
      reads this
    {
      SelectableRole(form.role)
    }

    constructor ()
      ensures Valid()
      ensures form == EmptyForm && error == "" && !loading
    {
      form := EmptyForm;
      error := "";
      loading := false;
    }

    /** The change handlers of the four text inputs. */
    method EditText(username: string, email: string, password: string, confirmPassword: string)
      requires Valid()
      modifies this
      ensures Valid()
      ensures form == RegisterForm(username, email, password, confirmPassword, old(form).role)
      ensures error == old(error) && loading == old(loading)
    {
      form := RegisterForm(username, email, password, confirmPassword, form.role);
    }

    /** The role select's change handler. */
    method ChooseRole(option: RoleOption)
      requires Valid()
      modifies this
      ensures Valid()
      ensures form == old(form).(role := RoleValue(option))
      ensures error == old(error) && loading == old(loading)
    {
      form := form.(role := RoleValue(option));
    }

    /** The part of `handleSubmit` before the await. The error is cleared
        first; a failed check sets its message and sends nothing; only when
        both checks pass is loading switched on and the request issued. */
    method BeginSubmit() returns (sent: Option<Api.Endpoint>)
      modifies this
      ensures form == old(form)
      ensures Validate(form).Some? ==>
        sent == None && error == Validate(form).value && loading == old(loading)
      ensures Validate(form).None? ==>
        sent == Some(Api.Register(Payload(form))) && error == "" && loading
    {
      error := "";
      if form.password != form.confirmPassword {
        error := PasswordsDiffer;
        return None;
      }
      if JsString.Utf16Length(form.password) < MinPasswordLength {
        error := PasswordTooShort;
        return None;
      }
      loading := true;
      sent := Some(Api.Register(Payload(form)));
    }

    /** The part after the await: on success a notice and navigation to the
        login page, on failure the server's message or the fallback. Loading
        ends either way; the form is kept. */
    method CompleteSubmit(response: Outcome<()>) returns (notice: Option<string>, navigation: Option<string>)
      modifies this
      ensures form == old(form) && !loading
      ensures response.Ok? ==>
        notice == Some(RegistrationSucceeded) && navigation == Some(LoginPath) && error == old(error)
      ensures response.Err? ==>
        notice == None && navigation == None && error == ErrorText(response.serverError, RegistrationFailed)
    {
      if response.Ok? {
        notice, navigation := Some(RegistrationSucceeded), Some(LoginPath);
      } else {
        notice, navigation := None, None;
        error := ErrorText(response.serverError, RegistrationFailed);
      }
      loading := false;
    }

    /** `handleSubmit` as a whole; the server's answer is consulted only when
        a request was sent. */
    method HandleSubmit(response: Outcome<()>)
      returns (sent: Option<Api.Endpoint>, notice: Option<string>, navigation: Option<string>)
      modifies this
      ensures form == old(form)
      ensures Validate(form).Some? ==>
        && sent == None && notice == None && navigation == None
        && error == Validate(form).value && loading == old(loading)
      ensures Validate(form).None? ==>
        && sent == Some(Api.Register(Payload(form))) && !loading
        && (response.Ok? ==> error == "" && notice == Some(RegistrationSucceeded) && navigation == Some(LoginPath))
        && (response.Err? ==>
              error == ErrorText(response.serverError, RegistrationFailed) && notice == None && navigation == None)
    {
      sent := BeginSubmit();
      if sent.None? {
        return sent, None, None;
      }
      notice, navigation := CompleteSubmit(response);
    }
  }
}
