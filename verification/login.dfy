/** The login page: the path to return to, the two-field form, and the submit handler that
    stores the session on success. */
module Login {
  import opened Common
  import opened Session

  datatype LoginForm = LoginForm(email: string, password: string)

  datatype LoginField = EmailField | PasswordField

  /** The `data` of a successful login answer. */
  datatype LoginResult = LoginResult(token: string, role: seq<string>)

  /** `state?.from?.pathname || "/home"`: where a guard sent the visitor from, else the home page. */
  function RedirectPath(fromPathname: Option<string>): (path: string)
    ensures path != ""
    ensures fromPathname.Some? && fromPathname.value != "" ==> path == fromPathname.value
    ensures fromPathname.None? || fromPathname.value == "" ==> path == "/home"
  {
    OrElse(fromPathname, "/home")
  }

  function FieldOf(form: LoginForm, field: LoginField): string {
    match field
    case EmailField => form.email
    case PasswordField => form.password
  }

  /** `{ ...formData, [name]: value }`. */
  function WithField(form: LoginForm, field: LoginField, value: string): (r: LoginForm)
    ensures FieldOf(r, field) == value
    ensures forall other :: other != field ==> FieldOf(r, other) == FieldOf(form, other)
  {
    match field
    case EmailField => form.(email := value)
    case PasswordField => form.(password := value)
  }

  const MissingCredentials := "Email and password are required"

  /** The check made before any request: both fields must be non-empty. */
  function LoginError(form: LoginForm): (e: Option<string>)
    ensures e.Some? <==> form.email == "" || form.password == ""
    ensures e.Some? ==> e.value == MissingCredentials
  {
    if form.email == "" || form.password == "" then Some(MissingCredentials) else None
  }

  class LoginPage {
    var form: LoginForm
    const redirectPath: string

    constructor (fromPathname: Option<string>)
      ensures form == LoginForm("", "")
      ensures redirectPath == RedirectPath(fromPathname)
    {
      form := LoginForm("", "");
      redirectPath := RedirectPath(fromPathname);
    }

    method HandleChange(field: LoginField, value: string)
      modifies this
      ensures form == WithField(old(form), field, value)
    {
      form := WithField(form, field, value);
    }

    /** `handleSubmit`: validate, send the credentials, and on a 200 answer save its token and
        role list and leave for the redirect path. On every other path the session is untouched. */
    method HandleSubmit(session: SessionStore, reply: Call<LoginResult>) returns (fx: Effects)
      modifies session
      ensures fx.sent <==> LoginError(form).None?
      ensures !fx.sent ==> fx.shown == LoginError(form) && fx.navigation.None?
      ensures fx.sent && reply.Returned? && IsOk(reply.response) && reply.response.data.Some? ==>
        && session.token == Some(reply.response.data.value.token)
        && session.roles == Some(reply.response.data.value.role)
        && fx == Effects(None, Some(GoToReplacing(redirectPath)), true)
      ensures fx.sent && reply.Returned? && !IsOk(reply.response) ==>
        fx.shown == Some(OrElse(reply.response.message, "Login failed")) && fx.navigation.None?
      ensures fx.sent && (reply.Threw? || (IsOk(reply.response) && reply.response.data.None?)) ==>
        fx.shown == Some("An error occurred during login") && fx.navigation.None?
      ensures fx.navigation.None? ==> session.token == old(session.token) && session.roles == old(session.roles)
    {
      var invalid := LoginError(form);
      if invalid.Some? {
        return Effects(invalid, None, false);
      }
      match reply
      case Threw(_) =>
        fx := Effects(Some("An error occurred during login"), None, true);
      case Returned(response) =>
        if IsOk(response) {
          match response.data
          case None =>
            // reading `response.data.token` throws, and the catch reports it
            fx := Effects(Some("An error occurred during login"), None, true);
          case Some(result) =>
            session.SaveToken(result.token);
            session.SaveRole(result.role);
            fx := Effects(None, Some(GoToReplacing(redirectPath)), true);
        } else {
          fx := Effects(Some(OrElse(response.message, "Login failed")), None, true);
        }
    }
  }
}
