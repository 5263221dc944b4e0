/** The self-service registration page: a six-field form, its check chain, the payload it
    sends (without the confirmation), and the reset after success. */
module Register {
  import opened Common

  datatype RegisterForm = RegisterForm(
    email: string,
    password: string,
    confirmPassword: string,
    name: string,
    phoneNumber: string,
    address: string)

  datatype RegisterField = Email | Password | ConfirmPassword | Name | PhoneNumber | Address

  /** What `registerUser` receives. */
  datatype RegistrationPayload = RegistrationPayload(
    email: string,
    password: string,
    name: string,
    phoneNumber: string,
    address: string)

  const EmptyForm := RegisterForm("", "", "", "", "", "")

  function FieldOf(form: RegisterForm, field: RegisterField): string {
    match field
    case Email => form.email
    case Password => form.password
    case ConfirmPassword => form.confirmPassword
    case Name => form.name
    case PhoneNumber => form.phoneNumber
    case Address => form.address
  }

  /** `{ ...prevData, [name]: value }`. */
  function WithField(form: RegisterForm, field: RegisterField, value: string): (r: RegisterForm)
    ensures FieldOf(r, field) == value
    ensures forall other :: other != field ==> FieldOf(r, other) == FieldOf(form, other)
  {
    match field
    case Email => form.(email := value)
    case Password => form.(password := value)
    case ConfirmPassword => form.(confirmPassword := value)
    case Name => form.(name := value)
    case PhoneNumber => form.(phoneNumber := value)
    case Address => form.(address := value)
  }

  const FieldsRequired := "All fields are required"
  const PasswordsDiffer := "Passwords do not match"

  /** The early-return chain of `handleSubmit`: every field filled, then matching passwords. */
  function RegistrationError(form: RegisterForm): (e: Option<string>)
    ensures e == Some(FieldsRequired) <==> exists f :: FieldOf(form, f) == ""
    ensures e == Some(PasswordsDiffer) <==>
      (forall f :: FieldOf(form, f) != "") && form.password != form.confirmPassword
    ensures e.None? <==> (forall f :: FieldOf(form, f) != "") && form.password == form.confirmPassword
  {
    if form.email == "" || form.password == "" || form.confirmPassword == ""
      || form.name == "" || form.phoneNumber == "" || form.address == ""
    then
      assert FieldOf(form, Email) == "" || FieldOf(form, Password) == ""
        || FieldOf(form, ConfirmPassword) == "" || FieldOf(form, Name) == ""
        || FieldOf(form, PhoneNumber) == "" || FieldOf(form, Address) == "";
      Some(FieldsRequired)
    else if form.password != form.confirmPassword then
      assert forall f :: FieldOf(form, f) != "";
      Some(PasswordsDiffer)
    else
      assert forall f :: FieldOf(form, f) != "";
      None
  }

  /** The payload copies five fields and leaves the confirmation out. */
  function Payload(form: RegisterForm): (p: RegistrationPayload)
    ensures p.email == form.email && p.password == form.password && p.name == form.name
    ensures p.phoneNumber == form.phoneNumber && p.address == form.address
  {
    RegistrationPayload(form.email, form.password, form.name, form.phoneNumber, form.address)
  }

  class RegisterPage {
    var form: RegisterForm

    constructor ()
      ensures form == EmptyForm
    {
      form := EmptyForm;
    }

    method HandleChange(field: RegisterField, value: string)
      modifies this
      ensures form == WithField(old(form), field, value)
    {
      form := WithField(form, field, value);
    }

    /** `handleSubmit`: returns the payload it sends, if any. */
    method HandleSubmit(reply: Call<()>) returns (sent: Option<RegistrationPayload>, fx: Effects)
      modifies this
      ensures sent.Some? <==> RegistrationError(old(form)).None?
      ensures fx.sent == sent.Some?
      ensures sent.Some? ==> sent.value == Payload(old(form))
      ensures sent.None? ==> fx.shown == RegistrationError(old(form)) && form == old(form) && fx.navigation.None?
      ensures sent.Some? && reply.Returned? && IsOk(reply.response) ==>
        form == EmptyForm && fx.navigation == Some(GoTo("/login")) && fx.shown.None?
      ensures sent.Some? && reply.Returned? && !IsOk(reply.response) ==>
        form == old(form) && fx.navigation.None?
        && fx.shown == Some(OrElse(reply.response.message, "Registration failed. Please try again."))
      ensures sent.Some? && reply.Threw? ==>
        form == old(form) && fx.navigation.None?
        && fx.shown == Some("Registration failed. Please try again later.")
    {
      var invalid := RegistrationError(form);
      if invalid.Some? {
        return None, Effects(invalid, None, false);
      }
      sent := Some(Payload(form));
      match reply
      case Threw(_) =>
        fx := Effects(Some("Registration failed. Please try again later."), None, true);
      case Returned(response) =>
        if IsOk(response) {
          form := EmptyForm;
          fx := Effects(None, Some(GoTo("/login")), true);
        } else {
          fx := Effects(Some(OrElse(response.message, "Registration failed. Please try again.")), None, true);
        }
    }
  }
}
