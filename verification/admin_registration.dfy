/** The administrator's registration page: the five text fields, the role checkboxes that
    toggle membership in the role list, the check chain, and the submit handler. */
module AdminRegistration {
  import opened Common
  import opened Seqs

  /** `UserRegistrationData` as this page fills it: the whole form is what it sends. */
  datatype UserRegistration = UserRegistration(
    name: string,
    email: string,
    password: string,
    phoneNumber: string,
    address: string,
    roles: seq<string>)

  datatype TextField = Name | Email | Password | PhoneNumber | Address

  const EmptyRegistration := UserRegistration("", "", "", "", "", [])

  /** The three checkboxes, in the order they are rendered. */
  const AvailableRoles := ["ADMIN", "CUSTOMER", "DELIVERY"]

  function FieldOf(form: UserRegistration, field: TextField): string {
    match field
    case Name => form.name
    case Email => form.email
    case Password => form.password
    case PhoneNumber => form.phoneNumber
    case Address => form.address
  }

  /** `{ ...formData, [name]: value }`: one text field changes; the role list is kept. */
  function WithField(form: UserRegistration, field: TextField, value: string): (r: UserRegistration)
    ensures FieldOf(r, field) == value
    ensures forall other :: other != field ==> FieldOf(r, other) == FieldOf(form, other)
    ensures r.roles == form.roles
  {
    match field
    case Name => form.(name := value)
    case Email => form.(email := value)
    case Password => form.(password := value)
    case PhoneNumber => form.(phoneNumber := value)
    case Address => form.(address := value)
  }

  /** `handleRoleChange`: a listed role is filtered out, an unlisted one is appended. */
  function ToggleRole(roles: seq<string>, role: string): (r: seq<string>)
    ensures role in r <==> role !in roles
    ensures forall other :: other != role ==> (other in r <==> other in roles)
    ensures role !in roles ==> r == roles + [role]
    ensures role in roles ==> IsSubsequence(r, roles) && |r| < |roles|
  {
    if role in roles then
      var kept := Filter(roles, x => x != role);
      FilterDropsOne(roles, role);
      kept
    else roles + [role]
  }

  /** Filtering out a role that occurs shortens the list. */
  lemma {:induction false} FilterDropsOne(roles: seq<string>, role: string)
    requires role in roles
    ensures |Filter(roles, x => x != role)| < |roles|
  {
    var p := x => x != role;
    if roles[0] == role {
      SubsequenceLength(Filter(roles[1..], p), roles[1..]);
    } else {
      FilterDropsOne(roles[1..], role);
    }
  }

  /** Filtering a role out of a list that ends with it, and nowhere else, leaves the rest. */
  lemma {:induction false} FilterLast(roles: seq<string>, role: string)
    requires role !in roles
    ensures Filter(roles + [role], x => x != role) == roles
  {
    var p := x => x != role;
    if roles == [] {
      assert [role][1..] == [];
    } else {
      assert (roles + [role])[1..] == roles[1..] + [role];
      FilterLast(roles[1..], role);
    }
  }

  /** Ticking an unticked box and unticking it again restores the role list exactly. */
  lemma ToggleTwice(roles: seq<string>, role: string)
    requires role !in roles
    ensures ToggleRole(ToggleRole(roles, role), role) == roles
  {
    FilterLast(roles, role);
  }

  const FieldsRequired := "All fields except roles are required"
  const RoleRequired := "Please select at least one role"

  /** The checks made before sending: the five text fields, then at least one role. */
  function RegistrationError(form: UserRegistration): (e: Option<string>)
    ensures e == Some(FieldsRequired) <==> exists f :: FieldOf(form, f) == ""
    ensures e == Some(RoleRequired) <==> (forall f :: FieldOf(form, f) != "") && form.roles == []
    ensures e.None? <==> (forall f :: FieldOf(form, f) != "") && form.roles != []
  {
    if form.name == "" || form.email == "" || form.password == ""
      || form.phoneNumber == "" || form.address == ""
    then
      assert FieldOf(form, Name) == "" || FieldOf(form, Email) == "" || FieldOf(form, Password) == ""
        || FieldOf(form, PhoneNumber) == "" || FieldOf(form, Address) == "";
      Some(FieldsRequired)
    else if form.roles == [] then
      assert forall f :: FieldOf(form, f) != "";
      Some(RoleRequired)
    else
      assert forall f :: FieldOf(form, f) != "";
      None
  }

  class AdminRegistrationPage {
    var form: UserRegistration

    constructor ()
      ensures form == EmptyRegistration
    {
      form := EmptyRegistration;
    }

    method HandleChange(field: TextField, value: string)
      modifies this
      ensures form == WithField(old(form), field, value)
    {
      form := WithField(form, field, value);
    }

    method HandleRoleChange(role: string)
      modifies this
      ensures form == old(form).(roles := ToggleRole(old(form).roles, role))
    {
      form := form.(roles := ToggleRole(form.roles, role));
    }

    /** `handleSubmit`: returns the registration it sends, if any. A rejected answer shows the
        answer's own message, which may be missing (recorded as ""). */
    method HandleSubmit(reply: Call<()>) returns (sent: Option<UserRegistration>, fx: Effects)
      modifies this
      ensures sent.Some? <==> RegistrationError(old(form)).None?
      ensures sent == (if sent.Some? then Some(old(form)) else None)
      ensures fx.sent == sent.Some?
      ensures sent.None? ==> fx.shown == RegistrationError(old(form)) && form == old(form) && fx.navigation.None?
      ensures sent.Some? && reply.Returned? && IsOk(reply.response) ==>
        form == EmptyRegistration && fx.navigation == Some(GoTo("/admin")) && fx.shown.None?
      ensures sent.Some? && reply.Returned? && !IsOk(reply.response) ==>
        form == old(form) && fx.navigation.None? && fx.shown == Some(reply.response.message.GetOr(""))
      ensures sent.Some? && reply.Threw? ==>
        form == old(form) && fx.navigation.None? && fx.shown == Some(Caught(reply.failure, "Registration failed"))
    {
      var invalid := RegistrationError(form);
      if invalid.Some? {
        return None, Effects(invalid, None, false);
      }
      sent := Some(form);
      match reply
      case Threw(failure) =>
        fx := Effects(Some(Caught(failure, "Registration failed")), None, true);
      case Returned(response) =>
        if IsOk(response) {
          form := EmptyRegistration;
          fx := Effects(None, Some(GoTo("/admin")), true);
        } else {
          fx := Effects(Some(response.message.GetOr("")), None, true);
        }
    }
  }
}
