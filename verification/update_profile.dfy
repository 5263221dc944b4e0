/** The profile editor: the loaded profile, the picture chooser with its preview, the
    multipart update form, and closing the account. */
module UpdateProfile {
  import opened Common
  import opened Domain
  import opened Session

  /** The `data` of `myProfile`, as far as this page reads it. */
  datatype Profile = Profile(name: string, email: string, phoneNumber: string, address: string, profileUrl: string)

  const TextKeys := ["name", "email", "phoneNumber", "address"]

  /** The headers of `updateProfile`: the bearer token, with the content type overridden. */
  function MultipartHeader(s: SessionStore): (h: Header)
    reads s
    ensures h.authorization == s.GetHeader().authorization
    ensures h.contentType == "multipart/form-data"
  {
    s.GetHeader().(contentType := "multipart/form-data")
  }

  class UpdateProfilePage {
    var name: string
    var email: string
    var phoneNumber: string
    var address: string
    var profileImage: Option<File>
    var previewImage: string

    constructor ()
      ensures name == "" && email == "" && phoneNumber == "" && address == ""
      ensures profileImage.None? && previewImage == ""
    {
      name, email, phoneNumber, address := "", "", "", "";
      profileImage := None;
      previewImage := "";
    }

    /** The form sent by `handleUpdateProfile`: the four text fields in order, then the chosen
        picture when there is one. */
    function ProfileFormData(): (entries: seq<FormEntry>)
      reads this
      ensures Keys(entries) == TextKeys + (if profileImage.Some? then ["imageFile"] else [])
      ensures Get(entries, "name") == Some(Text(name))
      ensures Get(entries, "email") == Some(Text(email))
      ensures Get(entries, "phoneNumber") == Some(Text(phoneNumber))
      ensures Get(entries, "address") == Some(Text(address))
      ensures Get(entries, "imageFile") == (if profileImage.Some? then Some(Blob(profileImage.value)) else None)
    {
      var image := if profileImage.Some? then [FormEntry("imageFile", Blob(profileImage.value))] else [];
      var e1, e2, e3, e4 := FormEntry("name", Text(name)), FormEntry("email", Text(email)),
                            FormEntry("phoneNumber", Text(phoneNumber)), FormEntry("address", Text(address));
      GetFirst(e4, image);
      GetFirst(e3, [e4] + image);
      GetFirst(e2, [e3] + ([e4] + image));
      GetFirst(e1, [e2] + ([e3] + ([e4] + image)));
      assert Get(image, "name") == None && Get(image, "email") == None;
      assert Get(image, "phoneNumber") == None && Get(image, "address") == None;
      [e1] + ([e2] + ([e3] + ([e4] + image)))
    }

    /** The mount effect: a 200 answer fills the four fields and the preview. */
    method FetchUserProfile(reply: Call<Profile>) returns (fx: Effects)
      requires WellFormed(reply)
      modifies this
      ensures profileImage == old(profileImage)
      ensures fx.sent && fx.navigation.None?
      ensures reply.Returned? && IsOk(reply.response) ==>
        var p := reply.response.data.value;
        name == p.name && email == p.email && phoneNumber == p.phoneNumber && address == p.address
        && previewImage == p.profileUrl && fx.shown.None?
      ensures !(reply.Returned? && IsOk(reply.response)) ==>
        name == old(name) && email == old(email) && phoneNumber == old(phoneNumber)
        && address == old(address) && previewImage == old(previewImage)
      ensures reply.Returned? && !IsOk(reply.response) ==> fx.shown.None?
      ensures reply.Threw? ==> fx.shown == Some(Caught(reply.failure, ""))
    {
      match reply
      case Threw(failure) =>
        fx := Effects(Some(Caught(failure, "")), None, true);
      case Returned(response) =>
        if IsOk(response) {
          var p := response.data.value;
          name, email, phoneNumber, address := p.name, p.email, p.phoneNumber, p.address;
          previewImage := p.profileUrl;
        }
        fx := Effects(None, None, true);
    }

    /** `handleImageChange`: the first chosen file becomes the picture, and its object URL
        (given, since it is made by the browser) the preview. Choosing nothing changes nothing. */
    method HandleImageChange(files: seq<File>, objectUrl: string)
      modifies this
      ensures name == old(name) && email == old(email) && phoneNumber == old(phoneNumber) && address == old(address)
      ensures files == [] ==> profileImage == old(profileImage) && previewImage == old(previewImage)
      ensures files != [] ==> profileImage == Some(files[0]) && previewImage == objectUrl
    {
      if files == [] {
        return;
      }
      profileImage := Some(files[0]);
      previewImage := objectUrl;
    }

    /** `handleUpdateProfile`: nothing happens unless the confirm dialog is accepted; a 200
        answer goes to the profile page. The form itself is left as it was. */
    method HandleUpdateProfile(confirmed: bool, reply: Call<()>) returns (sent: Option<seq<FormEntry>>, fx: Effects)
      ensures sent.Some? <==> confirmed
      ensures sent.Some? ==> sent.value == ProfileFormData()
      ensures fx.sent == confirmed
      ensures !confirmed ==> fx == Quiet
      ensures confirmed && reply.Returned? && IsOk(reply.response) ==> fx == Effects(None, Some(GoTo("/profile")), true)
      ensures confirmed && reply.Returned? && !IsOk(reply.response) ==> fx == Effects(None, None, true)
      ensures confirmed && reply.Threw? ==> fx == Effects(Some(Caught(reply.failure, "")), None, true)
    {
      if !confirmed {
        return None, Quiet;
      }
      sent := Some(ProfileFormData());
      match reply
      case Threw(failure) =>
        fx := Effects(Some(Caught(failure, "")), None, true);
      case Returned(response) =>
        fx := Effects(None, if IsOk(response) then Some(GoTo("/profile")) else None, true);
    }

    /** `handleDeactivateProfile`: after confirmation and a 200 answer the session is cleared
        and the visitor goes home; on every other path the session is kept. */
    method HandleDeactivateProfile(confirmed: bool, session: SessionStore, reply: Call<()>) returns (fx: Effects)
      modifies session
      ensures fx.sent == confirmed
      ensures !confirmed ==> fx == Quiet
      ensures confirmed && reply.Returned? && IsOk(reply.response) ==>
        session.token.None? && session.roles.None? && !session.IsAuthenticated()
        && fx == Effects(None, Some(GoTo("/home")), true)
      ensures !(confirmed && reply.Returned? && IsOk(reply.response)) ==>
        session.token == old(session.token) && session.roles == old(session.roles)
      ensures confirmed && reply.Returned? && !IsOk(reply.response) ==> fx == Effects(None, None, true)
      ensures confirmed && reply.Threw? ==> fx == Effects(Some(Caught(reply.failure, "")), None, true)
    {
      if !confirmed {
        return Quiet;
      }
      match reply
      case Threw(failure) =>
        fx := Effects(Some(Caught(failure, "")), None, true);
      case Returned(response) =>
        if IsOk(response) {
          session.Logout();
          fx := Effects(None, Some(GoTo("/home")), true);
        } else {
          fx := Effects(None, None, true);
        }
    }
  }
}
