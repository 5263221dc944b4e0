/** The navigation bar: which links it shows for the current session, and its logout button. */
module Navbar {
  import opened Common
  import opened Session

  datatype NavLink =
    | HomeLink | MenuLink | CategoryLink
    | ProfileLink | OrdersLink | CartLink | DeliveriesLink | AdminLink | LogoutButton
    | LoginLink | RegisterLink

  const PublicLinks := [HomeLink, MenuLink, CategoryLink]

  /** Whether a link is on the bar, decided link by link from the four flags it reads. */
  predicate Visible(l: NavLink, authenticated: bool, customer: bool, delivery: bool, admin: bool) {
    match l
    case HomeLink | MenuLink | CategoryLink => true
    case LoginLink | RegisterLink => !authenticated
    case ProfileLink | OrdersLink | LogoutButton => authenticated
    case CartLink => authenticated && customer
    case DeliveriesLink => authenticated && delivery
    case AdminLink => authenticated && admin
  }

  /** The links in the order the bar renders them, from the four flags it reads. */
  function Links(authenticated: bool, customer: bool, delivery: bool, admin: bool): (links: seq<NavLink>)
    ensures |links| >= 3 && links[..3] == PublicLinks
    ensures forall l :: l in links <==> Visible(l, authenticated, customer, delivery, admin)
  {
    var rest := if authenticated then SignedInLinks(customer, delivery, admin) else [LoginLink, RegisterLink];
    assert forall l :: l in rest <==> Visible(l, authenticated, customer, delivery, admin) && l !in PublicLinks;
    PublicLinks + rest
  }

  /** The links after the public ones for an authenticated user. */
  function SignedInLinks(customer: bool, delivery: bool, admin: bool): (links: seq<NavLink>)
    ensures forall l :: l in links <==> Visible(l, true, customer, delivery, admin) && l !in PublicLinks
  {
    var roleLinks := When(customer, CartLink) + When(delivery, DeliveriesLink) + When(admin, AdminLink);
    assert forall l :: l in roleLinks <==>
      (customer && l == CartLink) || (delivery && l == DeliveriesLink) || (admin && l == AdminLink);
    [ProfileLink, OrdersLink] + roleLinks + [LogoutButton]
  }

  /** `{flag && <link>}`: the link when the flag holds, nothing otherwise. */
  function When(flag: bool, link: NavLink): (r: seq<NavLink>)
    ensures forall l :: l in r <==> flag && l == link
  {
    if flag then [link] else []
  }

  /** What the bar shows for the session as stored. */
  function NavbarLinks(s: SessionStore): seq<NavLink>
    reads s
  {
    Links(s.IsAuthenticated(), s.IsCustomer(), s.IsDeliveryPerson(), s.IsAdmin())
  }

  /** A signed-out visitor sees the public links followed by Login and Register, nothing else. */
  lemma SignedOutLinks(s: SessionStore)
    requires s.token == None && s.roles == None
    ensures NavbarLinks(s) == PublicLinks + [LoginLink, RegisterLink]
  {
  }

  /** `handleLogout`: the session is cleared only when the confirm dialog is accepted. The
      handler neither navigates nor sets state, so the signed-out links stated here are what
      the bar shows at its next render, not at once. */
  method HandleLogout(s: SessionStore, confirmed: bool)
    modifies s
    ensures confirmed ==> s.token == None && s.roles == None
    ensures confirmed ==> NavbarLinks(s) == PublicLinks + [LoginLink, RegisterLink]
    ensures !confirmed ==> s.token == old(s.token) && s.roles == old(s.roles)
  {
    if confirmed {
      s.Logout();
      SignedOutLinks(s);
    }
  }
}
