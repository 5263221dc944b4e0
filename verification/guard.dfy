/** The two route guards: render the protected page, or send the visitor to the login page,
    replacing the history entry and remembering where they came from. */
module Guard {
  import opened Common
  import opened Session

  datatype Location = Location(pathname: string, search: string)

  datatype RouteOutcome =
    | Render
    | Redirect(to: string, from: Location, replace: bool)

  const LoginRedirect := (here: Location) => Redirect("/login", here, true)

  function CustomerRoute(s: SessionStore, here: Location): (r: RouteOutcome)
    reads s
    ensures r.Render? <==> s.roles.Some? && "CUSTOMER" in s.roles.value
    ensures r.Redirect? ==> r.to == "/login" && r.from == here && r.replace
  {
    if s.IsCustomer() then Render else LoginRedirect(here)
  }

  function AdminRoute(s: SessionStore, here: Location): (r: RouteOutcome)
    reads s
    ensures r.Render? <==> s.roles.Some? && "ADMIN" in s.roles.value
    ensures r.Redirect? ==> r.to == "/login" && r.from == here && r.replace
  {
    if s.IsAdmin() then Render else LoginRedirect(here)
  }

  /** Once the roles are gone (after `logout`), both guards turn every visitor away. */
  lemma SignedOutIsRedirected(s: SessionStore, here: Location)
    requires s.roles.None?
    ensures CustomerRoute(s, here) == Redirect("/login", here, true)
    ensures AdminRoute(s, here) == Redirect("/login", here, true)
  {
  }

  /** Logging out from any session leaves both guarded routes closed. */
  method LogoutClosesRoutes(s: SessionStore, here: Location)
    modifies s
    ensures CustomerRoute(s, here) == Redirect("/login", here, true)
    ensures AdminRoute(s, here) == Redirect("/login", here, true)
  {
    s.Logout();
    SignedOutIsRedirected(s, here);
  }
}
