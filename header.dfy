/**
 * The session-dependent parts of the `Header` component. It carries its own
 * copies of the read and of the role switch; they are proved to agree with
 * the `Navbar` ones, so the shared component model covers both.
 */
module Header {
  import opened Wrappers
  import opened Ascii
  import opened RoleRouter
  import opened SessionStore
  import Navbar
  import AuthSync

  /** `readAuth`, as the header writes it. */
  function ReadAuth(items: Store, parse: string -> Parsed): (r: Result<Session, ReadError>)
    ensures r.Failure? <==> Truthy(GetItem(items, UserKey)) && parse(items[UserKey]).SyntaxError?
    ensures r.Success? ==> r.value.token == GetItem(items, TokenKey)
  {
    var token := GetItem(items, TokenKey);
    var text := GetItem(items, UserKey);
    if Truthy(text) then
      match parse(text.value)
      case SyntaxError => Failure(MalformedUser(text.value))
      case Value(u) => Success(Session(token, u))
    else Success(Session(token, None))
  }

  /** Both components read the same session from the same store. */
  lemma ReadAuthAgrees(items: Store, parse: string -> Parsed)
    ensures ReadAuth(items, parse) == Read(items, parse)
  {
  }

  /** The header's copy of the role switch. */
  function RoleToDashboardPath(role: Option<string>): (path: string)
    ensures path in DashboardPaths
    ensures !Truthy(role) ==> path == DefaultRoute
  {
    if !Truthy(role) then DefaultRoute
    else
      match ToLower(role.value)
      case "admin" => "/admin-dashboard"
      case "doctor" => "/doctor-dashboard"
      case "therapist" => "/doctor-dashboard"
      case "staff" => "/staff-dashboard"
      case "patient" => "/patient-dashboard"
      case "visitor" => "/visitor-dashboard"
      case "user" => "/user-dashboard"
      case _ => DefaultRoute
  }

  /** The two switches agree on every role, null, empty and unknown ones included. */
  lemma RoleToDashboardPathAgrees(role: Option<string>)
    ensures RoleToDashboardPath(role) == Navbar.RoleToDashboardPath(role)
  {
    Navbar.RoleToDashboardPathIsTable(role);
  }

  /** An entry of the header's navigation bar: a link, or the Logout button. */
  datatype NavItem = LinkTo(to: string, text: string) | LogoutButton

  const FixedLinks := [LinkTo("/", "Home"), LinkTo("/programs", "Programs"), LinkTo("/contact", "Contact")]

  /** The header's navigation bar for a session: fixed links, then the signed-in or the signed-out alternative. */
  function Nav(auth: Session): (items: seq<NavItem>)
    ensures 4 <= |items| <= 5 && items[..3] == FixedLinks
    ensures Truthy(auth.token) ==> items[3..] == [LinkTo(RoleToDashboardPath(RoleOf(auth.user)), DashboardLabel(auth.user)), LogoutButton]
    ensures !Truthy(auth.token) ==> items[3..] == [LinkTo("/login", "Login")]
  {
    FixedLinks +
      if Truthy(auth.token)
      then [LinkTo(RoleToDashboardPath(RoleOf(auth.user)), DashboardLabel(auth.user)), LogoutButton]
      else [LinkTo("/login", "Login")]
  }

  /** Whether the bar holds a link to a dashboard. */
  predicate HasDashboardLink(items: seq<NavItem>) {
    exists i :: 0 <= i < |items| && items[i].LinkTo? && items[i].to in DashboardPaths
  }

  /** The Logout button is shown exactly when the token is truthy. */
  lemma LogoutShownIffSignedIn(auth: Session)
    ensures LogoutButton in Nav(auth) <==> Truthy(auth.token)
  {
    if Truthy(auth.token) {
      assert Nav(auth)[4] == LogoutButton;
    }
  }

  /** A dashboard link is shown exactly when the token is truthy. */
  lemma DashboardShownIffSignedIn(auth: Session)
    ensures HasDashboardLink(Nav(auth)) <==> Truthy(auth.token)
  {
    var items := Nav(auth);
    if Truthy(auth.token) {
      assert items[3].LinkTo? && items[3].to in DashboardPaths;
    } else {
      assert items == FixedLinks + [LinkTo("/login", "Login")];
      forall i | 0 <= i < |items| ensures !(items[i].LinkTo? && items[i].to in DashboardPaths) {
      }
    }
  }

  /** The login link is shown exactly when the token is falsy, so exactly one of the two alternatives appears. */
  lemma LoginShownIffSignedOut(auth: Session)
    ensures LinkTo("/login", "Login") in Nav(auth) <==> !Truthy(auth.token)
    ensures (LinkTo("/login", "Login") in Nav(auth)) != (LogoutButton in Nav(auth))
  {
    var items := Nav(auth);
    LogoutShownIffSignedIn(auth);
    if Truthy(auth.token) {
      assert items == FixedLinks + [items[3], LogoutButton];
      assert items[3].to in DashboardPaths;
    } else {
      assert items[3] == LinkTo("/login", "Login");
    }
  }

  /** The dashboard link is named after the role, or `Dashboard` when the role is falsy, and leads to the role's route. */
  lemma DashboardLinkText(auth: Session)
    requires Truthy(auth.token)
    ensures Nav(auth)[3].LinkTo?
    ensures Nav(auth)[3].text == if Truthy(RoleOf(auth.user)) then RoleOf(auth.user).value else "Dashboard"
    ensures Nav(auth)[3].to == Navbar.RoleToDashboardPath(RoleOf(auth.user))
  {
    RoleToDashboardPathAgrees(RoleOf(auth.user));
  }

  /** The header's session-dependent link is the navbar's last link, for every session. */
  lemma AgreesWithNavbar(auth: Session)
    ensures Nav(auth)[3] == LinkTo(Navbar.NavLinks(auth)[3].path, Navbar.NavLinks(auth)[3].name)
  {
    RoleToDashboardPathAgrees(RoleOf(auth.user));
  }

  /** Any number of mount and unmount cycles of the header leaves the window's listeners as they were. */
  method MountCycles(c: AuthSync.AuthComponent, n: nat)
    requires c.window.Valid() && c.subscription.None?
    modifies c`auth, c`subscription, c.window`listeners, c.window`nextHandle
    ensures c.window.Valid() && c.subscription.None?
    ensures c.window.listeners == old(c.window.listeners)
  {
    var k := 0;
    while k < n
      invariant c.window.Valid() && c.subscription.None?
      invariant c.window.listeners == old(c.window.listeners)
    {
      AuthSync.MountThenUnmount(c);
      k := k + 1;
    }
  }
}
