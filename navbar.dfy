/** The session-dependent parts of the `Navbar` component. */
module Navbar {
  import opened Wrappers
  import opened Ascii
  import opened RoleRouter
  import opened SessionStore

  /** The `switch` on the lower-cased role, case by case as the component writes it. */
  function RoleToDashboardPath(role: Option<string>): (path: string)
    ensures path in DashboardPaths
    ensures !Truthy(role) ==> path == DefaultRoute
  {
    if !Truthy(role) then DefaultRoute
    else
      match ToLower(role.value)
      case "admin" => "/admin-dashboard"
      case "doctor" => "/doctor-dashboard"
      case "therapist" => "/doctor-dashboard"
      case "staff" => "/staff-dashboard"
      case "patient" => "/patient-dashboard"
      case "visitor" => "/visitor-dashboard"
      case "user" => "/user-dashboard"
      case _ => DefaultRoute
  }

  /** The switch gives what the routing table gives, for every role. */
  lemma RoleToDashboardPathIsTable(role: Option<string>)
    ensures RoleToDashboardPath(role) == Resolve(role)
  {
  }

  /** The result depends on the role only through its lower-case form. */
  lemma CaseInsensitive(a: string, b: string)
    requires ToLower(a) == ToLower(b)
    ensures RoleToDashboardPath(Some(a)) == RoleToDashboardPath(Some(b))
  {
  }

  /** A role and its lower-case form lead to the same dashboard. */
  lemma LowerCasedRoleSameRoute(role: string)
    ensures RoleToDashboardPath(Some(role)) == RoleToDashboardPath(Some(ToLower(role)))
  {
    ToLowerIdempotent(role);
  }

  /** The doctor dashboard is reached from `doctor` and `therapist` in any case, and only from them. */
  lemma DoctorDashboardIff(role: Option<string>)
    ensures RoleToDashboardPath(role) == "/doctor-dashboard"
        <==> role.Some? && ToLower(role.value) in {"doctor", "therapist"}
  {
  }

  /** The visitor dashboard is the answer for a falsy role, for `visitor`, and for any role not in the table. */
  lemma VisitorDashboardIff(role: Option<string>)
    ensures RoleToDashboardPath(role) == DefaultRoute
        <==> !Truthy(role) || ToLower(role.value) == "visitor" || ToLower(role.value) !in DashboardRoutes
  {
  }

  /** The route of a role spelt in lower case is the table's entry for it. */
  lemma LowerCaseRole(role: string)
    requires role in DashboardRoutes
    ensures RoleToDashboardPath(Some(role)) == DashboardRoutes[role]
  {
    assert forall i :: 0 <= i < |role| ==> !IsUpper(role[i]);
    ToLowerOfLower(role);
    RoleToDashboardPathIsTable(Some(role));
  }

  /** The routes of the sample roles spelt in lower case, and of the empty and the missing role. */
  lemma SampleRoles()
    ensures RoleToDashboardPath(Some("admin")) == "/admin-dashboard"
    ensures RoleToDashboardPath(Some("staff")) == "/staff-dashboard"
    ensures RoleToDashboardPath(Some("patient")) == "/patient-dashboard"
    ensures RoleToDashboardPath(Some("visitor")) == "/visitor-dashboard"
    ensures RoleToDashboardPath(Some("user")) == "/user-dashboard"
    ensures RoleToDashboardPath(Some("")) == "/visitor-dashboard"
    ensures RoleToDashboardPath(None) == "/visitor-dashboard"
  {
    LowerCaseRole("admin");
    LowerCaseRole("staff");
    LowerCaseRole("patient");
    LowerCaseRole("visitor");
    LowerCaseRole("user");
  }

  /** A role whose lower-case form the table does not know leads to the visitor dashboard. */
  lemma UnlistedRoleDefaults(role: string)
    requires ToLower(role) !in DashboardRoutes
    ensures RoleToDashboardPath(Some(role)) == DefaultRoute
  {
    RoleToDashboardPathIsTable(Some(role));
  }

  /** The sample unknown role `unknown-role` leads to the visitor dashboard. */
  lemma SampleUnknownRole()
    ensures RoleToDashboardPath(Some("unknown-role")) == "/visitor-dashboard"
  {
    var unknown := "unknown-role";
    assert ToLower(unknown) == unknown by {
      forall i | 0 <= i < |unknown| ensures !IsUpper(unknown[i]) { }
      ToLowerOfLower(unknown);
    }
    assert |unknown| == 12;
    UnlistedRoleDefaults(unknown);
  }

  /** Any spelling of a table role reaches that role's dashboard. */
  lemma AnySpellingOfTableRole(role: string, lower: string)
    requires ToLower(role) == lower && lower in DashboardRoutes
    ensures RoleToDashboardPath(Some(role)) == DashboardRoutes[lower]
  {
    RoleToDashboardPathIsTable(Some(role));
  }

  /** Mixed- and upper-case spellings reach the same dashboard. */
  lemma SampleMixedCaseRoles()
    ensures RoleToDashboardPath(Some("Doctor")) == "/doctor-dashboard"
    ensures RoleToDashboardPath(Some("THERAPIST")) == "/doctor-dashboard"
  {
    var doctor, therapist := "Doctor", "THERAPIST";
    assert ToLower(doctor) == "doctor" by {
      assert |ToLower(doctor)| == 6;
    }
    AnySpellingOfTableRole(doctor, "doctor");
    assert ToLower(therapist) == "therapist" by {
      assert |ToLower(therapist)| == 9;
    }
    AnySpellingOfTableRole(therapist, "therapist");
  }

  datatype Link = Link(name: string, path: string)

  const NavLinksBase := [Link("Home", "/"), Link("About", "/about"), Link("Contact", "/contact")]

  /** The last link of a signed-in user: named after the role, or `Dashboard`, and leading to the role's dashboard. */
  function DashboardLink(user: Option<User>): (l: Link)
    ensures l.path in DashboardPaths
    ensures l.name == if Truthy(RoleOf(user)) then RoleOf(user).value else "Dashboard"
  {
    Link(DashboardLabel(user), RoleToDashboardPath(RoleOf(user)))
  }

  /** The four navigation links for a session. */
  function NavLinks(auth: Session): (links: seq<Link>)
    ensures |links| == 4 && links[..3] == NavLinksBase
    ensures !Truthy(auth.token) ==> links[3] == Link("Login", "/login")
    ensures Truthy(auth.token) ==> links[3] == DashboardLink(auth.user)
    ensures Truthy(auth.token) ==> links[3].path == RoleToDashboardPath(RoleOf(auth.user))
  {
    if Truthy(auth.token)
    then NavLinksBase + [DashboardLink(auth.user)]
    else NavLinksBase + [Link("Login", "/login")]
  }

  /** The login page is on the list exactly when the token is falsy: no dashboard route is `/login`. */
  lemma LoginLinkIffSignedOut(auth: Session)
    ensures (exists i :: 0 <= i < |NavLinks(auth)| && NavLinks(auth)[i].path == "/login")
        <==> !Truthy(auth.token)
  {
    var links := NavLinks(auth);
    if !Truthy(auth.token) {
      assert links[3].path == "/login";
    }
  }
}
