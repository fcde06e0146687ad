/**
 * The role-to-dashboard routing table that both page headers implement
 * with a `switch`, written once as a map. It is the reference the two
 * switch statements are proved against.
 */
module RoleRouter {
  import opened Wrappers
  import opened Ascii

  const DefaultRoute := "/visitor-dashboard"

  /** Lower-case role names and their dashboard routes. */
  const DashboardRoutes: map<string, string> := map[
    "admin" := "/admin-dashboard",
    "doctor" := "/doctor-dashboard",
    "therapist" := "/doctor-dashboard",
    "staff" := "/staff-dashboard",
    "patient" := "/patient-dashboard",
    "visitor" := "/visitor-dashboard",
    "user" := "/user-dashboard"
  ]

  /** The six routes a role can lead to. */
  const DashboardPaths: set<string> := {
    "/admin-dashboard", "/doctor-dashboard", "/staff-dashboard",
    "/patient-dashboard", "/visitor-dashboard", "/user-dashboard"
  }

  /** JavaScript truthiness of an optional string: present and not empty. */
  predicate Truthy(s: Option<string>) {
    s.Some? && s.value != ""
  }

  /**
   * The route the table gives a role: a falsy role, or one whose lower-case
   * form is not in the table, falls back to the visitor dashboard.
   */
  function Resolve(role: Option<string>): (route: string)
    ensures route in DashboardPaths
    ensures !Truthy(role) ==> route == DefaultRoute
  {
    if Truthy(role) && ToLower(role.value) in DashboardRoutes
    then DashboardRoutes[ToLower(role.value)]
    else DefaultRoute
  }
}
