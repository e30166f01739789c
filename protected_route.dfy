/** The route guard (frontend/src/components/ProtectedRoute.tsx): while the
    session is being restored it shows a spinner, without a user it
    redirects to the sign-in route carrying the current location, and a user
    whose role is not allowed goes to their own dashboard. */
module ProtectedRoute {
  import opened Support

  datatype GuardUser = GuardUser(id: string, role: string)

  /** What the guard renders. `from` is the location handed on in the navigation state. */
  datatype View =
    | Spinner
    | Navigate(to: string, from: Option<string>, replace: bool)
    | Children

  const DefaultRedirect := "/auth"

  /** The dashboard of a role: doctors to '/doctor', everyone else to '/patient'. */
  function Home(role: string): (path: string)
    ensures path == "/doctor" <==> role == "doctor"
    ensures path == "/doctor" || path == "/patient"
  {
    if role == "doctor" then "/doctor" else "/patient"
  }

  /** The guard's decision. `allowedRoles` and `redirectTo` are the optional
      props; an empty role list is still given and so allows no role. */
  function Decide(isLoading: bool, user: Option<GuardUser>, allowedRoles: Option<seq<string>>,
                  redirectTo: Option<string>, location: string): (v: View)
    ensures v == Spinner <==> isLoading
    ensures !isLoading && user.None? ==>
      v == Navigate(if redirectTo.Some? then redirectTo.value else DefaultRedirect, Some(location), true)
    ensures v == Children <==>
      !isLoading && user.Some? && (allowedRoles.None? || user.value.role in allowedRoles.value)
    ensures !isLoading && user.Some? && allowedRoles.Some? && user.value.role !in allowedRoles.value ==>
      v == Navigate(Home(user.value.role), None, true)
  {
    if isLoading then Spinner
    else if user.None? then
      Navigate(if redirectTo.Some? then redirectTo.value else DefaultRedirect, Some(location), true)
    else if allowedRoles.Some? && user.value.role !in allowedRoles.value then
      Navigate(Home(user.value.role), None, true)
    else Children
  }

  /** A guard for one role sends the other role to that role's dashboard, so
      a doctor at a patient page lands on '/doctor' and never loops back. */
  lemma WrongRoleGoesHome(user: GuardUser, location: string, redirectTo: Option<string>)
    requires user.role == "doctor" || user.role == "patient"
    ensures var other := if user.role == "doctor" then "patient" else "doctor";
      Decide(false, Some(user), Some([other]), redirectTo, location) ==
        Navigate("/" + user.role, None, true) &&
      Decide(false, Some(user), Some([user.role]), redirectTo, location) == Children
  {
  }
}
