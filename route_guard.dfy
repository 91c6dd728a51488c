/** The route guard, in its three copies: src/routing/ProtectedRouteComp.jsx
    (paths from the PATHS constants), src/components/routing/ProtectedRouteComp.jsx
    and src/components/ProtectedRoute.jsx (literal paths). It reads the 'user' slot
    once and renders its children or navigates away. */
module RouteGuard {
  import opened Js
  import opened Api

  /** `PATHS.LOGIN` and `PATHS.HOME` of src/configs/constants.js. */
  const PathsLogin := "/login"
  const PathsHome := "/"

  datatype Decision = Render | NavigateTo(path: string)

  /** `ProtectedRouteComp({children, roles})` given the parsed slot. A role list
      that is present is truthy even when empty. */
  function ProtectedRouteComp(slot: Option<User>, roles: Option<seq<string>>): (d: Decision)
    ensures slot.None? ==> d == NavigateTo(PathsLogin)
    ensures slot.Some? && roles.Some? && slot.value.userRole !in roles.value ==> d == NavigateTo(PathsHome)
    ensures d == Render <==> slot.Some? && (roles.None? || slot.value.userRole in roles.value)
  {
    if slot.None? then NavigateTo(PathsLogin)
    else if roles.Some? && slot.value.userRole !in roles.value then NavigateTo(PathsHome)
    else Render
  }

  /** The copies with literal paths decide the same for every input. */
  function ProtectedRouteLiteral(slot: Option<User>, roles: Option<seq<string>>): (d: Decision)
    ensures d == ProtectedRouteComp(slot, roles)
  {
    if slot.None? then NavigateTo("/login")
    else if roles.Some? && slot.value.userRole !in roles.value then NavigateTo("/")
    else Render
  }

  /** An empty role list admits nobody: an anonymous visitor goes to the login
      page and every signed-in user goes home. */
  lemma EmptyRolesDenyEveryone(slot: Option<User>)
    ensures ProtectedRouteComp(slot, Some([])) != Render
    ensures slot.Some? ==> ProtectedRouteComp(slot, Some([])) == NavigateTo(PathsHome)
  {
  }

  /** With no role list every signed-in user is let through. */
  lemma UndefinedRolesAdmitAnyUser(u: User)
    ensures ProtectedRouteComp(Some(u), None) == Render
  {
  }

  /** The login check comes first: an anonymous visitor is never sent home. */
  lemma AnonymousNeverSentHome(roles: Option<seq<string>>)
    ensures ProtectedRouteComp(None, roles) != NavigateTo(PathsHome)
  {
  }

  /** Mounting the guard reads the slot and changes nothing: no write, no call. */
  method Mount(c: Client, roles: Option<seq<string>>) returns (d: Decision)
    ensures d == ProtectedRouteComp(c.user, roles)
  {
    var user := c.user;
    if user.None? {
      return NavigateTo(PathsLogin);
    }
    if roles.Some? && user.value.userRole !in roles.value {
      return NavigateTo(PathsHome);
    }
    return Render;
  }
}
