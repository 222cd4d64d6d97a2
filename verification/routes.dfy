/**
 * The route guard: a chain of early returns that shows a spinner while the
 * session loads, sends a visitor without a user to the sign-in page, sends
 * a user who lacks a requested role to the home page, and otherwise renders
 * the protected page.
 */
module Routes {
  import opened Optional
  import opened Auth

  /** What the guard renders. */
  datatype Guarded = Spinner | RedirectTo(path: string) | RenderChildren

  const SignInPath := "/auth"
  const HomePath := "/"

  /** The three optional requirements of a protected route; an absent flag is `false`. */
  datatype Requirements = Requirements(requiredRole: Option<AppRole>, requireAdmin: bool, requireAdminGlobal: bool)

  /** Every requested requirement is met by the roles. */
  predicate Meets(req: Requirements, roles: seq<AppRole>) {
    (req.requireAdminGlobal ==> AdminGlobalRole in roles)
    && (req.requireAdmin ==> AdminRole in roles || AdminGlobalRole in roles)
    && (req.requiredRole.Some? ==> req.requiredRole.value in roles)
  }

  /** `ProtectedRoute`, with the hook's `loading`, `user` and roles as inputs. */
  function Guard(loading: bool, user: Option<User>, roles: seq<AppRole>, req: Requirements): (g: Guarded)
    ensures loading ==> g == Spinner
    ensures !loading && user.None? ==> g == RedirectTo(SignInPath)
    ensures !loading && user.Some? && req.requireAdminGlobal && AdminGlobalRole !in roles ==> g == RedirectTo(HomePath)
    ensures !loading && user.Some? && req.requireAdmin && AdminRole !in roles && AdminGlobalRole !in roles
      ==> g == RedirectTo(HomePath)
    ensures !loading && user.Some? && req.requiredRole.Some? && req.requiredRole.value !in roles
      ==> g == RedirectTo(HomePath)
    ensures g == RenderChildren <==> !loading && user.Some? && Meets(req, roles)
    ensures g.RedirectTo? ==> g.path == SignInPath || g.path == HomePath
  {
    if loading then Spinner
    else if user.None? then RedirectTo(SignInPath)
    else if req.requireAdminGlobal && !IsAdminGlobal(roles) then RedirectTo(HomePath)
    else if req.requireAdmin && !IsAdmin(roles) then RedirectTo(HomePath)
    else if req.requiredRole.Some? && !HasRole(roles, req.requiredRole.value) then RedirectTo(HomePath)
    else RenderChildren
  }

  /** A global administrator passes every admin flag; only a specific other role can stop them. */
  lemma GlobalAdminPassesAdminChecks(user: User, roles: seq<AppRole>, requireAdmin: bool, requireAdminGlobal: bool)
    requires AdminGlobalRole in roles
    ensures Guard(false, Some(user), roles, Requirements(None, requireAdmin, requireAdminGlobal)) == RenderChildren
  {
  }

  /** A plain administrator is sent home from a route that requires a global administrator. */
  lemma AdminIsNotGlobalAdmin(user: User)
    ensures Guard(false, Some(user), [AdminRole], Requirements(None, true, true)) == RedirectTo(HomePath)
  {
    assert AdminGlobalRole !in [AdminRole];
  }
}
