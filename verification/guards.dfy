/** The two route guards of the dashboard
    (apps/dashboard/src/components/RequirePermission.tsx and
    apps/dashboard/src/components/RequireAuth.tsx). */
module Guards {
  import opened Wrappers
  import opened PermissionCache

  /** What RequirePermission renders. */
  datatype Gate = Skeleton | ForbiddenPage | Content

  /** `permission && !permissions.has(permission)`: an absent or empty
      permission requires nothing. */
  predicate Requires(permission: Option<string>) {
    permission.Some? && permission.value != ""
  }

  /** RequirePermission: the skeleton while loading; otherwise the page
      renders only if no permission is required or it is granted. */
  function RequirePermission(view: PermissionView, permission: Option<string>): (g: Gate)
    ensures view.loading <==> g == Skeleton
    ensures !view.loading ==>
      (g == Content <==> !Requires(permission) || permission.value in view.granted)
  {
    if view.loading then Skeleton
    else if Requires(permission) && permission.value !in view.granted then ForbiddenPage
    else Content
  }

  /** Fail closed: with nothing granted, only pages that require nothing
      render, and a provider-less tree behaves the same way. */
  lemma FailClosed(view: PermissionView, permission: Option<string>)
    requires view.granted == {}
    ensures RequirePermission(view, permission) == Content ==> !Requires(permission)
    ensures RequirePermission(NoProvider(), permission) == Content <==> !Requires(permission)
  {
  }

  /** What RequireAuth renders. */
  datatype AuthGate = RedirectTo(path: string) | Render

  function LoginPath(scope: string): string { "/" + scope + "/login" }

  /** RequireAuth: no token sends the user to the requested scope's login;
      a stored scope of the other kind sends them to that scope's login;
      otherwise the page renders. The stored scope is given as an input. */
  function RequireAuth(token: Option<string>, storedScope: Option<string>, scope: Scope): (g: AuthGate)
    ensures token.None? || token.value == "" ==> g == RedirectTo(LoginPath(ScopeName(scope)))
    ensures (token.Some? && token.value != "" && storedScope.Some? && storedScope.value != "" &&
             storedScope.value != ScopeName(scope)) ==> g == RedirectTo(LoginPath(storedScope.value))
    ensures g == Render <==>
            token.Some? && token.value != "" &&
            (storedScope.None? || storedScope.value == "" || storedScope.value == ScopeName(scope))
  {
    if token.None? || token.value == "" then RedirectTo(LoginPath(ScopeName(scope)))
    else if storedScope.Some? && storedScope.value != "" && storedScope.value != ScopeName(scope) then
      RedirectTo(LoginPath(storedScope.value))
    else Render
  }

  /** A session for one scope never opens the other scope's pages. */
  lemma ScopeIsolation(token: string, stored: Scope, requested: Scope)
    requires token != "" && stored != requested
    ensures RequireAuth(Some(token), Some(ScopeName(stored)), requested) == RedirectTo(LoginPath(ScopeName(stored)))
  {
    assert ScopeName(stored) != ScopeName(requested) by {
      assert ScopeName(stored)[0] != ScopeName(requested)[0];
    }
  }
}
