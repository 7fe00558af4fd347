/** Role-based access control of the server (apps/server/internal/iam/biz/iam.go):
    permission codes with `*` and `prefix.*` wildcards, and the namespace
    dispatch of RequirePermission. */
module IamRbac {
  import opened Wrappers
  import opened Text
  import opened Jwt
  import opened Contexts

  const RbacForbidden := Forbidden("RBAC_FORBIDDEN")

  /** The two permission lookups RequirePermission makes, by subject. A
      lookup may fail with a storage error. */
  datatype RbacRepo = RbacRepo(
    platformAdminPermissions: string -> Result<seq<string>>,
    userPermissions: string -> Result<seq<string>>)

  /** permissionMatch */
  predicate PermissionMatch(candidate: string, target: string) {
    if candidate == "*" || candidate == target then true
    else if HasSuffix(candidate, ".*") then HasPrefix(target, candidate[..|candidate| - 2] + ".")
    else false
  }

  /** `*` matches everything and a code matches itself. */
  lemma MatchReflexiveAndStar(code: string)
    ensures PermissionMatch("*", code) && PermissionMatch(code, code)
  {
  }

  /** `p.*` matches exactly the codes that start with `p.`; `p` itself is
      not among them. */
  lemma WildcardMatchesPrefix(p: string, target: string)
    ensures PermissionMatch(p + ".*", target) <==> HasPrefix(target, p + ".")
    ensures !PermissionMatch(p + ".*", p)
  {
    var c := p + ".*";
    assert HasSuffix(c, ".*");
    assert c[..|c| - 2] == p;
    if c == target {
      assert target[..|p| + 1] == p + ".";
    }
  }

  /** A candidate that is neither `*`, nor the target, nor a `.*` pattern
      matches nothing. */
  lemma PlainCodeMatchesOnlyItself(candidate: string, target: string)
    requires candidate != "*" && !HasSuffix(candidate, ".*")
    ensures PermissionMatch(candidate, target) <==> candidate == target
  {
  }

  predicate AnyMatch(codes: seq<string>, target: string) {
    exists i :: 0 <= i < |codes| && PermissionMatch(codes[i], target)
  }

  /** The decision RequirePermission reaches. */
  function Decision(repo: RbacRepo, ctx: Context, permission: string): (r: Outcome)
    ensures permission == "" ==> r == Pass
    ensures permission != "" && (ctx.claims.None? || ctx.claims.value.subject == "") ==> r == Failed(RbacForbidden)
    ensures (permission != "" && ctx.claims.Some? && ctx.claims.value.subject != "" &&
             !HasPrefix(permission, "platform.") && !HasPrefix(permission, "tenant.")) ==> r == Failed(RbacForbidden)
    ensures (HasPrefix(permission, "tenant.") && ctx.claims.Some? && ctx.claims.value.subject != "" &&
             "tenant_admin" in ctx.claims.value.roles) ==> r == Pass
  {
    assert !(HasPrefix(permission, "platform.") && HasPrefix(permission, "tenant.")) by {
      if HasPrefix(permission, "platform.") {
        assert permission[0] == "platform."[0];
      }
    }
    if permission == "" then Pass
    else if ctx.claims.None? || ctx.claims.value.subject == "" then Failed(RbacForbidden)
    else
      var claims := ctx.claims.value;
      if HasPrefix(permission, "platform.") then
        match repo.platformAdminPermissions(claims.subject)
        case Fail(e) => Failed(e)
        case Ok(codes) => if AnyMatch(codes, permission) then Pass else Failed(RbacForbidden)
      else if HasPrefix(permission, "tenant.") then
        if "tenant_admin" in claims.roles then Pass
        else match repo.userPermissions(claims.subject)
        case Fail(e) => Failed(e)
        case Ok(codes) => if AnyMatch(codes, permission) then Pass else Failed(RbacForbidden)
      else Failed(RbacForbidden)
  }

  /** A granted platform permission is one some platform-admin permission
      of the subject matches; a granted tenant permission is held through
      the tenant_admin role or some matching user permission. */
  lemma GrantedMeansMatched(repo: RbacRepo, ctx: Context, permission: string)
    requires permission != "" && Decision(repo, ctx, permission) == Pass
    ensures ctx.claims.Some? && ctx.claims.value.subject != ""
    ensures HasPrefix(permission, "platform.") || HasPrefix(permission, "tenant.")
    ensures HasPrefix(permission, "platform.") ==>
              var found := repo.platformAdminPermissions(ctx.claims.value.subject);
              found.Ok? && AnyMatch(found.value, permission)
    ensures HasPrefix(permission, "tenant.") && !HasPrefix(permission, "platform.") ==>
              "tenant_admin" in ctx.claims.value.roles ||
              var found := repo.userPermissions(ctx.claims.value.subject);
              found.Ok? && AnyMatch(found.value, permission)
  {
  }

  /** hasRole */
  method HasRole(roles: seq<string>, target: string) returns (found: bool)
    ensures found <==> target in roles
  {
    for i := 0 to |roles|
      invariant target !in roles[..i]
    {
      if roles[i] == target {
        return true;
      }
    }
    assert roles[..|roles|] == roles;
    return false;
  }

  /** The scan over a permission list, with early return. */
  method MatchAny(codes: seq<string>, target: string) returns (found: bool)
    ensures found <==> AnyMatch(codes, target)
  {
    for i := 0 to |codes|
      invariant forall j :: 0 <= j < i ==> !PermissionMatch(codes[j], target)
    {
      if codes[i] == "*" || codes[i] == target {
        return true;
      }
      if HasSuffix(codes[i], ".*") && HasPrefix(target, codes[i][..|codes[i]| - 2] + ".") {
        return true;
      }
    }
    return false;
  }

  /** RequirePermission. `consulted` says whether the repository was asked:
      never for an empty permission or a request without a subject. */
  method RequirePermission(repo: RbacRepo, ctx: Context, permission: string) returns (out: Outcome, consulted: bool)
    ensures out == Decision(repo, ctx, permission)
    ensures consulted ==> permission != "" && ctx.claims.Some? && ctx.claims.value.subject != ""
    ensures consulted <==> permission != "" && ctx.claims.Some? && ctx.claims.value.subject != "" &&
                           (HasPrefix(permission, "platform.") ||
                            (HasPrefix(permission, "tenant.") && "tenant_admin" !in ctx.claims.value.roles))
  {
    consulted := false;
    if permission == "" {
      return Pass, consulted;
    }
    if ctx.claims.None? || ctx.claims.value.subject == "" {
      return Failed(RbacForbidden), consulted;
    }
    var claims := ctx.claims.value;
    if HasPrefix(permission, "platform.") {
      consulted := true;
      var perms := repo.platformAdminPermissions(claims.subject);
      if perms.Fail? {
        return Failed(perms.error), consulted;
      }
      var found := MatchAny(perms.value, permission);
      if found {
        return Pass, consulted;
      }
      return Failed(RbacForbidden), consulted;
    }
    if HasPrefix(permission, "tenant.") {
      var admin := HasRole(claims.roles, "tenant_admin");
      if admin {
        return Pass, consulted;
      }
      consulted := true;
      var perms := repo.userPermissions(claims.subject);
      if perms.Fail? {
        return Failed(perms.error), consulted;
      }
      var found := MatchAny(perms.value, permission);
      if found {
        return Pass, consulted;
      }
      return Failed(RbacForbidden), consulted;
    }
    return Failed(RbacForbidden), consulted;
  }
}
