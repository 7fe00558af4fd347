/** Request validation and response conversion of the IAM service
    (apps/server/internal/iam/service/iam.go). */
module IamService {
  import opened Wrappers
  import opened Text
  import opened Jwt
  import opened Contexts
  import opened Tenancy

  /** CreateTenant's type rule, after its permission check: a blank type
      is `enterprise`, and only `enterprise` and `personal` are accepted. */
  function CreateTenantType(permitted: Outcome, requested: string): (r: Result<string>)
    ensures permitted.Failed? ==> r == Fail(permitted.error)
    ensures permitted.Pass? ==> (r.Ok? <==> TrimSpace(requested) in {"", "enterprise", "personal"})
    ensures permitted.Pass? && r.Ok? ==> r.value == (if TrimSpace(requested) == "" then "enterprise" else TrimSpace(requested))
    ensures permitted.Pass? && r.Fail? ==> r.error == BadRequest("TENANT_TYPE_INVALID")
  {
    if permitted.Failed? then Fail(permitted.error)
    else
      var t := TrimSpace(requested);
      var t' := if t == "" then "enterprise" else t;
      if t' != "enterprise" && t' != "personal" then Fail(BadRequest("TENANT_TYPE_INVALID")) else Ok(t')
  }

  /** CreatePermission's scope rule, after its permission check. */
  function CreatePermissionScope(permitted: Outcome, requested: string): (r: Result<string>)
    ensures permitted.Failed? ==> r == Fail(permitted.error)
    ensures permitted.Pass? && TrimSpace(requested) == "" ==> r == Fail(BadRequest("PERMISSION_SCOPE_REQUIRED"))
    ensures permitted.Pass? && TrimSpace(requested) != "" && TrimSpace(requested) !in {"platform", "tenant"} ==>
              r == Fail(BadRequest("PERMISSION_SCOPE_INVALID"))
    ensures r.Ok? <==> permitted.Pass? && TrimSpace(requested) in {"platform", "tenant"}
    ensures r.Ok? ==> r.value == TrimSpace(requested)
  {
    if permitted.Failed? then Fail(permitted.error)
    else
      var scope := TrimSpace(requested);
      if scope == "" then Fail(BadRequest("PERMISSION_SCOPE_REQUIRED"))
      else if scope != "platform" && scope != "tenant" then Fail(BadRequest("PERMISSION_SCOPE_INVALID"))
      else Ok(scope)
  }

  /** isPlatformRole */
  predicate IsPlatformRole(roles: seq<string>) {
    exists i :: 0 <= i < |roles| && (roles[i] == "platform_admin" || roles[i] == "super_admin")
  }

  /** The roles scan of isPlatformRole. */
  method ScanPlatformRole(roles: seq<string>) returns (found: bool)
    ensures found <==> IsPlatformRole(roles)
    ensures found <==> "platform_admin" in roles || "super_admin" in roles
  {
    for i := 0 to |roles|
      invariant "platform_admin" !in roles[..i] && "super_admin" !in roles[..i]
    {
      if roles[i] == "platform_admin" || roles[i] == "super_admin" {
        return true;
      }
    }
    assert roles[..|roles|] == roles;
    return false;
  }

  /** ensureTenantScope: no requested tenant leaves the context alone; a
      platform role may act in any tenant; other callers may act only in
      their own tenant (or any, when their claims carry none). */
  function EnsureTenantScope(ctx: Context, tenantId: string): (r: Result<Context>)
    ensures tenantId == "" ==> r == Ok(ctx)
    ensures tenantId != "" && ctx.claims.Some? && IsPlatformRole(ctx.claims.value.roles) ==>
              r == Ok(WithTenantID(ctx, tenantId))
    ensures r.Fail? <==>
      tenantId != "" && ctx.claims.Some? && !IsPlatformRole(ctx.claims.value.roles) &&
      ctx.claims.value.tenantId != "" && ctx.claims.value.tenantId != tenantId
    ensures r.Fail? ==> r.error == Forbidden("TENANT_MISMATCH")
    ensures r.Ok? && tenantId != "" ==> RequireTenantID(r.value) == Ok(tenantId) && r.value.claims == ctx.claims
  {
    if tenantId == "" then Ok(ctx)
    else if ctx.claims.Some? && IsPlatformRole(ctx.claims.value.roles) then Ok(WithTenantID(ctx, tenantId))
    else if ctx.claims.Some? && ctx.claims.value.tenantId != "" && ctx.claims.value.tenantId != tenantId then
      Fail(Forbidden("TENANT_MISMATCH"))
    else Ok(WithTenantID(ctx, tenantId))
  }

  /** A tenant caller is never scoped into a tenant other than its own. */
  lemma NoCrossTenantScope(ctx: Context, tenantId: string)
    requires ctx.claims.Some? && !IsPlatformRole(ctx.claims.value.roles) && ctx.claims.value.tenantId != ""
    requires EnsureTenantScope(ctx, tenantId).Ok?
    ensures tenantId == "" || tenantId == ctx.claims.value.tenantId
  {
  }

  // ---------------------------------------------------------------------
  // Converters; times are Unix seconds with 0 as Go's zero time.

  datatype Tenant = Tenant(id: string, name: string, kind: string, plan: string, status: string, createdAt: int)
  datatype User = User(id: string, tenantId: string, email: string, phone: string, name: string, status: string, createdAt: int)
  datatype Role = Role(id: string, tenantId: string, name: string)
  datatype Permission = Permission(id: string, code: string, description: string, scope: string)

  /** toTimestamp: nil for the zero time. */
  function ToTimestamp(t: int): (r: Option<int>)
    ensures r.None? <==> t == 0
    ensures r.Some? ==> r.value == t
  {
    if t == 0 then None else Some(t)
  }

  datatype TenantMsg = TenantMsg(id: string, name: string, kind: string, plan: string, status: string, createdAt: Option<int>)

  function ToTenant(t: Tenant): (r: Option<TenantMsg>)
    ensures r.None? <==> t.id == "" && t.name == "" && t.kind == "" && t.plan == "" && t.status == ""
    ensures r.Some? ==> r.value == TenantMsg(t.id, t.name, t.kind, t.plan, t.status, ToTimestamp(t.createdAt))
  {
    if t.id == "" && t.name == "" && t.kind == "" && t.plan == "" && t.status == "" then None
    else Some(TenantMsg(t.id, t.name, t.kind, t.plan, t.status, ToTimestamp(t.createdAt)))
  }

  datatype UserMsg = UserMsg(id: string, tenantId: string, email: string, phone: string, name: string, status: string, createdAt: Option<int>)

  /** toUser: tenant id and status do not count as identifying. */
  function ToUser(u: User): (r: Option<UserMsg>)
    ensures r.None? <==> u.id == "" && u.email == "" && u.phone == "" && u.name == ""
    ensures r.Some? ==> r.value == UserMsg(u.id, u.tenantId, u.email, u.phone, u.name, u.status, ToTimestamp(u.createdAt))
  {
    if u.id == "" && u.email == "" && u.phone == "" && u.name == "" then None
    else Some(UserMsg(u.id, u.tenantId, u.email, u.phone, u.name, u.status, ToTimestamp(u.createdAt)))
  }

  function ToRole(r0: Role): (r: Option<Role>)
    ensures r.None? <==> r0.id == "" && r0.name == ""
    ensures r.Some? ==> r.value == r0
  {
    if r0.id == "" && r0.name == "" then None else Some(r0)
  }

  function ToPermission(p: Permission): (r: Option<Permission>)
    ensures r.None? <==> p == Permission("", "", "", "")
    ensures r.Some? ==> r.value == p
  {
    if p.id == "" && p.code == "" && p.description == "" && p.scope == "" then None else Some(p)
  }
}
