/** The permission-assignment rules of the IAM repository
    (apps/server/internal/iam/data/iam.go). The tables are in-memory maps
    and sets; a transaction that fails leaves them as they were. */
module IamStore {
  import opened Wrappers
  import opened Text
  import opened Collections
  import opened Contexts
  import opened Tenancy

  datatype Permission = Permission(id: string, code: string, description: string, scope: string)

  const ScopePlatform := "platform"
  const ScopeTenant := "tenant"

  predicate NonEmpty(s: string) { s != "" }

  /** The argument list buildInClause produces: the non-empty values in
      order, or the single argument `""` when there are none. */
  function InArgs(values: seq<string>): (args: seq<string>)
    ensures |args| >= 1
  {
    var kept := Filter(values, NonEmpty);
    if kept == [] then [""] else kept
  }

  /** `?,?,…,?` with `n` placeholders. */
  function Placeholders(n: nat): (p: string)
    ensures |p| == if n == 0 then 0 else 2 * n - 1
    ensures forall i :: 0 <= i < |p| ==> p[i] == (if i % 2 == 0 then '?' else ',')
  {
    if n == 0 then "" else if n == 1 then "?" else Placeholders(n - 1) + ",?"
  }

  /** buildInClause: one `?` per argument, so the placeholder count always
      equals the argument count. */
  method BuildInClause(values: seq<string>) returns (placeholders: string, args: seq<string>)
    ensures args == InArgs(values)
    ensures placeholders == Placeholders(|args|)
  {
    var count: nat := 0;
    args := [];
    for i := 0 to |values|
      invariant args == Filter(values[..i], NonEmpty)
    {
      assert values[..i + 1][..i] == values[..i];
      if values[i] == "" {
        continue;
      }
      args := args + [values[i]];
    }
    assert values[..|values|] == values;
    if |args| == 0 {
      args := [""];
    }
    placeholders := Placeholders(|args|);
  }

  predicate Missing(existing: set<string>, code: string) { code != "" && code !in existing }

  /** missingPermissions: the non-empty requested codes absent from
      `existing`, each once, in order of first request. */
  method MissingPermissions(codes: seq<string>, existing: set<string>) returns (missing: seq<string>)
    ensures missing == Dedup(Filter(codes, c => Missing(existing, c)))
    ensures NoDups(missing)
    ensures forall c :: c in missing <==> c in codes && c != "" && c !in existing
  {
    var p := c => Missing(existing, c);
    var seen: set<string> := {};
    missing := [];
    for i := 0 to |codes|
      invariant forall c :: c in seen <==> c != "" && c in codes[..i]
      invariant missing == Dedup(Filter(codes[..i], p))
    {
      var code := codes[i];
      assert codes[..i + 1] == codes[..i] + [code];
      ghost var passed := Filter(codes[..i], p);
      DedupFilterSnoc(codes[..i], code, p);
      if code != "" && code !in seen {
        seen := seen + {code};
        if code !in existing {
          assert code !in passed;
          missing := missing + [code];
        }
      } else if code != "" {
        assert code in codes[..i];
      }
    }
    assert codes[..|codes|] == codes;
  }

  /** The permission ids linked for a request whose codes all exist: the
      id of each requested code, in `byCode`. A code the lookup did not
      return (only the empty code) links the zero permission id `""`. */
  function LinkTargets(codes: seq<string>, byCode: map<string, Permission>): (ids: set<string>)
    ensures forall c :: c in codes && c in byCode ==> byCode[c].id in ids
  {
    set c | c in codes :: if c in byCode then byCode[c].id else ""
  }

  class IamTables {
    var platformRoles: set<string>
    /** role id → tenant id */
    var roleTenant: map<string, string>
    /** user id → tenant id */
    var userTenant: map<string, string>
    /** permission code → permission */
    var permissions: map<string, Permission>
    var platformRolePermissions: set<(string, string)>
    var rolePermissions: set<(string, string)>
    var userRoles: set<(string, string)>

    constructor ()
      ensures platformRoles == {} && roleTenant == map[] && userTenant == map[] && permissions == map[]
      ensures platformRolePermissions == {} && rolePermissions == {} && userRoles == {}
    {
      platformRoles := {};
      roleTenant := map[];
      userTenant := map[];
      permissions := map[];
      platformRolePermissions := {};
      rolePermissions := {};
      userRoles := {};
    }

    /** The rows of `SELECT … FROM permission WHERE scope = ? AND code IN (…)`,
        keyed by code. */
    function ByCode(scope: string, codes: seq<string>): (m: map<string, Permission>)
      reads this
      ensures forall c :: c in m ==> c in permissions && permissions[c].scope == scope && m[c] == permissions[c]
      ensures forall c :: c in codes && c != "" && c in permissions && permissions[c].scope == scope ==> c in m
    {
      var args := InArgs(codes);
      map c | c in permissions.Keys && permissions[c].scope == scope && c in args :: permissions[c]
    }

    /** AssignPlatformRolePermissions: an empty request succeeds without
        looking at the role; an unknown role or any missing code fails and
        changes nothing; otherwise every code is linked. */
    method AssignPlatformRolePermissions(roleId: string, codes: seq<string>) returns (out: Outcome)
      modifies this
      ensures codes == [] ==> out == Pass && platformRolePermissions == old(platformRolePermissions)
      ensures codes != [] && roleId !in platformRoles ==> out == Failed(NotFound("PLATFORM_ROLE_NOT_FOUND"))
      ensures out.Failed? ==> platformRolePermissions == old(platformRolePermissions)
      ensures (codes != [] && roleId in platformRoles &&
               exists c :: c in codes && c != "" && c !in ByCode(ScopePlatform, codes)) ==>
              out == Failed(NotFound("PERMISSION_NOT_FOUND"))
      ensures out == Pass && codes != [] ==>
              platformRolePermissions ==
                old(platformRolePermissions) + set id | id in LinkTargets(codes, ByCode(ScopePlatform, codes)) :: (roleId, id)
      ensures platformRoles == old(platformRoles) && roleTenant == old(roleTenant) && userTenant == old(userTenant)
      ensures permissions == old(permissions) && rolePermissions == old(rolePermissions) && userRoles == old(userRoles)
    {
      if |codes| == 0 {
        return Pass;
      }
      if roleId !in platformRoles {
        return Failed(NotFound("PLATFORM_ROLE_NOT_FOUND"));
      }
      var byCode := ByCode(ScopePlatform, codes);
      var missing := MissingPermissions(codes, byCode.Keys);
      if |missing| > 0 {
        return Failed(NotFound("PERMISSION_NOT_FOUND"));
      }
      platformRolePermissions := platformRolePermissions + set id | id in LinkTargets(codes, byCode) :: (roleId, id);
      return Pass;
    }

    /** AssignRolePermissions: the tenant is required first, even for an
        empty request; a role of another tenant is Forbidden. */
    method AssignRolePermissions(ctx: Context, roleId: string, codes: seq<string>) returns (out: Outcome)
      modifies this
      ensures !TenantID(ctx).1 ==> out == Failed(TenantMissing)
      ensures TenantID(ctx).1 && codes == [] ==> out == Pass
      ensures (TenantID(ctx).1 && codes != [] && roleId in roleTenant &&
               roleTenant[roleId] != TenantID(ctx).0) ==> out == Failed(Forbidden("TENANT_MISMATCH"))
      ensures (TenantID(ctx).1 && codes != [] && roleId !in roleTenant) ==> out == Failed(NotFound("ROLE_NOT_FOUND"))
      ensures out == Pass && codes != [] ==>
              roleId in roleTenant && roleTenant[roleId] == TenantID(ctx).0 &&
              rolePermissions ==
                old(rolePermissions) + set id | id in LinkTargets(codes, ByCode(ScopeTenant, codes)) :: (roleId, id)
      ensures out == Pass && codes != [] ==> forall c :: c in codes && c != "" ==> c in ByCode(ScopeTenant, codes)
      ensures out.Failed? || codes == [] ==> rolePermissions == old(rolePermissions)
      ensures platformRoles == old(platformRoles) && roleTenant == old(roleTenant) && userTenant == old(userTenant)
      ensures permissions == old(permissions) && platformRolePermissions == old(platformRolePermissions)
      ensures userRoles == old(userRoles)
    {
      var tenant := RequireTenantID(ctx);
      if tenant.Fail? {
        return Failed(tenant.error);
      }
      if |codes| == 0 {
        return Pass;
      }
      if roleId !in roleTenant {
        return Failed(NotFound("ROLE_NOT_FOUND"));
      }
      if roleTenant[roleId] != tenant.value {
        return Failed(Forbidden("TENANT_MISMATCH"));
      }
      var byCode := ByCode(ScopeTenant, codes);
      var missing := MissingPermissions(codes, byCode.Keys);
      if |missing| > 0 {
        return Failed(NotFound("PERMISSION_NOT_FOUND"));
      }
      rolePermissions := rolePermissions + set id | id in LinkTargets(codes, byCode) :: (roleId, id);
      return Pass;
    }

    /** AssignRole: the user and then the role must exist and both belong
        to the request's tenant. */
    method AssignRole(ctx: Context, userId: string, roleId: string) returns (out: Outcome)
      modifies this
      ensures !TenantID(ctx).1 ==> out == Failed(TenantMissing)
      ensures out == Pass <==>
        TenantID(ctx).1 && userId in userTenant && userTenant[userId] == TenantID(ctx).0 &&
        roleId in roleTenant && roleTenant[roleId] == TenantID(ctx).0
      ensures (TenantID(ctx).1 && userId in userTenant && userTenant[userId] != TenantID(ctx).0) ==>
                out == Failed(Forbidden("TENANT_MISMATCH"))
      ensures out == Pass ==> userRoles == old(userRoles) + {(userId, roleId)}
      ensures out.Failed? ==> userRoles == old(userRoles)
      ensures platformRoles == old(platformRoles) && roleTenant == old(roleTenant) && userTenant == old(userTenant)
      ensures permissions == old(permissions) && platformRolePermissions == old(platformRolePermissions)
      ensures rolePermissions == old(rolePermissions)
    {
      var tenant := RequireTenantID(ctx);
      if tenant.Fail? {
        return Failed(tenant.error);
      }
      if userId !in userTenant {
        return Failed(NotFound("USER_NOT_FOUND"));
      }
      if userTenant[userId] != tenant.value {
        return Failed(Forbidden("TENANT_MISMATCH"));
      }
      if roleId !in roleTenant {
        return Failed(NotFound("ROLE_NOT_FOUND"));
      }
      if roleTenant[roleId] != tenant.value {
        return Failed(Forbidden("TENANT_MISMATCH"));
      }
      userRoles := userRoles + {(userId, roleId)};
      return Pass;
    }
  }
}
