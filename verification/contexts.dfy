/** The request context the server threads through its handlers. A Go
    `context.Context` is modelled by the values the server stores in it:
    the tenant id (apps/server/internal/tenant/tenant.go), the JWT claims
    (apps/server/internal/auth/context.go) and the deadline in
    milliseconds. */
module Contexts {
  import opened Wrappers
  import opened Jwt

  datatype Context = Context(tenant: Option<string>, claims: Option<Claims>, deadline: Option<int>)

  const Background := Context(None, None, None)

  /** auth.WithClaims with non-nil claims. */
  function WithClaims(ctx: Context, claims: Claims): (c: Context)
    ensures c.claims == Some(claims) && c.tenant == ctx.tenant && c.deadline == ctx.deadline
  {
    ctx.(claims := Some(claims))
  }
}

/** Tenant id in the request context (apps/server/internal/tenant/tenant.go). */
module Tenancy {
  import opened Wrappers
  import opened Contexts

  const TenantMissing := Plain("tenant id missing")

  /** WithTenantID: later values shadow earlier ones; nothing else changes. */
  function WithTenantID(ctx: Context, tenantId: string): (c: Context)
    ensures c.tenant == Some(tenantId) && c.claims == ctx.claims && c.deadline == ctx.deadline
  {
    ctx.(tenant := Some(tenantId))
  }

  /** TenantID: a missing value and a stored empty string both read as
      missing, reported as `("", false)`. */
  function TenantID(ctx: Context): (r: (string, bool))
    ensures r.1 <==> ctx.tenant.Some? && ctx.tenant.value != ""
    ensures r.1 ==> r.0 == ctx.tenant.value
    ensures !r.1 ==> r.0 == ""
  {
    if ctx.tenant.None? || ctx.tenant.value == "" then ("", false) else (ctx.tenant.value, true)
  }

  /** RequireTenantID fails with ErrTenantMissing exactly when TenantID
      reports missing, and otherwise returns the stored value. */
  function RequireTenantID(ctx: Context): (r: Result<string>)
    ensures r.Fail? <==> !TenantID(ctx).1
    ensures r.Fail? ==> r.error == TenantMissing
    ensures r.Ok? ==> r.value == TenantID(ctx).0 && r.value != ""
  {
    var (value, ok) := TenantID(ctx);
    if ok then Ok(value) else Fail(TenantMissing)
  }

  /** Storing a non-empty tenant and reading it back gives it back; storing
      the empty string reads as missing. */
  lemma TenantRoundTrip(ctx: Context, tenantId: string)
    ensures tenantId != "" ==> TenantID(WithTenantID(ctx, tenantId)) == (tenantId, true)
    ensures tenantId != "" ==> RequireTenantID(WithTenantID(ctx, tenantId)) == Ok(tenantId)
    ensures tenantId == "" ==> TenantID(WithTenantID(ctx, tenantId)) == ("", false)
  {
  }
}
