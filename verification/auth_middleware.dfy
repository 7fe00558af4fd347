/** The JWT middleware of the admin API, in its current form
    (apps/server/internal/middleware/middleware.go) and its older, narrower
    form (apps/server/internal/server/middleware.go). */
module AuthMiddleware {
  import opened Wrappers
  import opened Text
  import opened Jwt
  import opened Contexts
  import opened Tenancy

  /** The server transport of a request: the operation name and the
      `Authorization` header (`""` when missing). */
  datatype Transport = Transport(operation: string, authorization: string)

  datatype AuthConfig = AuthConfig(jwtSecret: string, issuer: string, audience: string)

  /** Call the next handler with this context, or stop with an error. */
  datatype Verdict = Next(ctx: Context) | Reject(error: Error)

  const AdminUnauthorized := Unauthorized("ADMIN_UNAUTHORIZED")

  const AdminServices: seq<string> :=
    ["PlatformIAM", "ConsoleIAM", "ConsoleKnowledge", "ConsoleBot", "ConsoleConversation", "ConsoleAPIMgmt", "ConsoleAnalytics"]

  const LegacyAdminServices: seq<string> := ["PlatformIAM", "ConsoleIAM", "ConsoleKnowledge", "ConsoleConversation"]

  /** isAdminOperation: auth operations are never admin; otherwise an
      operation is admin iff it names one of the seven admin services. */
  predicate IsAdminOperation(operation: string) {
    !Contains(operation, "ConsoleAuth") && !Contains(operation, "PlatformAuth") &&
    exists i :: 0 <= i < |AdminServices| && Contains(operation, AdminServices[i])
  }

  /** The older isAdminOperation: four services, no auth exclusion. */
  predicate IsLegacyAdminOperation(operation: string) {
    exists i :: 0 <= i < |LegacyAdminServices| && Contains(operation, LegacyAdminServices[i])
  }

  /** Every operation the older middleware protects, the current one
      protects too, unless it is an auth operation. */
  lemma AdminOperationsWidened(operation: string)
    requires IsLegacyAdminOperation(operation)
    requires !Contains(operation, "ConsoleAuth") && !Contains(operation, "PlatformAuth")
    ensures IsAdminOperation(operation)
  {
    var i :| 0 <= i < |LegacyAdminServices| && Contains(operation, LegacyAdminServices[i]);
    var j := if i < 3 then i else 4;
    assert AdminServices[j] == LegacyAdminServices[i];
  }

  /** The token of an Authorization header: trimmed, with a
      case-insensitive `bearer ` prefix removed and the rest trimmed. */
  function BearerToken(header: string): (token: string)
    ensures var h := TrimSpace(header);
      && (HasPrefix(Lower(h), "bearer ") ==> token == TrimSpace(h[7..]))
      && (!HasPrefix(Lower(h), "bearer ") ==> token == h)
    ensures token == [] || (!IsSpace(token[0]) && !IsSpace(token[|token| - 1]))
  {
    var h := TrimSpace(header);
    TrimSpaceEnds(header);
    if HasPrefix(Lower(h), "bearer ") then TrimSpaceEnds(h[7..]); TrimSpace(h[7..]) else h
  }

  /** AuthMiddleware, for either admin-operation predicate: requests without
      a transport and non-admin operations pass untouched; otherwise a
      missing secret, an empty token and a token that does not parse are
      Unauthorized, and a valid token attaches its claims and, when
      non-empty, its tenant. */
  function Authenticate(isAdmin: string -> bool, cfg: Option<AuthConfig>, codec: JwtCodec, now: int,
                        transport: Option<Transport>, ctx: Context): (v: Verdict)
    ensures transport.None? || !isAdmin(transport.value.operation) ==> v == Next(ctx)
    ensures transport.Some? && isAdmin(transport.value.operation) && (cfg.None? || cfg.value.jwtSecret == "") ==>
              v == Reject(AdminUnauthorized)
    ensures transport.Some? && isAdmin(transport.value.operation) && BearerToken(transport.value.authorization) == "" ==>
              v == Reject(AdminUnauthorized)
    ensures v.Reject? ==> v.error == AdminUnauthorized
    ensures transport.Some? && isAdmin(transport.value.operation) && v.Next? ==>
              cfg.Some? && BearerToken(transport.value.authorization) != "" &&
              var parsed := ParseHS256(codec, BearerToken(transport.value.authorization),
                                       cfg.value.jwtSecret, cfg.value.issuer, cfg.value.audience, now);
              && parsed.Ok?
              && v.ctx.claims == Some(parsed.value)
              && v.ctx.deadline == ctx.deadline
              && (parsed.value.tenantId != "" ==> TenantID(v.ctx) == (parsed.value.tenantId, true))
              && (parsed.value.tenantId == "" ==> v.ctx.tenant == ctx.tenant)
  {
    if transport.None? || !isAdmin(transport.value.operation) then Next(ctx)
    else if cfg.None? || cfg.value.jwtSecret == "" then Reject(AdminUnauthorized)
    else
      var token := BearerToken(transport.value.authorization);
      if token == "" then Reject(AdminUnauthorized)
      else
        match ParseHS256(codec, token, cfg.value.jwtSecret, cfg.value.issuer, cfg.value.audience, now)
        case Fail(_) => Reject(AdminUnauthorized)
        case Ok(claims) =>
          var withClaims := WithClaims(ctx, claims);
          Next(if claims.tenantId != "" then WithTenantID(withClaims, claims.tenantId) else withClaims)
  }

  /** The current middleware. */
  function AuthMiddleware(cfg: Option<AuthConfig>, codec: JwtCodec, now: int, transport: Option<Transport>, ctx: Context): (v: Verdict)
    ensures (transport.Some? && (Contains(transport.value.operation, "ConsoleAuth") ||
                                 Contains(transport.value.operation, "PlatformAuth"))) ==> v == Next(ctx)
    ensures v == Authenticate(IsAdminOperation, cfg, codec, now, transport, ctx)
  {
    Authenticate(IsAdminOperation, cfg, codec, now, transport, ctx)
  }

  /** The older middleware. */
  function LegacyAuthMiddleware(cfg: Option<AuthConfig>, codec: JwtCodec, now: int, transport: Option<Transport>, ctx: Context): (v: Verdict)
    ensures transport.Some? && !IsLegacyAdminOperation(transport.value.operation) ==> v == Next(ctx)
    ensures v == Authenticate(IsLegacyAdminOperation, cfg, codec, now, transport, ctx)
  {
    Authenticate(IsLegacyAdminOperation, cfg, codec, now, transport, ctx)
  }

  /** A correctly signed, current token reaches the handler with its claims
      attached, whatever casing and padding the bearer prefix has. */
  lemma SignedTokenAdmitted(cfg: AuthConfig, codec: JwtCodec, now: int, claims: Claims, operation: string, ctx: Context)
    requires Sound(codec)
    requires cfg.jwtSecret != ""
    requires CheckClaims(claims, cfg.issuer, cfg.audience, now).Ok?
    requires IsAdminOperation(operation)
    ensures var token := SignHS256(codec, claims, cfg.jwtSecret).value;
            var v := AuthMiddleware(Some(cfg), codec, now, Some(Transport(operation, "Bearer " + token)), ctx);
            v.Next? && v.ctx.claims == Some(claims)
  {
    var token := SignHS256(codec, claims, cfg.jwtSecret).value;
    SignThenParse(codec, claims, cfg.jwtSecret, cfg.issuer, cfg.audience, now);
    BearerOfSigned(codec, claims, cfg.jwtSecret);
    var t := Transport(operation, "Bearer " + token);
    AdmittedWhenParsed(cfg, codec, now, t, ctx, claims);
  }

  lemma AdmittedWhenParsed(cfg: AuthConfig, codec: JwtCodec, now: int, t: Transport, ctx: Context, claims: Claims)
    requires cfg.jwtSecret != "" && IsAdminOperation(t.operation)
    requires BearerToken(t.authorization) != ""
    requires ParseHS256(codec, BearerToken(t.authorization), cfg.jwtSecret, cfg.issuer, cfg.audience, now) == Ok(claims)
    ensures var v := AuthMiddleware(Some(cfg), codec, now, Some(t), ctx); v.Next? && v.ctx.claims == Some(claims)
  {
  }

  /** A signed token survives the bearer extraction unchanged. */
  lemma BearerOfSigned(codec: JwtCodec, claims: Claims, secret: string)
    requires Sound(codec)
    requires secret != ""
    ensures var token := SignHS256(codec, claims, secret).value;
            BearerToken("Bearer " + token) == token
  {
    SignedTokenAlphabet(codec, claims, secret);
    BearerOfPlain(SignHS256(codec, claims, secret).value);
  }

  /** A token with no white space at its ends is what `Bearer <token>`
      yields. */
  lemma BearerOfPlain(token: string)
    requires |token| >= 1 && !IsSpace(token[0]) && !IsSpace(token[|token| - 1])
    ensures BearerToken("Bearer " + token) == token
  {
    var header := "Bearer " + token;
    assert !IsSpace(header[0]) && !IsSpace(header[|header| - 1]);
    TrimSpaceUntouched(header);
    assert Lower(header)[..7] == "bearer ";
    assert header[7..] == token;
    TrimSpaceUntouched(token);
  }
}
