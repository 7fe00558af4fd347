/** Console and platform sign-in and self-service registration
    (apps/server/internal/authn/biz/auth.go). The account repository,
    bcrypt, uuid and the clock are parameters; sessions are HS256 tokens
    of the Jwt module. */
module Authn {
  import opened Wrappers
  import opened Text
  import opened Jwt

  datatype Tenant = Tenant(id: string, name: string, kind: string, plan: string, status: string, createdAt: int)

  datatype TenantAccount = TenantAccount(
    id: string, tenantId: string, email: string, phone: string, name: string, status: string, passwordHash: string)

  datatype PlatformAccount = PlatformAccount(
    id: string, email: string, phone: string, name: string, status: string, passwordHash: string)

  datatype AuthProfile = AuthProfile(subjectId: string, tenantId: string, account: string, name: string, roles: seq<string>)

  /** `expiresAt` in Unix seconds. */
  datatype AuthSession = AuthSession(token: string, expiresAt: int, profile: AuthProfile)

  datatype RegisterInput = RegisterInput(
    tenantName: string, tenantType: string, adminName: string, email: string, phone: string, password: string)

  /** The account repository. */
  datatype AuthRepo = AuthRepo(
    findTenantAccount: (string, string) -> Result<TenantAccount>,
    findPlatformAccount: string -> Result<PlatformAccount>,
    listUserRoles: string -> Result<seq<string>>,
    createTenantWithAdmin: (Tenant, TenantAccount, string) -> Result<(Tenant, TenantAccount)>)

  /** bcrypt: `matches(hash, password)` is CompareHashAndPassword succeeding;
      `generate` fails with None. */
  datatype PasswordHasher = PasswordHasher(matches: (string, string) -> bool, generate: string -> Option<string>)

  /** The use case's settings, trimmed when it is built. */
  datatype AuthSettings = AuthSettings(secret: string, issuer: string, audience: string, tokenTtl: int)

  /** defaultTokenTTL: 24 hours, in seconds. */
  const DefaultTokenTtl := 24 * 60 * 60

  const LoginInvalid := BadRequest("LOGIN_INVALID")
  const LoginFailed := Unauthorized("LOGIN_FAILED")
  const AccountDisabled := Forbidden("ACCOUNT_DISABLED")
  const RegisterInvalid := BadRequest("REGISTER_INVALID")
  const TenantTypeInvalid := BadRequest("TENANT_TYPE_INVALID")
  const PasswordHashFailed := InternalServer("PASSWORD_HASH_FAILED")
  const SecretMissing := InternalServer("JWT_SECRET_MISSING")
  const SignFailed := InternalServer("JWT_SIGN_FAILED")

  /** NewAuthUsecase with the auth section present (`present`) or absent. */
  function NewAuthSettings(present: bool, secret: string, issuer: string, audience: string): (s: AuthSettings)
    ensures s.tokenTtl == DefaultTokenTtl
    ensures present ==> s.secret == TrimSpace(secret) && s.issuer == TrimSpace(issuer) && s.audience == TrimSpace(audience)
    ensures !present ==> s.secret == "" && s.issuer == "" && s.audience == ""
  {
    if present then AuthSettings(TrimSpace(secret), TrimSpace(issuer), TrimSpace(audience), DefaultTokenTtl)
    else AuthSettings("", "", "", DefaultTokenTtl)
  }

  /** isActiveStatus: `active`, ignoring case and surrounding white space. */
  predicate IsActiveStatus(status: string) {
    TrimSpace(Lower(status)) == "active"
  }

  /** The status is active exactly when its trimmed, lower-cased text is
      `active`: padding and case never matter. */
  lemma ActiveStatusNormalised(status: string)
    ensures IsActiveStatus(status) <==> Lower(TrimSpace(status)) == "active"
    ensures IsActiveStatus(status) <==> IsActiveStatus(Lower(TrimSpace(status)))
  {
    LowerTrimSpace(status);
    LowerIdempotent(TrimSpace(status));
    LowerTrimSpace(TrimSpace(status));
    TrimSpaceIdempotent(Lower(status));
  }

  /** Instances of the status check. */
  lemma ActiveStatusExamples()
    ensures IsActiveStatus("active") && IsActiveStatus(" Active ") && !IsActiveStatus("disabled")
  {
    assert Lower("active") == "active";
    assert Lower(" Active ") == " active ";
    assert TrimSpace(" active ") == TrimSpace("active ") by {
      assert " active "[1..] == "active ";
    }
    assert TrimSpace("active ") == TrimSpace("active") by {
      assert "active "[..|"active "| - 1] == "active";
    }
    assert Lower("disabled") == "disabled";
  }

  /** primaryAccount: the e-mail when it is not blank, else the phone. */
  function PrimaryAccount(email: string, phone: string): (r: string)
    ensures TrimSpace(email) != "" ==> r == email
    ensures TrimSpace(email) == "" ==> r == phone
  {
    if TrimSpace(email) != "" then email else phone
  }

  /** The claims a session token carries. */
  function SessionClaims(settings: AuthSettings, profile: AuthProfile, now: int): (c: Claims)
    ensures c.subject == profile.subjectId && c.tenantId == profile.tenantId && c.roles == profile.roles
    ensures c.issuer == settings.issuer && c.expiry == now + settings.tokenTtl
    ensures c.notBefore == now && c.issuedAt == now
    ensures settings.audience == "" ==> c.audience == NoAudience
    ensures settings.audience != "" ==> c.audience == AudString(settings.audience)
  {
    Claims(profile.tenantId, profile.subjectId, settings.issuer,
           if settings.audience != "" then AudString(settings.audience) else NoAudience,
           now + settings.tokenTtl, now, now, profile.roles)
  }

  /** buildSession: a blank secret is JWT_SECRET_MISSING; otherwise the
      profile's token, expiring `tokenTtl` seconds from `now`. */
  function BuildSession(settings: AuthSettings, codec: JwtCodec, profile: AuthProfile, now: int): (r: Result<AuthSession>)
    ensures TrimSpace(settings.secret) == "" <==> r == Fail(SecretMissing)
    ensures r.Fail? ==> r.error == SecretMissing || r.error == SignFailed
    ensures r.Ok? ==>
      r.value.expiresAt == now + settings.tokenTtl && r.value.profile == profile &&
      Ok(r.value.token) == SignHS256(codec, SessionClaims(settings, profile, now), settings.secret)
  {
    if TrimSpace(settings.secret) == "" then Fail(SecretMissing)
    else
      match SignHS256(codec, SessionClaims(settings, profile, now), settings.secret)
      case Fail(_) => Fail(SignFailed)
      case Ok(token) => Ok(AuthSession(token, now + settings.tokenTtl, profile))
  }

  /** A session's token is accepted, with the session's claims, by the
      token parser configured with the same secret, issuer and audience at
      any time from its issue up to (not including) its expiry. */
  lemma SessionTokenAccepted(settings: AuthSettings, codec: JwtCodec, profile: AuthProfile, now: int, t: int)
    requires Sound(codec)
    requires BuildSession(settings, codec, profile, now).Ok?
    requires now <= t < now + settings.tokenTtl
    ensures ParseHS256(codec, BuildSession(settings, codec, profile, now).value.token,
                       settings.secret, settings.issuer, settings.audience, t)
            == Ok(SessionClaims(settings, profile, now))
  {
    var claims := SessionClaims(settings, profile, now);
    assert settings.secret != "";
    assert CheckClaims(claims, settings.issuer, settings.audience, t).Ok?;
    SignThenParse(codec, claims, settings.secret, settings.issuer, settings.audience, t);
  }

  /** From its expiry on, a session's token is rejected as expired. */
  lemma SessionTokenExpires(settings: AuthSettings, codec: JwtCodec, profile: AuthProfile, now: int, t: int)
    requires Sound(codec)
    requires BuildSession(settings, codec, profile, now).Ok?
    requires now >= 0 && settings.tokenTtl > 0 && t >= now + settings.tokenTtl
    ensures ParseHS256(codec, BuildSession(settings, codec, profile, now).value.token,
                       settings.secret, settings.issuer, settings.audience, t)
            == Fail(ExpiredToken)
  {
    var claims := SessionClaims(settings, profile, now);
    var token := BuildSession(settings, codec, profile, now).value.token;
    assert settings.secret != "";
    // The signature checks out at any time; only the expiry fails.
    SignThenParse(codec, claims, settings.secret, "", "", now);
    assert Decoded(codec, token, settings.secret) == Ok(claims);
  }

  /** The account lookup's error as ConsoleLogin reports it: an ambiguous
      account passes through, any other failure is LOGIN_FAILED. */
  function LookupFailure(err: Error): (e: Error)
    ensures err.Kratos? && err.reason == "ACCOUNT_AMBIGUOUS" ==> e == err
    ensures !(err.Kratos? && err.reason == "ACCOUNT_AMBIGUOUS") ==> e == LoginFailed
  {
    if err.Kratos? && err.reason == "ACCOUNT_AMBIGUOUS" then err else LoginFailed
  }

  /** The checks every sign-in makes of an account that was found, in
      order: disabled, no password hash, wrong password. */
  function CheckCredentials(hasher: PasswordHasher, status: string, hash: string, password: string): (r: Outcome)
    ensures r == Pass <==> IsActiveStatus(status) && hash != "" && hasher.matches(hash, password)
    ensures !IsActiveStatus(status) ==> r == Failed(AccountDisabled)
    ensures IsActiveStatus(status) && r.Failed? ==> r.error == LoginFailed
  {
    if !IsActiveStatus(status) then Failed(AccountDisabled)
    else if hash == "" then Failed(LoginFailed)
    else if !hasher.matches(hash, password) then Failed(LoginFailed)
    else Pass
  }

  /** ConsoleLogin. */
  function ConsoleLogin(repo: AuthRepo, hasher: PasswordHasher, settings: AuthSettings, codec: JwtCodec,
                        account: string, password: string, tenantId: string, now: int): (r: Result<AuthSession>)
    ensures TrimSpace(account) == "" || TrimSpace(password) == "" ==> r == Fail(LoginInvalid)
    ensures TrimSpace(account) != "" && TrimSpace(password) != "" ==>
      var found := repo.findTenantAccount(TrimSpace(account), TrimSpace(tenantId));
      (found.Fail? ==> r == Fail(LookupFailure(found.error))) &&
      (found.Ok? && CheckCredentials(hasher, found.value.status, found.value.passwordHash, TrimSpace(password)).Failed? ==>
         r == Fail(CheckCredentials(hasher, found.value.status, found.value.passwordHash, TrimSpace(password)).error))
    ensures r.Ok? ==>
      var user := repo.findTenantAccount(TrimSpace(account), TrimSpace(tenantId)).value;
      IsActiveStatus(user.status) && user.passwordHash != "" && hasher.matches(user.passwordHash, TrimSpace(password)) &&
      repo.listUserRoles(user.id).Ok? &&
      r.value.profile == AuthProfile(user.id, user.tenantId, PrimaryAccount(user.email, user.phone), user.name,
                                     repo.listUserRoles(user.id).value)
  {
    var account := TrimSpace(account);
    var password := TrimSpace(password);
    if account == "" || password == "" then Fail(LoginInvalid)
    else
      match repo.findTenantAccount(account, TrimSpace(tenantId))
      case Fail(err) => Fail(LookupFailure(err))
      case Ok(user) =>
        match CheckCredentials(hasher, user.status, user.passwordHash, password)
        case Failed(err) => Fail(err)
        case Pass =>
          var roles :- repo.listUserRoles(user.id);
          BuildSession(settings, codec, AuthProfile(user.id, user.tenantId, PrimaryAccount(user.email, user.phone), user.name, roles), now)
  }

  /** PlatformLogin: every lookup failure is LOGIN_FAILED, and a platform
      session carries the single role `platform_admin` and no tenant. */
  function PlatformLogin(repo: AuthRepo, hasher: PasswordHasher, settings: AuthSettings, codec: JwtCodec,
                         account: string, password: string, now: int): (r: Result<AuthSession>)
    ensures TrimSpace(account) == "" || TrimSpace(password) == "" ==> r == Fail(LoginInvalid)
    ensures TrimSpace(account) != "" && TrimSpace(password) != "" && repo.findPlatformAccount(TrimSpace(account)).Fail? ==>
      r == Fail(LoginFailed)
    ensures r.Fail? ==> r.error in {LoginInvalid, LoginFailed, AccountDisabled, SecretMissing, SignFailed}
    ensures r.Ok? ==>
      var admin := repo.findPlatformAccount(TrimSpace(account)).value;
      IsActiveStatus(admin.status) && admin.passwordHash != "" && hasher.matches(admin.passwordHash, TrimSpace(password)) &&
      r.value.profile == AuthProfile(admin.id, "", PrimaryAccount(admin.email, admin.phone), admin.name, ["platform_admin"])
  {
    var account := TrimSpace(account);
    var password := TrimSpace(password);
    if account == "" || password == "" then Fail(LoginInvalid)
    else
      match repo.findPlatformAccount(account)
      case Fail(_) => Fail(LoginFailed)
      case Ok(admin) =>
        match CheckCredentials(hasher, admin.status, admin.passwordHash, password)
        case Failed(err) => Fail(err)
        case Pass =>
          BuildSession(settings, codec, AuthProfile(admin.id, "", PrimaryAccount(admin.email, admin.phone), admin.name, ["platform_admin"]), now)
  }

  /** The registration's tenant type: blank means `enterprise`; only
      `enterprise` and `personal` are accepted. */
  function RegisterTenantType(requested: string): (r: Option<string>)
    ensures r.Some? <==> TrimSpace(requested) in {"", "enterprise", "personal"}
    ensures r.Some? ==> r.value in {"enterprise", "personal"}
    ensures r.Some? && TrimSpace(requested) != "" ==> r.value == TrimSpace(requested)
  {
    var t := TrimSpace(requested);
    var t := if t == "" then "enterprise" else t;
    if t != "enterprise" && t != "personal" then None else Some(t)
  }

  /** The tenant and its first administrator as handed to the repository:
      a free, active tenant; an active administrator of that tenant. */
  function Registration(input: RegisterInput, kind: string, hash: string, tenantUuid: string, adminUuid: string, now: int): (r: (Tenant, TenantAccount))
    ensures r.0 == Tenant(tenantUuid, TrimSpace(input.tenantName), kind, "free", "active", now)
    ensures r.1.id == adminUuid && r.1.tenantId == r.0.id && r.1.status == "active" && r.1.passwordHash == hash
    ensures r.1.email == TrimSpace(input.email) && r.1.phone == TrimSpace(input.phone) && r.1.name == TrimSpace(input.adminName)
  {
    var tenant := Tenant(tenantUuid, TrimSpace(input.tenantName), kind, "free", "active", now);
    (tenant, TenantAccount(adminUuid, tenant.id, TrimSpace(input.email), TrimSpace(input.phone), TrimSpace(input.adminName), "active", hash))
  }

  /** ConsoleRegister: tenant name, password and an e-mail or phone are
      required (after trimming), then the tenant type; the new
      administrator gets role `tenant_admin` and a session. */
  function ConsoleRegister(repo: AuthRepo, hasher: PasswordHasher, settings: AuthSettings, codec: JwtCodec,
                           input: RegisterInput, tenantUuid: string, adminUuid: string, now: int): (r: Result<AuthSession>)
    ensures (TrimSpace(input.tenantName) == "" || TrimSpace(input.password) == "" ||
             (TrimSpace(input.email) == "" && TrimSpace(input.phone) == "")) ==> r == Fail(RegisterInvalid)
    ensures TrimSpace(input.tenantName) != "" && TrimSpace(input.password) != "" &&
            (TrimSpace(input.email) != "" || TrimSpace(input.phone) != "") && RegisterTenantType(input.tenantType).None? ==>
            r == Fail(TenantTypeInvalid)
    ensures r.Ok? ==>
      RegisterTenantType(input.tenantType).Some? && hasher.generate(TrimSpace(input.password)).Some? &&
      var records := Registration(input, RegisterTenantType(input.tenantType).value,
                                  hasher.generate(TrimSpace(input.password)).value, tenantUuid, adminUuid, now);
      var created := repo.createTenantWithAdmin(records.0, records.1, "tenant_admin");
      created.Ok? && repo.listUserRoles(created.value.1.id).Ok? &&
      r.value.profile == AuthProfile(created.value.1.id, created.value.0.id,
                                     PrimaryAccount(created.value.1.email, created.value.1.phone),
                                     created.value.1.name, repo.listUserRoles(created.value.1.id).value)
  {
    var password := TrimSpace(input.password);
    if TrimSpace(input.tenantName) == "" || password == "" || (TrimSpace(input.email) == "" && TrimSpace(input.phone) == "") then
      Fail(RegisterInvalid)
    else
      match RegisterTenantType(input.tenantType)
      case None => Fail(TenantTypeInvalid)
      case Some(kind) =>
        match hasher.generate(password)
        case None => Fail(PasswordHashFailed)
        case Some(hash) =>
          var records := Registration(input, kind, hash, tenantUuid, adminUuid, now);
          var created :- repo.createTenantWithAdmin(records.0, records.1, "tenant_admin");
          var roles :- repo.listUserRoles(created.1.id);
          BuildSession(settings, codec, AuthProfile(created.1.id, created.0.id, PrimaryAccount(created.1.email, created.1.phone), created.1.name, roles), now)
  }

  /** A console session names the tenant of the account that signed in,
      and its token carries that tenant, so the middleware attaches it. */
  lemma ConsoleSessionCarriesTenant(repo: AuthRepo, hasher: PasswordHasher, settings: AuthSettings, codec: JwtCodec,
                                    account: string, password: string, tenantId: string, now: int)
    requires Sound(codec)
    requires ConsoleLogin(repo, hasher, settings, codec, account, password, tenantId, now).Ok?
    ensures var s := ConsoleLogin(repo, hasher, settings, codec, account, password, tenantId, now).value;
            var user := repo.findTenantAccount(TrimSpace(account), TrimSpace(tenantId)).value;
            settings.tokenTtl > 0 ==>
            ParseHS256(codec, s.token, settings.secret, settings.issuer, settings.audience, now)
              == Ok(SessionClaims(settings, s.profile, now)) &&
            SessionClaims(settings, s.profile, now).tenantId == user.tenantId
  {
    var s := ConsoleLogin(repo, hasher, settings, codec, account, password, tenantId, now).value;
    if settings.tokenTtl > 0 {
      assert BuildSession(settings, codec, s.profile, now) == Ok(s);
      SessionTokenAccepted(settings, codec, s.profile, now, now);
    }
  }
}
