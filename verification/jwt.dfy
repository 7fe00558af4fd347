/** HS256 JSON web tokens (apps/server/internal/auth/jwt.go). Base64url,
    HMAC-SHA256 and JSON are parameters of the model (a `JwtCodec`); the
    model fixes the order of the checks and the shape of a token. */
module Jwt {
  import opened Wrappers
  import opened Text

  /** The `aud` claim as decoded into `any`: absent, a string, a list of
      arbitrary JSON values (None for a non-string item), a `[]string` built
      in Go, or some other JSON type. */
  datatype Audience =
    | NoAudience
    | AudString(s: string)
    | AudAnyList(items: seq<Option<string>>)
    | AudStringList(names: seq<string>)
    | AudOther

  datatype Claims = Claims(
    tenantId: string,
    subject: string,
    issuer: string,
    audience: Audience,
    expiry: int,
    notBefore: int,
    issuedAt: int,
    roles: seq<string>)

  datatype Header = Header(alg: string, typ: string)

  /** The foreign functions the token format is built from. */
  datatype JwtCodec = JwtCodec(
    encode: string -> string,                 // base64.RawURLEncoding.EncodeToString
    decode: string -> Option<string>,         // base64.RawURLEncoding.DecodeString
    mac: (string, string) -> string,          // HMAC-SHA256(secret, message)
    marshalHeader: Header -> string,
    parseHeader: string -> Option<Header>,
    marshalClaims: Claims -> string,
    parseClaims: string -> Option<Claims>)

  /** What the round trip needs of the foreign functions: decoding inverts
      encoding, the encoding alphabet is the base64url one, and unmarshalling inverts
      marshalling. */
  ghost predicate Sound(c: JwtCodec) {
    (forall s :: c.decode(c.encode(s)) == Some(s)) &&
    (forall s, i :: 0 <= i < |c.encode(s)| ==> UrlSafe(c.encode(s)[i])) &&
    (forall h :: c.parseHeader(c.marshalHeader(h)) == Some(h)) &&
    (forall cl :: c.parseClaims(c.marshalClaims(cl)) == Some(cl))
  }

  /** The base64url alphabet. */
  predicate UrlSafe(ch: char) { IsAsciiLetter(ch) || IsAsciiDigit(ch) || ch == '-' || ch == '_' }

  const InvalidToken := Plain("invalid token")
  const ExpiredToken := Plain("token expired")
  const InvalidIssuer := Plain("invalid issuer")
  const InvalidAudience := Plain("invalid audience")

  /** audienceMatch */
  predicate AudienceMatch(aud: Audience, expected: string) {
    match aud
    case AudString(s) => s == expected
    case AudAnyList(items) => Some(expected) in items
    case AudStringList(names) => expected in names
    case _ => false
  }

  /** verifySignature: the decoded signature equals the MAC of
      `header.payload`. */
  predicate SignatureValid(c: JwtCodec, secret: string, header: string, payload: string, signature: string) {
    c.decode(signature) == Some(c.mac(secret, header + "." + payload))
  }

  /** The structural checks of ParseHS256, before any claim is examined. */
  function Decoded(c: JwtCodec, token: string, secret: string): (r: Result<Claims>)
    ensures secret == "" ==> r == Fail(InvalidToken)
    ensures |Split(token, '.')| != 3 ==> r == Fail(InvalidToken)
    ensures r.Ok? ==> var parts := Split(token, '.');
      && |parts| == 3
      && c.decode(parts[0]).Some? && c.parseHeader(c.decode(parts[0]).value).Some?
      && c.parseHeader(c.decode(parts[0]).value).value.alg == "HS256"
      && c.decode(parts[1]).Some? && c.parseClaims(c.decode(parts[1]).value) == Some(r.value)
      && SignatureValid(c, secret, parts[0], parts[1], parts[2])
    ensures r.Fail? ==> r.error == InvalidToken
  {
    if secret == "" then Fail(InvalidToken)
    else
      var parts := Split(token, '.');
      if |parts| != 3 then Fail(InvalidToken)
      else match c.decode(parts[0])
      case None => Fail(InvalidToken)
      case Some(headerText) =>
        match c.parseHeader(headerText)
        case None => Fail(InvalidToken)
        case Some(hdr) =>
          if hdr.alg != "HS256" then Fail(InvalidToken)
          else match c.decode(parts[1])
          case None => Fail(InvalidToken)
          case Some(payloadText) =>
            match c.parseClaims(payloadText)
            case None => Fail(InvalidToken)
            case Some(claims) =>
              if !SignatureValid(c, secret, parts[0], parts[1], parts[2]) then Fail(InvalidToken)
              else Ok(claims)
  }

  /** The claim checks, in order: expiry, not-before, issuer, audience.
      Zero times and empty expectations are not checked. */
  function CheckClaims(claims: Claims, issuer: string, audience: string, now: int): (r: Result<Claims>)
    ensures r.Ok? <==>
      (claims.expiry == 0 || now < claims.expiry) &&
      (claims.notBefore == 0 || now >= claims.notBefore) &&
      (issuer == "" || claims.issuer == issuer) &&
      (audience == "" || AudienceMatch(claims.audience, audience))
    ensures r.Ok? ==> r.value == claims
    ensures claims.expiry != 0 && now >= claims.expiry ==> r == Fail(ExpiredToken)
    ensures (claims.expiry == 0 || now < claims.expiry) && claims.notBefore != 0 && now < claims.notBefore ==>
              r == Fail(InvalidToken)
  {
    if claims.expiry != 0 && now >= claims.expiry then Fail(ExpiredToken)
    else if claims.notBefore != 0 && now < claims.notBefore then Fail(InvalidToken)
    else if issuer != "" && claims.issuer != issuer then Fail(InvalidIssuer)
    else if audience != "" && !AudienceMatch(claims.audience, audience) then Fail(InvalidAudience)
    else Ok(claims)
  }

  /** ParseHS256: the signature is verified before any time, issuer or
      audience check, so an unsigned token is never reported as expired. */
  function ParseHS256(c: JwtCodec, token: string, secret: string, issuer: string, audience: string, now: int): (r: Result<Claims>)
    ensures Decoded(c, token, secret).Fail? ==> r == Fail(InvalidToken)
    ensures Decoded(c, token, secret).Ok? ==> r == CheckClaims(Decoded(c, token, secret).value, issuer, audience, now)
    ensures r.Ok? ==> SignatureValid(c, secret, Split(token, '.')[0], Split(token, '.')[1], Split(token, '.')[2])
  {
    var claims :- Decoded(c, token, secret);
    CheckClaims(claims, issuer, audience, now)
  }

  /** SignHS256: `header.payload.signature`, each part base64url encoded. */
  function SignHS256(c: JwtCodec, claims: Claims, secret: string): (r: Result<string>)
    ensures secret == "" <==> r.Fail?
    ensures r.Fail? ==> r.error == InvalidToken
    ensures r.Ok? ==>
      var h := c.encode(c.marshalHeader(Header("HS256", "JWT")));
      var p := c.encode(c.marshalClaims(claims));
      r.value == Join([h, p, c.encode(c.mac(secret, h + "." + p))], ".")
  {
    if secret == "" then Fail(InvalidToken)
    else
      var h := c.encode(c.marshalHeader(Header("HS256", "JWT")));
      var p := c.encode(c.marshalClaims(claims));
      var s := c.encode(c.mac(secret, h + "." + p));
      assert Join([h, p, s], ".") == h + "." + (p + "." + s) by {
        assert [p, s][1..] == [s];
        assert Join([p, s], ".") == p + "." + s;
        assert [h, p, s][1..] == [p, s];
      }
      Ok(h + "." + (p + "." + s))
  }

  /** A signed token parses back to its claims with the same secret,
      whenever the claims are within their time window and match the
      expected issuer and audience. */
  lemma SignThenParse(c: JwtCodec, claims: Claims, secret: string, issuer: string, audience: string, now: int)
    requires Sound(c)
    requires secret != ""
    requires CheckClaims(claims, issuer, audience, now).Ok?
    ensures ParseHS256(c, SignHS256(c, claims, secret).value, secret, issuer, audience, now) == Ok(claims)
  {
    var h := c.encode(c.marshalHeader(Header("HS256", "JWT")));
    var p := c.encode(c.marshalClaims(claims));
    var s := c.encode(c.mac(secret, h + "." + p));
    var token := SignHS256(c, claims, secret).value;
    EncodedHasNoDot(c, c.marshalHeader(Header("HS256", "JWT")));
    EncodedHasNoDot(c, c.marshalClaims(claims));
    EncodedHasNoDot(c, c.mac(secret, h + "." + p));
    SplitJoin([h, p, s], '.');
    assert Split(token, '.') == [h, p, s];
    assert c.decode(h) == Some(c.marshalHeader(Header("HS256", "JWT")));
    assert c.decode(p) == Some(c.marshalClaims(claims));
    assert Decoded(c, token, secret) == Ok(claims);
  }

  /** A token signed with one secret does not verify under another whose
      MAC differs on the token's header and payload. */
  lemma WrongSecretRejected(c: JwtCodec, claims: Claims, secret: string, other: string, issuer: string, audience: string, now: int)
    requires Sound(c)
    requires secret != "" && other != ""
    requires var h := c.encode(c.marshalHeader(Header("HS256", "JWT")));
             var p := c.encode(c.marshalClaims(claims));
             c.mac(other, h + "." + p) != c.mac(secret, h + "." + p)
    ensures ParseHS256(c, SignHS256(c, claims, secret).value, other, issuer, audience, now) == Fail(InvalidToken)
  {
    var h := c.encode(c.marshalHeader(Header("HS256", "JWT")));
    var p := c.encode(c.marshalClaims(claims));
    var s := c.encode(c.mac(secret, h + "." + p));
    var token := SignHS256(c, claims, secret).value;
    EncodedHasNoDot(c, c.marshalHeader(Header("HS256", "JWT")));
    EncodedHasNoDot(c, c.marshalClaims(claims));
    EncodedHasNoDot(c, c.mac(secret, h + "." + p));
    SplitJoin([h, p, s], '.');
    assert Split(token, '.') == [h, p, s];
    assert c.decode(s) == Some(c.mac(secret, h + "." + p));
    assert !SignatureValid(c, other, h, p, s);
  }

  lemma EncodedHasNoDot(c: JwtCodec, s: string)
    requires Sound(c)
    ensures '.' !in c.encode(s)
  {
  }

  /** A signed token is made of base64url characters and two dots. */
  lemma SignedTokenAlphabet(c: JwtCodec, claims: Claims, secret: string)
    requires Sound(c)
    requires secret != ""
    ensures var token := SignHS256(c, claims, secret).value;
            |token| >= 2 && forall i :: 0 <= i < |token| ==> UrlSafe(token[i]) || token[i] == '.'
  {
    var h := c.encode(c.marshalHeader(Header("HS256", "JWT")));
    var p := c.encode(c.marshalClaims(claims));
    var s := c.encode(c.mac(secret, h + "." + p));
    var token := SignHS256(c, claims, secret).value;
    assert token == h + "." + (p + "." + s);
    forall i | 0 <= i < |token| ensures UrlSafe(token[i]) || token[i] == '.' {
      if i < |h| {
        assert token[i] == h[i];
      } else if i == |h| {
      } else if i < |h| + 1 + |p| {
        assert token[i] == p[i - |h| - 1];
      } else if i == |h| + 1 + |p| {
      } else {
        assert token[i] == s[i - |h| - 2 - |p|];
      }
    }
  }
}
