/**
 * The authorization server's data: the client and user registries, the fixed
 * issuer and audience, and the claim sets of the tokens it mints. Signing is
 * abstract: a signed token is its JOSE header and its claims; the RSA
 * signature itself is not modelled.
 */
module IdpModel {
  import opened Wrappers
  import opened Text

  const Issuer: string := "http://localhost:5000"
  /** The `aud` of every access token: the protected resource server. */
  const ApiAudience: string := "http://localhost:8081"
  const SigningAlg: string := "RS256"
  /** Access and ID tokens live one hour (`expires_in` and `exp - iat`). */
  const TokenTtl: int := 3600
  /** Authorization codes live five minutes. */
  const CodeTtl: int := 300

  /** A registered OAuth client. */
  datatype Client = Client(
    secret: string,
    allowedScopes: seq<string>,
    redirectUris: seq<string>,
    responseTypes: seq<string>,
    grantTypes: seq<string>,
    name: string)

  /** A registered end user (demo-only plaintext password). */
  datatype User = User(
    password: string,
    sub: string,
    profile: string,
    email: string,
    tenantId: string)

  type ClientRegistry = map<string, Client>
  type UserRegistry = map<string, User>

  /** The demonstration client registry the server starts with. */
  const DemoClients: ClientRegistry := map[
    "airbnb_agent" := Client("airbnb_secret", ["api:read", "api:write", "openid", "profile", "email"],
                             ["http://localhost:8000/dev-ui/"], ["code"], ["authorization_code"], "Airbnb Agent"),
    "weather_agent" := Client("weather_secret", ["api:read", "openid"],
                              ["http://localhost:8083/callback"], ["code"], ["authorization_code"], "Weather Agent"),
    "Horizon Agent - Tenant ABC" := Client("horizon_secret_abc", ["api:read", "openid", "profile", "email"],
                                           ["http://localhost:8083/callback"], ["code"], ["authorization_code"],
                                           "Horizon Agent - Tenant ABC"),
    "Calendar Agent" := Client("calendar_secret", ["api:read", "openid", "profile", "email"],
                               ["http://localhost:8083/callback"], ["code"], ["authorization_code"], "Calendar Agent")
  ]

  /** The demonstration user registry, keyed by login name. */
  const DemoUsers: UserRegistry := map[
    "john.doe" := User("password123", "john.doe", "I am John Doe.", "john.doe @example.com", "tenant-abc"),
    "jane.doe" := User("password123", "jane.doe", "I am Jane Doe.", "jane.doe @example.com", "tenant-xyz")
  ]

  /**
   * How the server signs. `generateJwt` is the GENERATE_JWT switch; `jwksKids`
   * is the `kid` of each key of the loaded JWKS file (`None` when the file was
   * not found); a key without a `kid` has `None`.
   */
  datatype Signer = Signer(generateJwt: bool, jwksKids: Option<seq<Option<string>>>)

  datatype JwtHeader = JwtHeader(kid: string, alg: string)

  datatype AccessClaims = AccessClaims(
    iss: string,
    aud: string,
    sub: string,
    exp: int,
    iat: int,
    scope: string,
    tenantId: Option<string>)

  datatype IdClaims = IdClaims(
    iss: string,
    sub: string,
    aud: string,
    exp: int,
    iat: int,
    authTime: int,
    email: string,
    profile: string,
    scope: string,
    nonce: Option<string>)

  /** A signed JWT, or the random hex string handed out when JWT generation is off. */
  datatype AccessToken = SignedAccess(header: JwtHeader, claims: AccessClaims) | OpaqueAccess(hex: string)

  datatype IdToken = SignedId(header: JwtHeader, claims: IdClaims)

  /**
   * The JOSE header `generate_jwt` puts on every token: the first JWKS key's
   * `kid` and RS256. `None` where the source raises (no JWKS loaded, an empty
   * key list, a first key without `kid`), which the web layer turns into HTTP 500.
   */
  function HeaderFor(jwksKids: Option<seq<Option<string>>>): (h: Option<JwtHeader>)
    ensures h.Some? <==> jwksKids.Some? && |jwksKids.value| > 0 && jwksKids.value[0].Some?
    ensures h.Some? ==> h.value.kid == jwksKids.value[0].value && h.value.alg == SigningAlg
  {
    match jwksKids
    case None => None
    case Some(kids) =>
      if |kids| == 0 then None
      else match kids[0]
        case None => None
        case Some(kid) => Some(JwtHeader(kid, SigningAlg))
  }

  /**
   * `create_access_token`: with JWT generation on, the claims are the fixed
   * issuer and audience, the user's subject if given (else the client id), one
   * hour of validity from `now`, the space-joined scopes, and `tenant_id` only
   * when one is given. With it off, the token is the fresh hex string `randomHex`.
   * `None` where signing raises.
   */
  function CreateAccessToken(signer: Signer, clientId: string, scopes: seq<string>,
                             userSub: Option<string>, tenantId: Option<string>,
                             now: int, randomHex: string): (t: Option<AccessToken>)
  {
    if signer.generateJwt then
      match HeaderFor(signer.jwksKids)
      case None => None
      case Some(header) =>
        Some(SignedAccess(header, AccessClaims(
          Issuer,
          ApiAudience,
          if Truthy(userSub) then userSub.value else clientId,
          now + TokenTtl,
          now,
          Join(scopes, ' '),
          if Truthy(tenantId) then tenantId else None)))
    else Some(OpaqueAccess(randomHex))
  }

  /**
   * `create_id_token`: `Some(None)` when JWT generation is off (the source
   * returns `None`), `None` where signing raises; otherwise the ID token for
   * `user`, addressed to the client.
   */
  function CreateIdToken(signer: Signer, clientId: string, user: User, scopes: seq<string>,
                         nonce: Option<string>, now: int): (t: Option<Option<IdToken>>)
  {
    if !signer.generateJwt then Some(None)
    else
      match HeaderFor(signer.jwksKids)
      case None => None
      case Some(header) =>
        Some(Some(SignedId(header, IdClaims(
          Issuer, user.sub, clientId, now + TokenTtl, now, now,
          user.email, user.profile, Join(scopes, ' '),
          if Truthy(nonce) then nonce else None))))
  }

  /** Scope lists as the server builds them: pieces of a split on a single space. */
  predicate SpaceFree(scopes: seq<string>) {
    forall i :: 0 <= i < |scopes| ==> ' ' !in scopes[i]
  }

  /**
   * What the access token says. The subject is the user's when one is given
   * and otherwise the client's, `tenant_id` is present exactly when a non-empty
   * one is given, the token is valid for exactly one hour, it is addressed to
   * the resource server, and its `scope` claim splits back into the scope list.
   */
  lemma AccessTokenClaims(signer: Signer, clientId: string, scopes: seq<string>,
                          userSub: Option<string>, tenantId: Option<string>, now: int, randomHex: string)
    requires signer.generateJwt
    requires HeaderFor(signer.jwksKids).Some?
    requires |scopes| >= 1 && SpaceFree(scopes)
    ensures var t := CreateAccessToken(signer, clientId, scopes, userSub, tenantId, now, randomHex);
      && t.Some? && t.value.SignedAccess?
      && var c := t.value.claims;
      && c.iss == Issuer && c.aud == ApiAudience
      && (Truthy(userSub) ==> c.sub == userSub.value)
      && (!Truthy(userSub) ==> c.sub == clientId)
      && (c.tenantId.Some? <==> Truthy(tenantId))
      && (c.tenantId.Some? ==> c.tenantId == tenantId)
      && c.exp - c.iat == TokenTtl && c.iat == now
      && Split(c.scope, ' ') == scopes
      && t.value.header.kid == signer.jwksKids.value[0].value
  {
    SplitJoin(scopes, ' ');
  }

  /**
   * With JWT generation off, neither signing nor the JWKS matters: the access
   * token is the fresh hex string, and there is no ID token for any user or nonce.
   */
  lemma OpaqueWhenJwtOff(signer: Signer, clientId: string, scopes: seq<string>,
                         userSub: Option<string>, tenantId: Option<string>, now: int, randomHex: string,
                         user: User, nonce: Option<string>)
    requires !signer.generateJwt
    ensures CreateAccessToken(signer, clientId, scopes, userSub, tenantId, now, randomHex) == Some(OpaqueAccess(randomHex))
    ensures CreateIdToken(signer, clientId, user, scopes, nonce, now) == Some(None)
  {
  }
}
