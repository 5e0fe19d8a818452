/**
 * `POST /generate-token`: client authentication (HTTP Basic first, form
 * fields as fallback), then the `client_credentials` grant (section 4.4 of
 * RFC 6749) or the `authorization_code` grant (section 4.1.3 of RFC 6749)
 * with PKCE S256 (sections 4.2 and 4.6 of RFC 7636). Errors use the codes of
 * section 5.2 of RFC 6749.
 */
module TokenEndpoint {
  import opened Wrappers
  import opened Text
  import opened Base64Url
  import opened IdpModel
  import opened CodeStore

  /** The form fields of a token request, each possibly absent. */
  datatype TokenForm = TokenForm(
    clientId: Option<string>,
    clientSecret: Option<string>,
    grantType: Option<string>,
    scope: Option<string>,
    code: Option<string>,
    redirectUri: Option<string>,
    codeVerifier: Option<string>)

  datatype TokenRequest = TokenRequest(authorization: Option<string>, form: TokenForm)

  /**
   * The primitives the endpoint calls without implementing them.
   * `b64decode` is `base64.b64decode(s).decode("utf-8")`, `None` where either
   * step raises `ValueError`; `sha256` is SHA-256 of the UTF-8 bytes of a string.
   */
  datatype Crypto = Crypto(b64decode: string -> Option<string>, sha256: string -> seq<byte>)

  datatype TokenResponse =
      /** HTTP 200. `idToken` is `None` when the field is absent and `Some(None)` when it is JSON null. */
    | Tokens(accessToken: AccessToken, idToken: Option<Option<IdToken>>, tokenType: string, expiresIn: int, scope: string)
    | TokenError(status: int, error: string, description: Option<string>)
      /** Token signing raised; the web layer answers HTTP 500. */
    | TokenCrashed

  datatype TokenOutcome = TokenOutcome(response: TokenResponse, codes: Codes)

  function InvalidGrant(description: string): TokenResponse {
    TokenError(400, "invalid_grant", Some(description))
  }

  /** `"Basic " + x` splits on single spaces into `"Basic"` followed by the pieces of `x`. */
  lemma BasicPieces(header: string)
    requires StartsWith(header, "Basic ")
    ensures |Split(header, ' ')| >= 2
    ensures Split(header, ' ')[0] == "Basic"
    ensures Split(header, ' ')[1] == Split(header[6..], ' ')[0]
  {
    assert header == "Basic" + [' '] + header[6..];
    IndexOfAfterPrefix("Basic", ' ', header[6..]);
  }

  /** `auth_header.split(" ")[1]`: the text between `"Basic "` and the next space. */
  function BasicToken(header: string): (t: string)
    requires StartsWith(header, "Basic ")
    ensures ' ' !in t
    ensures StartsWith(header[6..], t)
    ensures |t| == |header| - 6 || header[6 + |t|] == ' '
  {
    BasicPieces(header);
    SplitHead(header[6..], ' ');
    Split(header, ' ')[1]
  }

  /**
   * HTTP Basic credentials (section 2 of RFC 7617): the second space-separated
   * piece of a header starting with `"Basic "`, base64-decoded and split at the
   * first colon. `None` when there is no such header, decoding fails, or the
   * decoded text has no colon.
   */
  function BasicCredentials(header: Option<string>, b64decode: string -> Option<string>): (r: Option<(string, string)>)
    ensures r.Some? ==>
      && header.Some? && StartsWith(header.value, "Basic ")
      && b64decode(BasicToken(header.value)) == Some(r.value.0 + ":" + r.value.1)
      && ':' !in r.value.0
  {
    if header.Some? && StartsWith(header.value, "Basic ") then
      match b64decode(BasicToken(header.value))
      case None => None
      case Some(decoded) => SplitFirst(decoded, ':')
    else None
  }

  /** The Basic pair is used only when both its halves are non-empty. */
  predicate UsableBasic(basic: Option<(string, string)>) {
    basic.Some? && basic.value.0 != "" && basic.value.1 != ""
  }

  /** The client id and secret the endpoint authenticates with. */
  function Credentials(req: TokenRequest, b64decode: string -> Option<string>): (Option<string>, Option<string>)
  {
    var basic := BasicCredentials(req.authorization, b64decode);
    if UsableBasic(basic) then (Some(basic.value.0), Some(basic.value.1))
    else (req.form.clientId, req.form.clientSecret)
  }

  /**
   * Basic takes precedence exactly when it decodes to a non-empty id and a
   * non-empty secret split at the first colon; in every other case both form
   * fields are used, even if the header supplied one half.
   */
  lemma BasicPrecedence(req: TokenRequest, b64decode: string -> Option<string>, id: string, secret: string)
    requires req.authorization.Some? && StartsWith(req.authorization.value, "Basic ")
    requires b64decode(BasicToken(req.authorization.value)) == Some(id + ":" + secret)
    requires ':' !in id
    ensures id != "" && secret != "" ==> Credentials(req, b64decode) == (Some(id), Some(secret))
    ensures id == "" || secret == "" ==> Credentials(req, b64decode) == (req.form.clientId, req.form.clientSecret)
  {
    SplitFirstUnique(id + ":" + secret, ':', id, secret);
  }

  /** Without a usable Basic header the form fields are the credentials. */
  lemma FormFallback(req: TokenRequest, b64decode: string -> Option<string>)
    requires !UsableBasic(BasicCredentials(req.authorization, b64decode))
    ensures Credentials(req, b64decode) == (req.form.clientId, req.form.clientSecret)
  {
  }

  /** The credentials name a registered client and carry its secret. */
  predicate Authenticated(clients: ClientRegistry, creds: (Option<string>, Option<string>)) {
    creds.0.Some? && creds.0.value in clients && creds.1 == Some(clients[creds.0.value].secret)
  }

  /** Every requested scope is one of the client's allowed scopes (the loop of `client_credentials`). */
  function AllAllowed(requested: seq<string>, allowed: seq<string>): (ok: bool)
    ensures ok <==> forall i :: 0 <= i < |requested| ==> requested[i] in allowed
  {
    if |requested| == 0 then true
    else requested[0] in allowed && AllAllowed(requested[1..], allowed)
  }

  /** `client_credentials`: the scope parameter (default empty) is split on single spaces and every piece must be allowed. */
  function ClientCredentialsGrant(client: Client, clientId: string, scope: Option<string>, signer: Signer,
                                  now: int, randomHex: string): TokenResponse
  {
    var scopes := Split(scope.GetOr(""), ' ');
    if !AllAllowed(scopes, client.allowedScopes) then TokenError(400, "invalid_scope", None)
    else
      match CreateAccessToken(signer, clientId, scopes, None, None, now, randomHex)
      case None => TokenCrashed
      case Some(t) => Tokens(t, None, "Bearer", TokenTtl, Join(scopes, ' '))
  }

  /** The PKCE S256 transformation: base64url without padding of SHA-256 of the verifier. */
  function S256(sha256: string -> seq<byte>, verifier: string): string {
    EncodeNoPad(sha256(verifier))
  }

  /**
   * Comparing S256 challenges is comparing digests: stripping the padding
   * loses no information, so two verifiers give the same challenge exactly
   * when their SHA-256 digests agree.
   */
  lemma S256ComparesDigests(sha256: string -> seq<byte>, v1: string, v2: string)
    ensures S256(sha256, v1) == S256(sha256, v2) <==> sha256(v1) == sha256(v2)
  {
    if S256(sha256, v1) == S256(sha256, v2) {
      EncodeNoPadInjective(sha256(v1), sha256(v2));
    }
  }

  /** PKCE passes when no (non-empty) challenge was stored, or a verifier is given whose S256 equals it exactly. */
  predicate PkcePasses(g: CodeGrant, verifier: Option<string>, sha256: string -> seq<byte>) {
    !Truthy(g.codeChallenge) || (Truthy(verifier) && S256(sha256, verifier.value) == g.codeChallenge.value)
  }

  /** Tokens for the user and scopes the code was granted for. */
  function IssueForGrant(clientId: string, g: CodeGrant, signer: Signer, now: int, randomHex: string): TokenResponse {
    var access := CreateAccessToken(signer, clientId, g.scopes, Some(g.user.sub), Some(g.user.tenantId), now, randomHex);
    var id := CreateIdToken(signer, clientId, g.user, g.scopes, None, now);
    if access.None? || id.None? then TokenCrashed
    else Tokens(access.value, Some(id.value), "Bearer", TokenTtl, Join(g.scopes, ' '))
  }

  /** The checks on a popped code, in the source's order, each with its own description. */
  function CheckCode(clientId: string, found: Option<CodeGrant>, form: TokenForm, sha256: string -> seq<byte>,
                     signer: Signer, now: int, randomHex: string): TokenResponse
  {
    match found
    case None => InvalidGrant("Invalid or expired authorization code.")
    case Some(g) =>
      if Some(g.redirectUri) != form.redirectUri || g.clientId != clientId then
        InvalidGrant("Redirect URI or client ID mismatch")
      else if now > g.expiresAt then
        InvalidGrant("Authorization code has expired")
      else if Truthy(g.codeChallenge) && !Truthy(form.codeVerifier) then
        TokenError(400, "invalid_request", Some("Code verifier is required for PKCE flow."))
      else if Truthy(g.codeChallenge) && S256(sha256, form.codeVerifier.value) != g.codeChallenge.value then
        InvalidGrant("PKCE code challenge mismatch.")
      else
        IssueForGrant(clientId, g, signer, now, randomHex)
  }

  /** `authorization_code`: the code is popped first, so it is gone whatever the checks decide. */
  function AuthorizationCodeGrant(clientId: string, codes: Codes, form: TokenForm, sha256: string -> seq<byte>,
                                  signer: Signer, now: int, randomHex: string): TokenOutcome
  {
    var (found, rest) := Pop(codes, form.code);
    TokenOutcome(CheckCode(clientId, found, form, sha256, signer, now, randomHex), rest)
  }

  /**
   * `POST /generate-token`. `now` stands for the clock and `randomHex` for
   * the opaque token used when JWT generation is off.
   */
  function GenerateToken(clients: ClientRegistry, signer: Signer, codes: Codes, req: TokenRequest,
                         crypto: Crypto, now: int, randomHex: string): TokenOutcome
  {
    var (id, secret) := Credentials(req, crypto.b64decode);
    var client := Lookup(clients, id);
    if client.None? then
      TokenOutcome(TokenError(401, "invalid_client", Some("Client not found")), codes)
    else if Some(client.value.secret) != secret then
      TokenOutcome(TokenError(401, "invalid_client", Some("Client authentication failed")), codes)
    else if req.form.grantType == Some("client_credentials") then
      TokenOutcome(ClientCredentialsGrant(client.value, id.value, req.form.scope, signer, now, randomHex), codes)
    else if req.form.grantType == Some("authorization_code") then
      AuthorizationCodeGrant(id.value, codes, req.form, crypto.sha256, signer, now, randomHex)
    else
      TokenOutcome(TokenError(400, "unsupported_grant_type", None), codes)
  }

  /**
   * Client authentication is decided before the grant type is looked at: an
   * unknown client or a wrong secret is `invalid_client` with 401 and leaves
   * the code map unchanged, and nothing else yields `invalid_client`.
   */
  lemma InvalidClientFirst(clients: ClientRegistry, signer: Signer, codes: Codes, req: TokenRequest,
                           crypto: Crypto, now: int, randomHex: string)
    ensures var o := GenerateToken(clients, signer, codes, req, crypto, now, randomHex);
      (o.response.TokenError? && o.response.error == "invalid_client")
        <==> !Authenticated(clients, Credentials(req, crypto.b64decode))
    ensures var o := GenerateToken(clients, signer, codes, req, crypto, now, randomHex);
      !Authenticated(clients, Credentials(req, crypto.b64decode)) ==> o.response.status == 401 && o.codes == codes
  {
  }

  /**
   * `client_credentials` never touches the code map. It fails `invalid_scope`
   * exactly when some space-separated requested scope is not allowed; when it
   * succeeds the response echoes the requested scope string, carries no
   * `id_token`, and the token is the client's own.
   */
  lemma ClientCredentialsOutcome(clients: ClientRegistry, signer: Signer, codes: Codes, req: TokenRequest,
                                 crypto: Crypto, now: int, randomHex: string)
    requires Authenticated(clients, Credentials(req, crypto.b64decode))
    requires req.form.grantType == Some("client_credentials")
    ensures var o := GenerateToken(clients, signer, codes, req, crypto, now, randomHex);
      var clientId := Credentials(req, crypto.b64decode).0.value;
      var requested := Split(req.form.scope.GetOr(""), ' ');
      && o.codes == codes
      && ((o.response == TokenError(400, "invalid_scope", None))
            <==> (exists i :: 0 <= i < |requested| && requested[i] !in clients[clientId].allowedScopes))
      && (o.response.Tokens? ==>
            && o.response.scope == req.form.scope.GetOr("")
            && o.response.idToken.None?
            && o.response.tokenType == "Bearer" && o.response.expiresIn == 3600
            && (o.response.accessToken.SignedAccess? ==>
                  o.response.accessToken.claims.sub == clientId && o.response.accessToken.claims.tenantId.None?))
  {
    JoinSplit(req.form.scope.GetOr(""), ' ');
  }

  /** A missing scope is the single empty scope, rejected unless a client allows the empty string. */
  lemma MissingScopeRejected(clients: ClientRegistry, signer: Signer, codes: Codes, req: TokenRequest,
                             crypto: Crypto, now: int, randomHex: string)
    requires Authenticated(clients, Credentials(req, crypto.b64decode))
    requires req.form.grantType == Some("client_credentials") && req.form.scope.None?
    requires "" !in clients[Credentials(req, crypto.b64decode).0.value].allowedScopes
    ensures GenerateToken(clients, signer, codes, req, crypto, now, randomHex).response == TokenError(400, "invalid_scope", None)
  {
    assert Split("", ' ') == [""];
  }

  /** Any grant type other than the two supported is `unsupported_grant_type` and changes nothing. */
  lemma UnsupportedGrant(clients: ClientRegistry, signer: Signer, codes: Codes, req: TokenRequest,
                         crypto: Crypto, now: int, randomHex: string)
    requires Authenticated(clients, Credentials(req, crypto.b64decode))
    requires req.form.grantType != Some("client_credentials") && req.form.grantType != Some("authorization_code")
    ensures GenerateToken(clients, signer, codes, req, crypto, now, randomHex)
            == TokenOutcome(TokenError(400, "unsupported_grant_type", None), codes)
  {
  }

  /**
   * An `authorization_code` request from an authenticated client removes the
   * presented code whatever the outcome, and removes nothing else.
   */
  lemma CodeAlwaysConsumed(clients: ClientRegistry, signer: Signer, codes: Codes, req: TokenRequest,
                           crypto: Crypto, now: int, randomHex: string)
    requires Authenticated(clients, Credentials(req, crypto.b64decode))
    requires req.form.grantType == Some("authorization_code")
    ensures var o := GenerateToken(clients, signer, codes, req, crypto, now, randomHex);
      && (req.form.code.Some? ==> o.codes.Keys == codes.Keys - {req.form.code.value} && req.form.code.value !in o.codes)
      && (req.form.code.None? ==> o.codes == codes)
      && forall k :: k in o.codes ==> o.codes[k] == codes[k]
  {
  }

  /** A code is redeemable at most once: any later exchange of the same code fails `invalid_grant`. */
  lemma ReplayRejected(clients: ClientRegistry, signer: Signer, codes: Codes, req: TokenRequest, req2: TokenRequest,
                       crypto: Crypto, now: int, now2: int, randomHex: string, randomHex2: string)
    requires Authenticated(clients, Credentials(req, crypto.b64decode))
    requires req.form.grantType == Some("authorization_code") && req.form.code.Some?
    requires Authenticated(clients, Credentials(req2, crypto.b64decode))
    requires req2.form.grantType == Some("authorization_code") && req2.form.code == req.form.code
    ensures var first := GenerateToken(clients, signer, codes, req, crypto, now, randomHex);
      var second := GenerateToken(clients, signer, first.codes, req2, crypto, now2, randomHex2);
      second.response == InvalidGrant("Invalid or expired authorization code.")
  {
    CodeAlwaysConsumed(clients, signer, codes, req, crypto, now, randomHex);
  }

  /**
   * The exchange succeeds exactly when the code is present, was issued to this
   * client for this redirect URI, has not expired (strictly later than
   * `expires_at`; a code is still good at that instant), passes PKCE, and
   * signing works. The tokens then belong to the stored user and scopes.
   */
  lemma CodeExchangeSucceedsIff(clients: ClientRegistry, signer: Signer, codes: Codes, req: TokenRequest,
                                crypto: Crypto, now: int, randomHex: string)
    requires Authenticated(clients, Credentials(req, crypto.b64decode))
    requires req.form.grantType == Some("authorization_code")
    ensures var o := GenerateToken(clients, signer, codes, req, crypto, now, randomHex);
      var clientId := Credentials(req, crypto.b64decode).0.value;
      o.response.Tokens? <==>
        && req.form.code.Some? && req.form.code.value in codes
        && var g := codes[req.form.code.value];
        && req.form.redirectUri == Some(g.redirectUri)
        && g.clientId == clientId
        && now <= g.expiresAt
        && PkcePasses(g, req.form.codeVerifier, crypto.sha256)
        && (signer.generateJwt ==> HeaderFor(signer.jwksKids).Some?)
    ensures var o := GenerateToken(clients, signer, codes, req, crypto, now, randomHex);
      var clientId := Credentials(req, crypto.b64decode).0.value;
      o.response.Tokens? && signer.generateJwt ==>
        && var g := codes[req.form.code.value];
        && o.response.scope == Join(g.scopes, ' ')
        && o.response.accessToken.SignedAccess?
        && o.response.accessToken.claims.sub == (if g.user.sub != "" then g.user.sub else clientId)
        && o.response.accessToken.claims.tenantId == (if g.user.tenantId != "" then Some(g.user.tenantId) else None)
        && o.response.accessToken.claims.scope == Join(g.scopes, ' ')
        && o.response.accessToken.claims.aud == ApiAudience
        && o.response.idToken.Some? && o.response.idToken.value.Some?
        && o.response.idToken.value.value.claims.sub == g.user.sub
        && o.response.idToken.value.value.claims.aud == clientId
  {
  }

  /**
   * The failed exchanges, in the order the checks run: a missing code first,
   * then a redirect or client mismatch, then expiry, then PKCE (a missing
   * verifier is `invalid_request`, a wrong one `invalid_grant`).
   */
  lemma CodeExchangeErrors(clients: ClientRegistry, signer: Signer, codes: Codes, req: TokenRequest,
                           crypto: Crypto, now: int, randomHex: string)
    requires Authenticated(clients, Credentials(req, crypto.b64decode))
    requires req.form.grantType == Some("authorization_code")
    ensures var r := GenerateToken(clients, signer, codes, req, crypto, now, randomHex).response;
      var clientId := Credentials(req, crypto.b64decode).0.value;
      var code := req.form.code;
      var v := req.form.codeVerifier;
      if code.None? || code.value !in codes then
        r == InvalidGrant("Invalid or expired authorization code.")
      else
        var g := codes[code.value];
        if req.form.redirectUri != Some(g.redirectUri) || g.clientId != clientId then
          r == InvalidGrant("Redirect URI or client ID mismatch")
        else if now > g.expiresAt then
          r == InvalidGrant("Authorization code has expired")
        else if Truthy(g.codeChallenge) && !Truthy(v) then
          r == TokenError(400, "invalid_request", Some("Code verifier is required for PKCE flow."))
        else if Truthy(g.codeChallenge) && S256(crypto.sha256, v.value) != g.codeChallenge.value then
          r == InvalidGrant("PKCE code challenge mismatch.")
        else
          r.Tokens? || r.TokenCrashed?
  {
  }

  /**
   * The stored `code_challenge_method` is never consulted: grants that differ
   * only in it are exchanged identically. With no (or an empty) stored
   * challenge, the verifier is not consulted either.
   */
  lemma PkceMethodIgnored(clientId: string, g: CodeGrant, otherMethod: Option<string>, form: TokenForm,
                          verifier: Option<string>, sha256: string -> seq<byte>, signer: Signer, now: int,
                          randomHex: string)
    ensures CheckCode(clientId, Some(g), form, sha256, signer, now, randomHex)
         == CheckCode(clientId, Some(g.(codeChallengeMethod := otherMethod)), form, sha256, signer, now, randomHex)
    ensures !Truthy(g.codeChallenge) ==>
      CheckCode(clientId, Some(g), form, sha256, signer, now, randomHex)
         == CheckCode(clientId, Some(g), form.(codeVerifier := verifier), sha256, signer, now, randomHex)
  {
  }
}
