/**
 * The interactive half of the authorization server: `GET /authorize` (client
 * and redirect check), `POST /authorize` (login) and `POST /consent` (issue a
 * code into the query string, tokens into the fragment, or deny).
 */
module AuthorizeEndpoint {
  import opened Wrappers
  import opened Text
  import opened IdpModel
  import opened CodeStore

  /** The query parameters of `GET /authorize`, each possibly absent. */
  datatype AuthQuery = AuthQuery(
    clientId: Option<string>,
    redirectUri: Option<string>,
    responseType: Option<string>,
    scope: Option<string>,
    state: Option<string>,
    codeChallenge: Option<string>,
    codeChallengeMethod: Option<string>)

  /**
   * The `auth_request` kept in the session once the GET step accepted the
   * query: the client id and redirect URI are then known to be present.
   */
  datatype AuthRequest = AuthRequest(
    clientId: string,
    redirectUri: string,
    clientName: string,
    responseType: Option<string>,
    scope: Option<string>,
    state: Option<string>,
    codeChallenge: Option<string>,
    codeChallengeMethod: Option<string>)

  /** The cookie session of the login and consent dialogue. */
  datatype Session = Session(authRequest: Option<AuthRequest>, user: Option<User>)

  const EmptySession := Session(None, None)

  /** A URL as `urlparse` splits it into its six fields. */
  datatype UrlParts = UrlParts(scheme: string, netloc: string, path: string, params: string, query: string, fragment: string)

  /** A query or fragment: kept as parsed, or replaced by `urlencode` of the listed parameters. */
  datatype Part =
    | Verbatim(text: string)
    | CodeParams(code: string, state: Option<string>)
    | DeniedParams(error: string, description: string, state: Option<string>)
    | TokenParams(accessToken: AccessToken, idToken: Option<IdToken>, tokenType: string,
                  expiresIn: int, scope: string, state: Option<string>)

  /** A redirect target as `urlunparse` assembles it. */
  datatype Url = Url(scheme: string, netloc: string, path: string, params: string, query: Part, fragment: Part)

  datatype AuthorizeReply = InvalidClientOrRedirect | LoginPage(clientName: string)

  /** The redirect URI exactly (no prefix matching) among the client's registered ones. */
  predicate RegisteredRedirect(clients: ClientRegistry, clientId: Option<string>, redirectUri: Option<string>) {
    && clientId.Some? && clientId.value in clients
    && redirectUri.Some? && redirectUri.value in clients[clientId.value].redirectUris
  }

  /**
   * `GET /authorize`: 400 unless the client is registered and the redirect URI
   * is one of its registered URIs; otherwise the request is remembered in the
   * session and the login page shown.
   */
  function AuthorizeGet(clients: ClientRegistry, q: AuthQuery, session: Session): (r: (AuthorizeReply, Session))
    ensures r.0.LoginPage? <==> RegisteredRedirect(clients, q.clientId, q.redirectUri)
    ensures r.0.InvalidClientOrRedirect? ==> r.1 == session
    ensures r.0.LoginPage? ==>
      && r.1.user == session.user
      && r.1.authRequest.Some?
      && var ar := r.1.authRequest.value;
      && Some(ar.clientId) == q.clientId && Some(ar.redirectUri) == q.redirectUri
      && ar.redirectUri in clients[ar.clientId].redirectUris
      && ar.responseType == q.responseType && ar.scope == q.scope && ar.state == q.state
      && ar.codeChallenge == q.codeChallenge && ar.codeChallengeMethod == q.codeChallengeMethod
  {
    var client := Lookup(clients, q.clientId);
    if client.None? || q.redirectUri.None? || q.redirectUri.value !in client.value.redirectUris then
      (InvalidClientOrRedirect, session)
    else
      var ar := AuthRequest(q.clientId.value, q.redirectUri.value, client.value.name, q.responseType,
                            q.scope, q.state, q.codeChallenge, q.codeChallengeMethod);
      (LoginPage(client.value.name), session.(authRequest := Some(ar)))
  }

  datatype LoginReply =
    | LoginRetry(clientName: string)       // the login page again, with "Invalid username or password"
    | LoginCrashed                         // a failed login without a pending request raises (HTTP 500)
    | ConsentPage(request: Option<AuthRequest>)

  /**
   * `POST /authorize`: the user is remembered only when the name is registered
   * and the password matches; a failed login leaves the session unchanged.
   */
  function AuthorizePost(users: UserRegistry, session: Session, username: Option<string>, password: Option<string>)
    : (r: (LoginReply, Session))
    ensures r.0.ConsentPage? <==> username.Some? && username.value in users && password == Some(users[username.value].password)
    ensures r.0.ConsentPage? ==> r.1 == session.(user := Some(users[username.value])) && r.0.request == session.authRequest
    ensures !r.0.ConsentPage? ==> r.1 == session
    ensures r.0.LoginCrashed? <==> !r.0.ConsentPage? && session.authRequest.None?
  {
    var user := Lookup(users, username);
    if user.None? || Some(user.value.password) != password then
      match session.authRequest
      case None => (LoginCrashed, session)
      case Some(ar) => (LoginRetry(ar.clientName), session)
    else
      (ConsentPage(session.authRequest), session.(user := user))
  }

  /** The hybrid response types that deliver tokens in the fragment. */
  predicate IsImplicit(responseType: Option<string>) {
    responseType == Some("token id_token") || responseType == Some("id_token token")
  }

  datatype ConsentReply =
    | InvalidSession                  // 400 "Invalid session"
    | ConsentCrashed                  // token signing raised (HTTP 500)
    | Redirect(location: Url)

  datatype ConsentOutcome = ConsentOutcome(reply: ConsentReply, codes: Codes, session: Session)

  /** The URL with only its query replaced. */
  function WithQuery(p: UrlParts, query: Part): Url {
    Url(p.scheme, p.netloc, p.path, p.params, query, Verbatim(p.fragment))
  }

  /** The URL with only its fragment replaced. */
  function WithFragment(p: UrlParts, fragment: Part): Url {
    Url(p.scheme, p.netloc, p.path, p.params, Verbatim(p.query), fragment)
  }

  /** The scope list of a request: the `scope` parameter (default empty) split on single spaces. */
  function RequestedScopes(ar: AuthRequest): seq<string> {
    Split(ar.scope.GetOr(""), ' ')
  }

  /**
   * `POST /consent`. `freshCode` stands for `os.urandom(16).hex()`,
   * `randomHex` for the opaque access token used when JWT generation is off,
   * and `parse` for `urlparse`.
   */
  function Consent(session: Session, consent: Option<string>, codes: Codes, signer: Signer, now: int,
                   freshCode: string, randomHex: string, parse: string -> UrlParts): ConsentOutcome
  {
    if session.authRequest.None? || session.user.None? then ConsentOutcome(InvalidSession, codes, session)
    else
      var ar := session.authRequest.value;
      var user := session.user.value;
      var scopes := RequestedScopes(ar);
      var p := parse(ar.redirectUri);
      if consent == Some("true") && IsImplicit(ar.responseType) then
        var access := CreateAccessToken(signer, ar.clientId, scopes, Some(user.sub), Some(user.tenantId), now, randomHex);
        var id := CreateIdToken(signer, ar.clientId, user, scopes, None, now);
        if access.None? || id.None? then ConsentOutcome(ConsentCrashed, codes, session)
        else
          var fragment := TokenParams(access.value, id.value, "Bearer", TokenTtl, Join(scopes, ' '), ar.state);
          ConsentOutcome(Redirect(WithFragment(p, fragment)), codes, EmptySession)
      else if consent == Some("true") && ar.responseType == Some("code") then
        var grant := CodeGrant(ar.clientId, user, scopes, ar.redirectUri, now + CodeTtl,
                               ar.codeChallenge, ar.codeChallengeMethod);
        ConsentOutcome(Redirect(WithQuery(p, CodeParams(freshCode, ar.state))),
                       Insert(codes, freshCode, grant), EmptySession)
      else
        ConsentOutcome(Redirect(WithQuery(p, DeniedParams("access_denied", "User denied access", ar.state))),
                       codes, session)
  }

  /**
   * The code branch: the fresh code is bound to the original client, user,
   * scopes and redirect URI for 300 seconds with the echoed PKCE parameters,
   * every other code is untouched, and only the query of the redirect URI is
   * replaced, by `{code, state}`.
   */
  lemma ConsentIssuesCode(session: Session, codes: Codes, signer: Signer, now: int,
                          freshCode: string, randomHex: string, parse: string -> UrlParts)
    requires session.authRequest.Some? && session.user.Some?
    requires session.authRequest.value.responseType == Some("code")
    ensures var o := Consent(session, Some("true"), codes, signer, now, freshCode, randomHex, parse);
      var ar := session.authRequest.value;
      var p := parse(ar.redirectUri);
      && freshCode in o.codes
      && var g := o.codes[freshCode];
      && g.clientId == ar.clientId && g.user == session.user.value && g.redirectUri == ar.redirectUri
      && g.expiresAt == now + 300
      && Join(g.scopes, ' ') == ar.scope.GetOr("")
      && g.codeChallenge == ar.codeChallenge && g.codeChallengeMethod == ar.codeChallengeMethod
      && o.codes.Keys == codes.Keys + {freshCode}
      && (forall k :: k in codes && k != freshCode ==> o.codes[k] == codes[k])
      && o.reply == Redirect(Url(p.scheme, p.netloc, p.path, p.params, CodeParams(freshCode, ar.state), Verbatim(p.fragment)))
      && o.session == EmptySession
  {
    JoinSplit(session.authRequest.value.scope.GetOr(""), ' ');
  }

  /**
   * The hybrid branch: the code map is untouched and only the fragment of the
   * redirect URI is replaced, by tokens for the consenting user with the
   * requested scopes.
   */
  lemma ConsentImplicitFragment(session: Session, codes: Codes, signer: Signer, now: int,
                                freshCode: string, randomHex: string, parse: string -> UrlParts)
    requires session.authRequest.Some? && session.user.Some?
    requires IsImplicit(session.authRequest.value.responseType)
    requires signer.generateJwt && HeaderFor(signer.jwksKids).Some?
    ensures var o := Consent(session, Some("true"), codes, signer, now, freshCode, randomHex, parse);
      var ar := session.authRequest.value;
      var p := parse(ar.redirectUri);
      && o.codes == codes
      && o.session == EmptySession
      && o.reply.Redirect?
      && var u := o.reply.location;
      && u.scheme == p.scheme && u.netloc == p.netloc && u.path == p.path && u.params == p.params
      && u.query == Verbatim(p.query)
      && u.fragment.TokenParams?
      && u.fragment.state == ar.state && u.fragment.tokenType == "Bearer" && u.fragment.expiresIn == 3600
      && u.fragment.scope == ar.scope.GetOr("")
      && u.fragment.accessToken.SignedAccess?
      && u.fragment.accessToken.claims.sub == (if session.user.value.sub != "" then session.user.value.sub else ar.clientId)
      && u.fragment.idToken.Some? && u.fragment.idToken.value.claims.sub == session.user.value.sub
  {
    JoinSplit(session.authRequest.value.scope.GetOr(""), ' ');
  }

  /**
   * Every consent other than an approved `code` or hybrid request, including
   * an unknown response type, redirects with `error=access_denied` in the
   * query, keeps the fragment, and changes neither the code map nor the session.
   */
  lemma ConsentDenied(session: Session, consent: Option<string>, codes: Codes, signer: Signer, now: int,
                      freshCode: string, randomHex: string, parse: string -> UrlParts)
    requires session.authRequest.Some? && session.user.Some?
    ensures var o := Consent(session, consent, codes, signer, now, freshCode, randomHex, parse);
      var ar := session.authRequest.value;
      var p := parse(ar.redirectUri);
      (o.reply.Redirect? && o.reply.location.query.DeniedParams?)
        <==> !(consent == Some("true") && (IsImplicit(ar.responseType) || ar.responseType == Some("code")))
    ensures var o := Consent(session, consent, codes, signer, now, freshCode, randomHex, parse);
      var ar := session.authRequest.value;
      var p := parse(ar.redirectUri);
      !(consent == Some("true") && (IsImplicit(ar.responseType) || ar.responseType == Some("code"))) ==>
        && o.reply == Redirect(WithQuery(p, DeniedParams("access_denied", "User denied access", ar.state)))
        && o.codes == codes && o.session == session
  {
  }

  /** Consent only ever adds the one fresh code: no other entry of the code map changes. */
  lemma ConsentOnlyAddsFreshCode(session: Session, consent: Option<string>, codes: Codes, signer: Signer, now: int,
                                 freshCode: string, randomHex: string, parse: string -> UrlParts)
    ensures var o := Consent(session, consent, codes, signer, now, freshCode, randomHex, parse);
      && codes.Keys <= o.codes.Keys <= codes.Keys + {freshCode}
      && forall k :: k in codes && k != freshCode ==> o.codes[k] == codes[k]
  {
  }

  /**
   * The dialogue end to end: a code issued after an accepted GET, a successful
   * login and an approval is bound to a registered client and to one of that
   * client's registered redirect URIs.
   */
  lemma IssuedCodeIsForRegisteredRedirect(clients: ClientRegistry, users: UserRegistry, q: AuthQuery, s0: Session,
                                          username: Option<string>, password: Option<string>, codes: Codes,
                                          signer: Signer, now: int, freshCode: string, randomHex: string,
                                          parse: string -> UrlParts)
    requires AuthorizeGet(clients, q, s0).0.LoginPage?
    requires AuthorizePost(users, AuthorizeGet(clients, q, s0).1, username, password).0.ConsentPage?
    requires q.responseType == Some("code")
    ensures var s2 := AuthorizePost(users, AuthorizeGet(clients, q, s0).1, username, password).1;
      var o := Consent(s2, Some("true"), codes, signer, now, freshCode, randomHex, parse);
      && freshCode in o.codes
      && o.codes[freshCode].clientId in clients
      && o.codes[freshCode].redirectUri in clients[o.codes[freshCode].clientId].redirectUris
      && Some(o.codes[freshCode].clientId) == q.clientId
      && o.codes[freshCode].user == users[username.value]
  {
  }
}
