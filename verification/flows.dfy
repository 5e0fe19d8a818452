/**
 * Whole flows across the components: an authorization-code grant with PKCE
 * from consent to token and replay, and the router's decisions on the two
 * demonstration cards (a global weather agent and a secured tenant agent).
 */
module Flows {
  import opened Wrappers
  import opened Text
  import opened IdpModel
  import opened CodeStore
  import opened AuthorizeEndpoint
  import opened TokenEndpoint
  import opened RouterCards
  import opened TaskStore
  import opened Router

  /** A token request sending the client's credentials and the code in the form. */
  function CodeExchange(clientId: string, secret: string, code: string, redirectUri: string, verifier: string): TokenRequest {
    TokenRequest(None, TokenForm(Some(clientId), Some(secret), Some("authorization_code"), None,
                                 Some(code), Some(redirectUri), Some(verifier)))
  }

  /**
   * The code flow end to end: after an approved `code` consent with an S256
   * challenge, exchanging the code with the matching verifier within five
   * minutes yields tokens for the consenting user with the requested scope,
   * later than that yields "expired", and a second exchange always fails.
   */
  lemma {:induction false} PkceCodeFlow(clients: ClientRegistry, session: Session, codes: Codes, signer: Signer,
                                        now: int, later: int, freshCode: string, randomHex: string,
                                        parse: string -> UrlParts, crypto: Crypto, verifier: string)
    requires session.authRequest.Some? && session.user.Some?
    requires session.authRequest.value.responseType == Some("code")
    requires session.authRequest.value.clientId in clients
    requires Truthy(session.authRequest.value.codeChallenge)
    requires S256(crypto.sha256, verifier) == session.authRequest.value.codeChallenge.value
    requires verifier != ""
    requires signer.generateJwt && HeaderFor(signer.jwksKids).Some?
    ensures var ar := session.authRequest.value;
      var issued := Consent(session, Some("true"), codes, signer, now, freshCode, randomHex, parse);
      var req := CodeExchange(ar.clientId, clients[ar.clientId].secret, freshCode, ar.redirectUri, verifier);
      var first := GenerateToken(clients, signer, issued.codes, req, crypto, later, randomHex);
      && (later <= now + 300 ==>
            && first.response.Tokens?
            && first.response.scope == ar.scope.GetOr("")
            && first.response.accessToken.SignedAccess?
            && first.response.accessToken.claims.tenantId
               == (if session.user.value.tenantId != "" then Some(session.user.value.tenantId) else None))
      && (later > now + 300 ==> first.response == InvalidGrant("Authorization code has expired"))
      && GenerateToken(clients, signer, first.codes, req, crypto, later, randomHex).response
         == InvalidGrant("Invalid or expired authorization code.")
  {
    var ar := session.authRequest.value;
    var issued := Consent(session, Some("true"), codes, signer, now, freshCode, randomHex, parse);
    var req := CodeExchange(ar.clientId, clients[ar.clientId].secret, freshCode, ar.redirectUri, verifier);
    ConsentIssuesCode(session, codes, signer, now, freshCode, randomHex, parse);
    FormFallback(req, crypto.b64decode);
    assert Authenticated(clients, Credentials(req, crypto.b64decode));
    CodeExchangeSucceedsIff(clients, signer, issued.codes, req, crypto, later, randomHex);
    CodeExchangeErrors(clients, signer, issued.codes, req, crypto, later, randomHex);
    var first := GenerateToken(clients, signer, issued.codes, req, crypto, later, randomHex);
    ReplayRejected(clients, signer, issued.codes, req, req, crypto, later, later, randomHex, randomHex);
  }

  /**
   * The weather agent's machine-to-machine request from the demonstration
   * registry: form credentials and `scope=api:read` yield a bearer token for
   * the client itself whose response echoes the scope.
   */
  lemma WeatherClientCredentials(signer: Signer, codes: Codes, crypto: Crypto, now: int, randomHex: string)
    requires signer.generateJwt && HeaderFor(signer.jwksKids).Some?
    ensures var req := TokenRequest(None, TokenForm(Some("weather_agent"), Some("weather_secret"),
                                                    Some("client_credentials"), Some("api:read"), None, None, None));
      var o := GenerateToken(DemoClients, signer, codes, req, crypto, now, randomHex);
      && o.codes == codes
      && o.response.Tokens?
      && o.response.scope == "api:read"
      && o.response.idToken.None?
      && o.response.accessToken.claims.sub == "weather_agent"
  {
    var req := TokenRequest(None, TokenForm(Some("weather_agent"), Some("weather_secret"),
                                            Some("client_credentials"), Some("api:read"), None, None, None));
    FormFallback(req, crypto.b64decode);
    assert DemoClients["weather_agent"].secret == "weather_secret";
    var scope: string := "api:read";
    assert ' ' !in scope;
    assert Split(scope, ' ') == [scope];
    assert AllAllowed([scope], DemoClients["weather_agent"].allowedScopes);
    ClientCredentialsOutcome(DemoClients, signer, codes, req, crypto, now, randomHex);
  }

  // ------------------------------------------------ the demonstration cards

  const WeatherCard: AgentCard := AgentCard(
    "Weather Agent", "http://weather.agent", "Provides weather forecasts.",
    Some([Skill("get_weather", "Get Weather", "Gets the weather.", Some(["type:weather"]))]),
    None)

  const HorizonCard: AgentCard := AgentCard(
    "Horizon Agent - Tenant ABC", "http://horizon.agent", "Secure order status agent.",
    Some([Skill("get_order_status", "Get Order Status", "Gets order status.",
                Some(["type:horizon", "tenant_id:tenant-abc"]))]),
    Some(map["authorization_uri" := "http://idp/auth"]))

  /** A tag `key:value` whose key has no colon parses to that one pair. */
  lemma SingleTag(key: string, value: string)
    requires ':' !in key
    ensures ParseTags([key + [':'] + value]) == map[key := value]
  {
    ParseTagsLastWins([], key, value);
    assert [] + [key + [':'] + value] == [key + [':'] + value];
  }

  /** The weather card's tag parses into `{type: weather}`. */
  lemma WeatherTags()
    ensures ParseTags(["type:weather"]) == map["type" := "weather"]
  {
    assert "type:weather" == "type" + [':'] + "weather";
    SingleTag("type", "weather");
  }

  /** The tenant card's tags parse into `{type: horizon, tenant_id: tenant-abc}`. */
  lemma HorizonTags()
    ensures ParseTags(["type:horizon", "tenant_id:tenant-abc"])
         == map["type" := "horizon", "tenant_id" := "tenant-abc"]
  {
    assert "type:horizon" == "type" + [':'] + "horizon";
    assert "tenant_id:tenant-abc" == "tenant_id" + [':'] + "tenant-abc";
    TwoTags("type", "horizon", "tenant_id", "tenant-abc");
  }

  /** Two tags with colon-free keys parse into their two pairs, the second winning on a shared key. */
  lemma TwoTags(k1: string, v1: string, k2: string, v2: string)
    requires ':' !in k1 && ':' !in k2
    ensures ParseTags([k1 + [':'] + v1, k2 + [':'] + v2]) == map[k1 := v1][k2 := v2]
  {
    var t1 := k1 + [':'] + v1;
    var t2 := k2 + [':'] + v2;
    SingleTag(k1, v1);
    ParseTagsLastWins([t1], k2, v2);
    assert [t1] + [t2] == [t1, t2];
  }

  /** The scan over a two-card registry. */
  lemma FindCardOfTwo(a: AgentCard, b: AgentCard, f: map<string, string>)
    ensures FindCard([a, b], f)
         == if CardMatches(a, f) then Some(a) else if CardMatches(b, f) then Some(b) else None
  {
    assert [a, b][1..] == [b];
    assert [b][1..] == [];
  }

  /** A card with a single skill matches exactly when that skill does. */
  lemma OneSkillCard(card: AgentCard, f: map<string, string>)
    requires card.skills.Some? && |card.skills.value| == 1
    ensures CardMatches(card, f) <==> SkillMatches(card.skills.value[0], f)
  {
    assert card.skills.value[1..] == [];
  }

  /** The weather card's skill matches a weather request and nothing with another type. */
  lemma WeatherSkill(w: AgentCard, f: map<string, string>)
    requires w.skills == WeatherCard.skills
    requires "type" in f
    ensures SkillMatches(w.skills.value[0], f) <==> f.Keys == {"type"} && f["type"] == "weather"
    ensures CardMatches(w, f) <==> SkillMatches(w.skills.value[0], f)
  {
    var tags := ParseTags(w.skills.value[0].tags.value);
    assert tags == map["type" := "weather"] by {
      WeatherTags();
    }
    SupersetOfOne(f, "type", "weather");
    OneSkillCard(w, f);
  }

  /** A filter naming `key` is covered by the one-entry dictionary exactly when it asks for that entry alone. */
  lemma SupersetOfOne(f: map<string, string>, key: string, value: string)
    requires key in f
    ensures Superset(f, map[key := value]) <==> f.Keys == {key} && f[key] == value
  {
    if Superset(f, map[key := value]) {
      assert f.Keys == {key};
    }
  }

  /** The tenant card's skill matches the tenant filter and no filter for another tenant. */
  lemma HorizonSkill(h: AgentCard, tenant: string)
    requires h.skills == HorizonCard.skills
    ensures SkillMatches(h.skills.value[0], map["type" := "horizon", "tenant_id" := tenant]) <==> tenant == "tenant-abc"
    ensures CardMatches(h, map["type" := "horizon", "tenant_id" := tenant]) <==> tenant == "tenant-abc"
  {
    var f := map["type" := "horizon", "tenant_id" := tenant];
    var tags := ParseTags(h.skills.value[0].tags.value);
    assert tags == map["type" := "horizon", "tenant_id" := "tenant-abc"] by {
      HorizonTags();
    }
    if tenant != "tenant-abc" {
      assert "tenant_id" in f && tags["tenant_id"] != f["tenant_id"];
    }
    OneSkillCard(h, f);
  }

  /** A request for the weather type finds the weather card. */
  lemma WeatherLookup(w: AgentCard, h: AgentCard)
    requires w.skills == WeatherCard.skills
    ensures FindAgentCardByType([w, h], "weather", None) == Some(w)
  {
    var f := map["type" := "weather"];
    WeatherSkill(w, f);
    FindCardOfTwo(w, h, f);
  }

  /** A request for the tenant type finds the tenant card for its tenant, and nothing for any other tenant. */
  lemma HorizonLookup(w: AgentCard, h: AgentCard, tenant: Option<string>)
    requires w.skills == WeatherCard.skills && h.skills == HorizonCard.skills
    ensures FindAgentCardByType([w, h], "horizon", tenant)
         == if tenant == Some("tenant-abc") then Some(h) else None
  {
    if Truthy(tenant) {
      var f := map["type" := "horizon", "tenant_id" := tenant.value];
      assert BuildFilter("horizon", tenant) == Some(f);
      WeatherSkill(w, f);
      HorizonSkill(h, tenant.value);
      FindCardOfTwo(w, h, f);
    }
  }

  /** The tenant card's security details start an authorization request for that card. */
  lemma TenantCardOAuth(h: AgentCard, taskId: string)
    requires h.security == HorizonCard.security
    ensures Secured(h)
    ensures var r := InitiateOAuthFlow(h.name, h.security.value, taskId, None);
      && r.OAuthRedirect?
      && r.authorizationUri == "http://idp/auth"
      && r.taskId == taskId
      && TaskIdFromState(Param(r.params, "state").value) == Some(taskId)
      && Param(r.params, "client_id") == Some(h.name)
  {
    var security := h.security.value;
    assert "authorization_uri" in security;
    assert Lookup(security, Some("authorization_uri")) == Some("http://idp/auth");
  }

  /**
   * A tenant session without a token asking for the secured agent: one
   * `submitted` task is saved and the answer is the OAuth redirect, whose
   * `state` carries that task's id.
   */
  lemma SecuredAgentNeedsLogin(w: AgentCard, h: AgentCard, store: Store, taskId: string, freshContextId: string, text: string)
    requires w.skills == WeatherCard.skills && h.skills == HorizonCard.skills
    requires h.security == HorizonCard.security
    requires taskId !in store
    ensures var session := SessionState(Some("tenant-abc"), None, None, None);
      var o := SendMessage([w, h], "horizon", text, session, store, taskId, freshContextId, None);
      && o.reply == OAuthRequired(InitiateOAuthFlow(h.name, h.security.value, taskId, None))
      && o.store.Keys == store.Keys + {taskId} && o.store[taskId].state == Submitted
      && o.session.activeAgent.None?
  {
    HorizonLookup(w, h, Some("tenant-abc"));
    TenantCardOAuth(h, taskId);
  }

  /** With a token, the secured agent is dispatched to, carrying the bearer header. */
  lemma TokenSentToSecuredAgent(w: AgentCard, h: AgentCard, store: Store, taskId: string, freshContextId: string, text: string)
    requires w.skills == WeatherCard.skills && h.skills == HorizonCard.skills
    ensures var session := SessionState(Some("tenant-abc"), Some("test-token-123"), None, None);
      var o := SendMessage([w, h], "horizon", text, session, store, taskId, freshContextId, None);
      && o.reply.Started?
      && o.reply.dispatch.agentName == h.name
      && o.reply.dispatch.headers == map["Authorization" := "Bearer " + "test-token-123"]
      && o.session.activeAgent == Some(h.name)
  {
    var token: string := "test-token-123";
    var session := SessionState(Some("tenant-abc"), Some(token), None, None);
    HorizonLookup(w, h, Some("tenant-abc"));
    assert Truthy(session.accessToken) by {
      assert token[0] == 't';
    }
    var o := SendMessage([w, h], "horizon", text, session, store, taskId, freshContextId, None);
    assert !o.reply.NoAgent? && !o.reply.OAuthRequired? && !o.reply.Raised?;
    assert o.reply.dispatch.headers == Headers(Some(token));
  }

  /**
   * A session with nothing in it reaches the global agent, with no
   * `Authorization` header, and exactly one `submitted` task is saved.
   */
  lemma GlobalAgentWithoutToken(w: AgentCard, h: AgentCard, store: Store, taskId: string, freshContextId: string, text: string)
    requires w.skills == WeatherCard.skills && w.security == WeatherCard.security
    requires taskId !in store
    ensures var o := SendMessage([w, h], "weather", text, SessionState(None, None, None, None),
                                 store, taskId, freshContextId, None);
      && o.reply.Started?
      && o.reply.dispatch.agentName == w.name
      && o.reply.dispatch.headers == map[]
      && o.store.Keys == store.Keys + {taskId} && o.store[taskId].state == Submitted
      && o.session.contextId == Some(freshContextId)
  {
    WeatherLookup(w, h);
    assert !Secured(w);
  }
}
