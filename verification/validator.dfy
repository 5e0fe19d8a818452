/**
 * The bearer-token validator a protected resource calls: a process-wide,
 * lazily filled cache of the issuer's discovery document and key set, and a
 * linear decision procedure whose reason strings are part of its contract.
 * Network fetches are inputs; reading the JOSE header and verifying and
 * decoding the JWT are an oracle that reports the outcome PyJWT would.
 */
module Validator {
  import opened Wrappers
  import opened Text

  /** The audience every accepted token must carry. */
  const Audience: string := "http://localhost:8081"

  /** The fields of the discovery document the validator reads (`config.get(...)`). */
  datatype OidcConfig = OidcConfig(issuer: Option<string>, jwksUri: Option<string>)

  /** One key of a JSON Web Key Set. */
  datatype Jwk = Jwk(kid: Option<string>, kty: string, n: string, e: string)

  /** A JSON Web Key Set; `keys` is `None` when the document has no `keys` member. */
  datatype Jwks = Jwks(keys: Option<seq<Jwk>>)

  /** The two module-level globals, `oidc_config` and `jwks`. */
  datatype Cache = Cache(config: Option<OidcConfig>, jwks: Option<Jwks>)

  const EmptyCache := Cache(None, None)

  /** The answer to one HTTP GET: the parsed body, or the text of the `RequestException`. */
  datatype Fetch<T> = Fetched(body: T) | FetchFailed(error: string)

  /** What the network would answer: the discovery URL, and the key-set URL as a function of the URI. */
  datatype Network = Network(discovery: Fetch<OidcConfig>, keys: string -> Fetch<Jwks>)

  /** The fetches a call performed, in order. */
  datatype Request = DiscoveryRequest | JwksRequest(uri: string)

  /** A cache-backed lookup: the `(value, error)` pair, the cache afterwards, and the fetches made. */
  datatype Cached<T> = Cached(result: Result<T, string>, cache: Cache, requests: seq<Request>)

  /** The invariant of the cache: a cached key set implies a cached discovery document. */
  ghost predicate CacheInv(c: Cache) {
    c.jwks.Some? ==> c.config.Some?
  }

  /** `get_oidc_config`: the cached document if there is one, else one fetch, cached only on success. */
  function GetOidcConfig(cache: Cache, net: Network): (r: Cached<OidcConfig>)
    ensures cache.config.Some? ==> r == Cached(Success(cache.config.value), cache, [])
    ensures cache.config.None? ==> r.requests == [DiscoveryRequest]
    ensures r.cache.jwks == cache.jwks
    ensures r.result.Success? <==> r.cache.config.Some?
    ensures r.result.Success? ==> r.cache.config == Some(r.result.value)
    ensures r.result.Failure? ==> r.cache == cache
  {
    if cache.config.Some? then Cached(Success(cache.config.value), cache, [])
    else
      match net.discovery
      case Fetched(doc) => Cached(Success(doc), cache.(config := Some(doc)), [DiscoveryRequest])
      case FetchFailed(e) => Cached(Failure("Error fetching OIDC config: " + e), cache, [DiscoveryRequest])
  }

  /**
   * `get_jwks`: the cached key set if there is one; otherwise the discovery
   * document (cached or fetched), then one fetch of its `jwks_uri`, cached
   * only on success.
   */
  function GetJwks(cache: Cache, net: Network): (r: Cached<Jwks>)
    ensures cache.jwks.Some? ==> r == Cached(Success(cache.jwks.value), cache, [])
    ensures r.result.Success? ==> r.cache.jwks == Some(r.result.value)
    ensures r.result.Failure? ==> r.cache.jwks == cache.jwks
    ensures CacheInv(cache) ==> CacheInv(r.cache)
    ensures CacheInv(cache) && r.result.Success? ==> r.cache.config.Some?
    ensures |r.requests| <= 2
    // no key set yet and no discovery document: a failed discovery is passed on and nothing is cached
    ensures cache.jwks.None? && cache.config.None? && net.discovery.FetchFailed? ==>
      r == Cached(Failure("Error fetching OIDC config: " + net.discovery.error), cache, [DiscoveryRequest])
    // no key set yet, a cached document without a usable `jwks_uri`: a failure without any fetch
    ensures cache.jwks.None? && cache.config.Some? && !Truthy(cache.config.value.jwksUri) ==>
      r == Cached(Failure(NoJwksUri), cache, [])
    // no key set yet, a cached document with a `jwks_uri`: exactly one fetch of that URI, cached only on success
    ensures cache.jwks.None? && cache.config.Some? && Truthy(cache.config.value.jwksUri) ==>
      var uri := cache.config.value.jwksUri.value;
      && r.requests == [JwksRequest(uri)]
      && (net.keys(uri).FetchFailed? ==> r.result == Failure("Error fetching JWKS: " + net.keys(uri).error) && r.cache == cache)
      && (net.keys(uri).Fetched? ==> r.result == Success(net.keys(uri).body) && r.cache == cache.(jwks := Some(net.keys(uri).body)))
    // the same after a discovery fetched in this call: the new document stays cached in every case
    ensures var cfg := GetOidcConfig(cache, net);
      cache.jwks.None? && cfg.result.Success? && !Truthy(cfg.result.value.jwksUri) ==>
        r == Cached(Failure(NoJwksUri), cfg.cache, cfg.requests)
    ensures var cfg := GetOidcConfig(cache, net);
      cache.jwks.None? && cfg.result.Success? && Truthy(cfg.result.value.jwksUri) ==>
        var uri := cfg.result.value.jwksUri.value;
        && r.requests == cfg.requests + [JwksRequest(uri)]
        && (net.keys(uri).FetchFailed? ==> r.result == Failure("Error fetching JWKS: " + net.keys(uri).error) && r.cache == cfg.cache)
        && (net.keys(uri).Fetched? ==> r.result == Success(net.keys(uri).body) && r.cache == cfg.cache.(jwks := Some(net.keys(uri).body)))
  {
    if cache.jwks.Some? then Cached(Success(cache.jwks.value), cache, [])
    else
      var cfg := GetOidcConfig(cache, net);
      if cfg.result.Failure? then Cached(Failure(cfg.result.error), cfg.cache, cfg.requests)
      else if !Truthy(cfg.result.value.jwksUri) then
        Cached(Failure(NoJwksUri), cfg.cache, cfg.requests)
      else
        var uri := cfg.result.value.jwksUri.value;
        match net.keys(uri)
        case Fetched(keys) => Cached(Success(keys), cfg.cache.(jwks := Some(keys)), cfg.requests + [JwksRequest(uri)])
        case FetchFailed(e) => Cached(Failure("Error fetching JWKS: " + e), cfg.cache, cfg.requests + [JwksRequest(uri)])
  }

  /** The unverified JOSE header; `HeaderInvalid` carries the text of a PyJWT `DecodeError`. */
  datatype Header = Header(kid: Option<string>, alg: Option<string>)
  datatype HeaderRead = HeaderOk(header: Header) | HeaderInvalid(message: string)

  /** The outcome of `jwt.decode`, most specific exception first. */
  datatype Decoded =
    | DecodedClaims(claims: map<string, string>)
    | ExpiredSignature
    | InvalidAudience
    | InvalidIssuer
    | InvalidToken(message: string)          // any other `InvalidTokenError`
    | UnexpectedError(message: string)       // any other exception

  /**
   * The JWT library: `readHeader` is `jwt.get_unverified_header`; `keyError`
   * is the text of the exception `RSAAlgorithm.from_jwk` raises for an
   * unusable key, `None` when it loads; `decode` verifies a token with the
   * loaded key, an expected issuer, an expected audience and the header's
   * algorithm.
   */
  datatype Jose = Jose(readHeader: string -> HeaderRead,
                       keyError: Jwk -> Option<string>,
                       decode: (string, Jwk, Option<string>, string, string) -> Decoded)

  datatype Verdict = Valid(claims: map<string, string>) | Invalid(reason: string)

  datatype Validation = Validation(verdict: Verdict, cache: Cache, requests: seq<Request>)

  const UnexpectedPrefix: string := "An unexpected error occurred during token validation: "
  /** `str(KeyError("alg"))`, the text of the failed `header["alg"]`. */
  const MissingAlg: string := "'alg'"
  const NoJwksUri: string := "jwks_uri not found in OIDC configuration."
  const MismatchPhrase: string := "does not match required tenant_id"

  /** The reason for a failed key-set lookup. */
  function JwksFailed(error: string): string {
    "Failed to get JWKS: " + error
  }

  /** The reason for a tenant claim other than the required one. */
  function TenantMismatch(claimed: string, required: string): string {
    "Token 'tenant_id' (" + claimed + ") " + MismatchPhrase + " (" + required + ")."
  }

  /** The first key whose `kid` equals `kid` (the generator expression with `next`). */
  function FindKey(keys: seq<Jwk>, kid: string): (r: Option<Jwk>)
    ensures r.Some? ==> r.value in keys && r.value.kid == Some(kid)
    ensures r.None? <==> forall i :: 0 <= i < |keys| ==> keys[i].kid != Some(kid)
    ensures r.Some? ==> exists i :: 0 <= i < |keys| && keys[i] == r.value
                                   && forall j :: 0 <= j < i ==> keys[j].kid != Some(kid)
  {
    if |keys| == 0 then None
    else if keys[0].kid == Some(kid) then Some(keys[0])
    else
      var r := FindKey(keys[1..], kid);
      if r.Some? then
        ghost var i :| 0 <= i < |keys[1..]| && keys[1..][i] == r.value
                       && forall j :: 0 <= j < i ==> keys[1..][j].kid != Some(kid);
        assert keys[i + 1] == r.value;
        r
      else r
  }

  /** The tenant check, run only when a non-empty tenant is required. */
  function TenantCheck(claims: map<string, string>, required: Option<string>): Verdict
  {
    if !Truthy(required) then Valid(claims)
    else
      var t := Lookup(claims, Some("tenant_id"));
      if !Truthy(t) then Invalid("'tenant_id' claim not found in token.")
      else if t.value != required.value then
        Invalid(TenantMismatch(t.value, required.value))
      else Valid(claims)
  }

  /** The `except` clauses around `jwt.decode`, or the tenant check after it returns. */
  function DecodeVerdict(d: Decoded, required: Option<string>): Verdict {
    match d
    case ExpiredSignature => Invalid("Token has expired.")
    case InvalidAudience => Invalid("Invalid audience.")
    case InvalidIssuer => Invalid("Invalid issuer.")
    case InvalidToken(m) => Invalid("Invalid token: " + m)
    case UnexpectedError(m) => Invalid(UnexpectedPrefix + m)
    case DecodedClaims(claims) => TenantCheck(claims, required)
  }

  /**
   * The decision after the key set is known; `config` is the cached discovery
   * document. The key is loaded, then the arguments of `jwt.decode` are
   * evaluated in order: the issuer from the document, then `header["alg"]`.
   */
  function Decide(token: string, required: Option<string>, keySet: Jwks, config: Option<OidcConfig>, jose: Jose): Verdict
  {
    match jose.readHeader(token)
    case HeaderInvalid(m) => Invalid("Invalid token: " + m)
    case HeaderOk(h) =>
      if !Truthy(h.kid) then Invalid("Token header missing 'kid'.")
      else
        match FindKey(keySet.keys.GetOr([]), h.kid.value)
        case None => Invalid("No matching key found in JWKS.")
        case Some(key) =>
          if jose.keyError(key).Some? then Invalid(UnexpectedPrefix + jose.keyError(key).value)
          else if config.None? then
            // `oidc_config.get` on `None`, caught by the catch-all handler
            Invalid(UnexpectedPrefix + "'NoneType' object has no attribute 'get'")
          else if h.alg.None? then Invalid(UnexpectedPrefix + MissingAlg)
          else DecodeVerdict(jose.decode(token, key, config.value.issuer, Audience, h.alg.value), required)
  }

  /** `is_token_valid(token, required_tenant_id)`. */
  function IsTokenValid(token: string, required: Option<string>, cache: Cache, net: Network, jose: Jose): (v: Validation)
    ensures CacheInv(cache) ==> CacheInv(v.cache)
    ensures token == "" ==> v == Validation(Invalid("Token is empty."), cache, [])
    // otherwise the cache and the fetches are those of the key-set lookup, whose failure is prefixed
    ensures token != "" ==> v.cache == GetJwks(cache, net).cache && v.requests == GetJwks(cache, net).requests
    ensures token != "" && GetJwks(cache, net).result.Failure? ==>
      v.verdict == Invalid(JwksFailed(GetJwks(cache, net).result.error))
  {
    if token == "" then Validation(Invalid("Token is empty."), cache, [])
    else
      var got := GetJwks(cache, net);
      match got.result
      case Failure(e) => Validation(Invalid(JwksFailed(e)), got.cache, got.requests)
      case Success(keySet) => Validation(Decide(token, required, keySet, got.cache.config, jose), got.cache, got.requests)
  }

  /** An empty token is rejected before any fetch and without touching the cache. */
  lemma EmptyTokenShortCircuit(required: Option<string>, cache: Cache, net: Network, jose: Jose)
    ensures IsTokenValid("", required, cache, net, jose) == Validation(Invalid("Token is empty."), cache, [])
  {
  }

  /** Once the key set is cached, every call answers from the cache: no fetch and no cache change. */
  lemma CachedKeysNoFetch(token: string, required: Option<string>, cache: Cache, net: Network, jose: Jose)
    requires cache.jwks.Some?
    ensures IsTokenValid(token, required, cache, net, jose).requests == []
    ensures IsTokenValid(token, required, cache, net, jose).cache == cache
  {
  }

  /**
   * The first successful call from an empty cache fetches the discovery
   * document and then the key set at its `jwks_uri`, caches both, and a
   * second call fetches nothing, whatever the network would answer then.
   */
  lemma FetchOnceThenCached(token: string, token2: string, required: Option<string>, required2: Option<string>,
                            net: Network, net2: Network, jose: Jose, doc: OidcConfig, keySet: Jwks)
    requires token != ""
    requires net.discovery == Fetched(doc) && Truthy(doc.jwksUri)
    requires net.keys(doc.jwksUri.value) == Fetched(keySet)
    ensures var first := IsTokenValid(token, required, EmptyCache, net, jose);
      && first.requests == [DiscoveryRequest, JwksRequest(doc.jwksUri.value)]
      && first.cache == Cache(Some(doc), Some(keySet))
      && IsTokenValid(token2, required2, first.cache, net2, jose).requests == []
  {
    var cfg := GetOidcConfig(EmptyCache, net);
    assert cfg.requests == [DiscoveryRequest];
  }

  /**
   * A failed fetch caches nothing: after a discovery failure the cache is
   * still empty and the next call fetches the discovery document again.
   */
  lemma FailedDiscoveryNotCached(token: string, required: Option<string>, net: Network, jose: Jose, e: string)
    requires token != ""
    requires net.discovery == FetchFailed(e)
    ensures var v := IsTokenValid(token, required, EmptyCache, net, jose);
      && v == Validation(Invalid(JwksFailed("Error fetching OIDC config: " + e)), EmptyCache, [DiscoveryRequest])
  {
  }

  /**
   * A discovery document without a usable `jwks_uri` stays cached, and every
   * later call fails the same way without fetching anything.
   */
  lemma MissingJwksUri(token: string, required: Option<string>, net: Network, jose: Jose, doc: OidcConfig)
    requires token != ""
    requires net.discovery == Fetched(doc) && !Truthy(doc.jwksUri)
    ensures var v := IsTokenValid(token, required, EmptyCache, net, jose);
      && v.verdict == Invalid(JwksFailed(NoJwksUri))
      && v.cache == Cache(Some(doc), None)
      && IsTokenValid(token, required, v.cache, net, jose) == Validation(Invalid(JwksFailed(NoJwksUri)), v.cache, [])
  {
  }

  /** One call of the validator, with whatever the network and the library would answer. */
  datatype Call = Call(token: string, required: Option<string>, net: Network, jose: Jose)

  /** The cache after a sequence of calls. */
  function Run(cache: Cache, calls: seq<Call>): Cache
    decreases |calls|
  {
    if |calls| == 0 then cache
    else
      var c := calls[0];
      Run(IsTokenValid(c.token, c.required, cache, c.net, c.jose).cache, calls[1..])
  }

  /**
   * The cache invariant holds in every state the process can reach, so the
   * issuer read after a successful key-set lookup always comes from a cached
   * discovery document.
   */
  lemma {:induction false} RunKeepsInvariant(cache: Cache, calls: seq<Call>)
    requires CacheInv(cache)
    ensures CacheInv(Run(cache, calls))
    decreases |calls|
  {
    if |calls| > 0 {
      var c := calls[0];
      RunKeepsInvariant(IsTokenValid(c.token, c.required, cache, c.net, c.jose).cache, calls[1..]);
    }
  }

  lemma ReachableCachesKeepInvariant(calls: seq<Call>)
    ensures CacheInv(Run(EmptyCache, calls))
  {
    RunKeepsInvariant(EmptyCache, calls);
  }

  /**
   * The decision, case by case: a failed key-set lookup, an unreadable header,
   * a missing or empty `kid` and a `kid` no key carries are distinct failures;
   * otherwise the key loaded is the first with that `kid`, an unusable key and
   * a header without `alg` fail through the catch-all handler, and only then
   * is the library asked to decode, against the cached discovery document's
   * issuer and the fixed audience.
   */
  lemma DecisionChain(token: string, required: Option<string>, cache: Cache, net: Network, jose: Jose)
    requires token != "" && CacheInv(cache)
    ensures var v := IsTokenValid(token, required, cache, net, jose);
      var got := GetJwks(cache, net);
      && (got.result.Failure? ==> v.verdict == Invalid(JwksFailed(got.result.error)))
      && (got.result.Success? && jose.readHeader(token).HeaderInvalid? ==>
            v.verdict == Invalid("Invalid token: " + jose.readHeader(token).message))
      && (got.result.Success? && jose.readHeader(token).HeaderOk? ==>
        var h := jose.readHeader(token).header;
        var keys := got.result.value.keys.GetOr([]);
        if !Truthy(h.kid) then v.verdict == Invalid("Token header missing 'kid'.")
        else if forall i :: 0 <= i < |keys| ==> keys[i].kid != h.kid then v.verdict == Invalid("No matching key found in JWKS.")
        else
          var key := FindKey(keys, h.kid.value).value;
          && key.kid == h.kid
          && (jose.keyError(key).Some? ==> v.verdict == Invalid(UnexpectedPrefix + jose.keyError(key).value))
          && (jose.keyError(key).None? && h.alg.None? ==> v.verdict == Invalid(UnexpectedPrefix + MissingAlg))
          && (jose.keyError(key).None? && h.alg.Some? ==>
                v.verdict == DecodeVerdict(jose.decode(token, key, v.cache.config.value.issuer, Audience, h.alg.value), required)))
  {
  }

  /**
   * The library's outcomes map to fixed reasons, most specific first, and a
   * decoded token passes exactly when the tenant check does, returning its claims.
   */
  lemma DecodeOutcomes(d: Decoded, required: Option<string>)
    ensures d == ExpiredSignature ==> DecodeVerdict(d, required) == Invalid("Token has expired.")
    ensures d == InvalidAudience ==> DecodeVerdict(d, required) == Invalid("Invalid audience.")
    ensures d == InvalidIssuer ==> DecodeVerdict(d, required) == Invalid("Invalid issuer.")
    ensures d.InvalidToken? ==> DecodeVerdict(d, required) == Invalid("Invalid token: " + d.message)
    ensures d.UnexpectedError? ==> DecodeVerdict(d, required) == Invalid(UnexpectedPrefix + d.message)
    ensures DecodeVerdict(d, required).Valid? <==> d.DecodedClaims? && TenantCheck(d.claims, required).Valid?
    ensures DecodeVerdict(d, required).Valid? ==> DecodeVerdict(d, required).claims == d.claims
  {
  }

  /**
   * A header without `alg` is never accepted, whatever the library would say:
   * `header["alg"]` raises before `jwt.decode` is called.
   */
  lemma MissingAlgRejected(token: string, required: Option<string>, cache: Cache, net: Network, jose: Jose)
    requires jose.readHeader(token).HeaderOk? && jose.readHeader(token).header.alg.None?
    ensures !IsTokenValid(token, required, cache, net, jose).verdict.Valid?
  {
  }

  /**
   * The cold start with the issuer up and its key-set endpoint down: the
   * first call fetches the discovery document and then `jwks_uri`, fails with
   * the prefixed reason, and keeps only the document; the next call fetches
   * just the key set again.
   */
  lemma ColdStartKeysDown(token: string, token2: string, required: Option<string>, required2: Option<string>,
                          net: Network, net2: Network, jose: Jose, doc: OidcConfig, e: string)
    requires token != "" && token2 != ""
    requires net.discovery == Fetched(doc) && Truthy(doc.jwksUri)
    requires net.keys(doc.jwksUri.value) == FetchFailed(e)
    ensures var v := IsTokenValid(token, required, EmptyCache, net, jose);
      && v == Validation(Invalid(JwksFailed("Error fetching JWKS: " + e)), Cache(Some(doc), None),
                         [DiscoveryRequest, JwksRequest(doc.jwksUri.value)])
      && IsTokenValid(token2, required2, v.cache, net2, jose).requests == [JwksRequest(doc.jwksUri.value)]
  {
    var cfg := GetOidcConfig(EmptyCache, net);
    assert cfg == Cached(Success(doc), Cache(Some(doc), None), [DiscoveryRequest]);
  }

  /**
   * A failed key-set fetch caches nothing: with the discovery document cached,
   * the call fetches `jwks_uri` once, fails with the prefixed reason, leaves
   * the cache as it was, and the next call fetches the key set again.
   */
  lemma FailedKeysNotCached(token: string, token2: string, required: Option<string>, required2: Option<string>,
                            net: Network, net2: Network, jose: Jose, doc: OidcConfig, e: string)
    requires token != "" && token2 != ""
    requires Truthy(doc.jwksUri) && net.keys(doc.jwksUri.value) == FetchFailed(e)
    ensures var cache := Cache(Some(doc), None);
      var v := IsTokenValid(token, required, cache, net, jose);
      && v == Validation(Invalid(JwksFailed("Error fetching JWKS: " + e)), cache, [JwksRequest(doc.jwksUri.value)])
      && IsTokenValid(token2, required2, v.cache, net2, jose).requests == [JwksRequest(doc.jwksUri.value)]
  {
  }

  /**
   * The tenant check: skipped when no tenant is required; otherwise an absent
   * or empty claim and an unequal claim are distinct failures, and only an
   * equal claim passes, returning the claims.
   */
  lemma TenantOutcomes(claims: map<string, string>, required: Option<string>)
    ensures !Truthy(required) ==> TenantCheck(claims, required) == Valid(claims)
    ensures Truthy(required) && ("tenant_id" !in claims || claims["tenant_id"] == "") ==>
      TenantCheck(claims, required) == Invalid("'tenant_id' claim not found in token.")
    ensures TenantCheck(claims, required).Valid? <==>
      !Truthy(required) || ("tenant_id" in claims && claims["tenant_id"] == required.value)
    ensures TenantCheck(claims, required).Valid? ==> TenantCheck(claims, required).claims == claims
  {
  }

  /** An unequal tenant claim is rejected with a reason mentioning "does not match required tenant_id". */
  lemma TenantMismatchMentioned(claims: map<string, string>, required: Option<string>)
    requires Truthy(required) && "tenant_id" in claims && claims["tenant_id"] != ""
    requires claims["tenant_id"] != required.value
    ensures TenantCheck(claims, required).Invalid?
    ensures TenantCheck(claims, required) == Invalid(TenantMismatch(claims["tenant_id"], required.value))
    ensures Mentions(TenantCheck(claims, required).reason, MismatchPhrase)
  {
    var pre := "Token 'tenant_id' (" + claims["tenant_id"] + ") ";
    var post := " (" + required.value + ").";
    assert TenantMismatch(claims["tenant_id"], required.value) == pre + MismatchPhrase + post;
    MentionsInside(pre, MismatchPhrase, post);
  }
}
