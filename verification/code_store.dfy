/**
 * The authorization-code map: code -> what was granted. Consent inserts,
 * the token endpoint pops; nothing else touches it.
 */
module CodeStore {
  import opened Wrappers
  import opened IdpModel

  /** Everything `/consent` records about a granted code. */
  datatype CodeGrant = CodeGrant(
    clientId: string,
    user: User,
    scopes: seq<string>,
    redirectUri: string,
    expiresAt: int,
    codeChallenge: Option<string>,
    codeChallengeMethod: Option<string>)

  type Codes = map<string, CodeGrant>

  /** `AUTHORIZATION_CODES[code] = grant`: binds the code and leaves every other entry as it was. */
  function Insert(codes: Codes, code: string, grant: CodeGrant): (codes': Codes)
    ensures code in codes' && codes'[code] == grant
    ensures codes'.Keys == codes.Keys + {code}
    ensures forall k :: k in codes && k != code ==> codes'[k] == codes[k]
  {
    codes[code := grant]
  }

  /**
   * `AUTHORIZATION_CODES.pop(code, None)`: the grant bound to `code`, if any,
   * and the map without it. A missing form field (`None`) finds nothing and
   * changes nothing.
   */
  function Pop(codes: Codes, code: Option<string>): (r: (Option<CodeGrant>, Codes))
    ensures r.0.Some? <==> code.Some? && code.value in codes
    ensures r.0.Some? ==> r.0.value == codes[code.value]
    ensures code.Some? ==> r.1.Keys == codes.Keys - {code.value}
    ensures code.None? ==> r.1 == codes
    ensures forall k :: k in r.1 ==> k in codes && r.1[k] == codes[k]
  {
    match code
    case None => (None, codes)
    case Some(c) => (if c in codes then Some(codes[c]) else None, codes - {c})
  }

  /** A code can be popped at most once: the second pop of the same code finds nothing. */
  lemma PopAtMostOnce(codes: Codes, code: string)
    ensures Pop(Pop(codes, Some(code)).1, Some(code)).0 == None
  {
  }

  /** Popping a freshly inserted code returns its grant and restores the map as it was. */
  lemma PopInsert(codes: Codes, code: string, grant: CodeGrant)
    requires code !in codes
    ensures Pop(Insert(codes, code, grant), Some(code)) == (Some(grant), codes)
  {
    var after := Pop(Insert(codes, code, grant), Some(code)).1;
    assert after.Keys == codes.Keys;
    assert forall k :: k in after ==> after[k] == codes[k];
    assert after == codes;
  }

  /** Pops of distinct codes commute, and neither disturbs the other's grant. */
  lemma PopIndependent(codes: Codes, a: string, b: string)
    requires a != b
    ensures Pop(Pop(codes, Some(a)).1, Some(b)).0 == Pop(codes, Some(b)).0
    ensures Pop(Pop(codes, Some(a)).1, Some(b)).1 == Pop(Pop(codes, Some(b)).1, Some(a)).1
  {
    var ab := Pop(Pop(codes, Some(a)).1, Some(b)).1;
    var ba := Pop(Pop(codes, Some(b)).1, Some(a)).1;
    assert ab.Keys == ba.Keys;
  }
}
