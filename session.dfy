/**
 * Token validation and refresh-token revocation.
 *
 * The JWT library is not part of this model: a token is the record the
 * library would read from its compact serialization, and the library's
 * checks are those the validation parameters switch on. Which key signed a
 * token stands in for the signature itself.
 */
module Tokens {
  import opened Wrappers
  import opened Api
  import opened Errors
  import opened Base

  /** Issuer of every token of a tenant (the `iss` claim of RFC 7519, section 4.1.1). */
  const IssuerPrefix: string := "https://auth.passage.id/v1/apps/"
  const JwksPath: string := "/.well-known/jwks.json"

  /** The claim type the JWT library maps the `sub` claim (RFC 7519, section 4.1.2) to. */
  const NameIdentifier: string := "http://schemas.xmlsoap.org/ws/2005/05/identity/claims/nameidentifier"

  /** A JSON Web Key (RFC 7517): its `kid`, whether it is a signing key, and its public key material. */
  datatype Jwk = Jwk(keyId: Option<string>, signing: bool, material: string)

  /** A JSON Web Key Set (RFC 7517, section 5). */
  datatype KeySet = KeySet(keys: seq<Jwk>)

  datatype Claim = Claim(kind: string, value: string)

  /**
   * A presented token: either a string the JWT library cannot read, or a
   * signed token with its header `kid` (RFC 7515, section 4.1.4), issuer,
   * expiry (`exp`, RFC 7519, section 4.1.4) and claims. `signedWith` is the
   * material of the key whose signature it carries, or None when unsigned.
   */
  datatype Token =
    | Malformed
    | Jws(kid: Option<string>, issuer: Option<string>, expires: Option<int>,
          signedWith: Option<string>, claims: seq<Claim>)

  /** The parameters ValidateToken hands to the JWT library. */
  datatype ValidationParameters = ValidationParameters(
    requireSignedTokens: bool,
    validateIssuer: bool,
    validIssuer: string,
    validateAudience: bool,
    validateLifetime: bool,
    issuerSigningKeys: seq<Option<Jwk>>)

  /** The only issuer a tenant's tokens may carry. */
  function ExpectedIssuer(appId: string): (s: string)
    ensures |s| == |IssuerPrefix| + |appId|
    ensures s[..|IssuerPrefix|] == IssuerPrefix && s[|IssuerPrefix|..] == appId
  {
    IssuerPrefix + appId
  }

  /** Where a tenant's key set is published: below its issuer. */
  function JwksUrl(appId: string): (url: string)
    ensures url == ExpectedIssuer(appId) + JwksPath
  {
    IssuerPrefix + appId + JwksPath
  }

  /** Distinct tenants have distinct issuers, so a token issued for one tenant never passes for another. */
  lemma {:induction false} ExpectedIssuerInjective(a: string, b: string)
    requires ExpectedIssuer(a) == ExpectedIssuer(b)
    ensures a == b
  {
  }

  /** Distinct tenants fetch their keys from distinct URLs. */
  lemma {:induction false} JwksUrlInjective(a: string, b: string)
    requires JwksUrl(a) == JwksUrl(b)
    ensures a == b
  {
    var n := |IssuerPrefix|;
    assert |a| == |b|;
    assert a == JwksUrl(a)[n..n + |a|];
  }

  /** `GetSigningKeys()`: the keys of a set that may verify a signature, in order. */
  function SigningKeys(ks: seq<Jwk>): (r: seq<Jwk>)
    ensures |r| <= |ks|
    ensures forall k :: k in r <==> k in ks && k.signing
  {
    if ks == [] then []
    else (if ks[0].signing then [ks[0]] else []) + SigningKeys(ks[1..])
  }

  /** Every signing entry of a set is kept, as often as it occurs; no other entry is. */
  lemma {:induction false} SigningKeysKeepsEntries(ks: seq<Jwk>)
    ensures forall k :: multiset(SigningKeys(ks))[k] == (if k.signing then multiset(ks)[k] else 0)
  {
    if ks != [] {
      SigningKeysKeepsEntries(ks[1..]);
      assert ks == [ks[0]] + ks[1..];
    }
  }

  /** The keys of `ks` whose `kid` equals `kid`, in order and with repetitions. */
  function Matching(ks: seq<Jwk>, kid: Option<string>): (r: seq<Jwk>)
    ensures |r| <= |ks|
    ensures forall k :: k in r <==> k in ks && k.keyId == kid
  {
    if ks == [] then []
    else (if ks[0].keyId == kid then [ks[0]] else []) + Matching(ks[1..], kid)
  }

  /** Two different positions of `ks` hold a key with identifier `kid`. */
  ghost predicate Ambiguous(ks: seq<Jwk>, kid: Option<string>) {
    exists i, j :: 0 <= i < j < |ks| && ks[i].keyId == kid && ks[j].keyId == kid
  }

  /** Two matching positions give at least two matches. */
  lemma {:induction false} AmbiguousMatching(ks: seq<Jwk>, kid: Option<string>)
    requires Ambiguous(ks, kid)
    ensures |Matching(ks, kid)| >= 2
  {
    var i, j :| 0 <= i < j < |ks| && ks[i].keyId == kid && ks[j].keyId == kid;
    var tail := ks[1..];
    assert tail[j - 1] == ks[j];
    if i == 0 {
      assert ks[j] in Matching(tail, kid);
    } else {
      assert tail[i - 1] == ks[i];
      AmbiguousMatching(tail, kid);
    }
  }

  /** A matching head and a match in the tail are two matching positions. */
  lemma {:induction false} AmbiguousFromHead(ks: seq<Jwk>, kid: Option<string>)
    requires ks != [] && ks[0].keyId == kid && Matching(ks[1..], kid) != []
    ensures Ambiguous(ks, kid)
  {
    var tail := ks[1..];
    var k := Matching(tail, kid)[0];
    assert k in Matching(tail, kid);
    var j :| 0 <= j < |tail| && tail[j] == k;
    assert ks[0].keyId == kid && ks[j + 1].keyId == kid;
  }

  /** Two matching positions in the tail are two matching positions. */
  lemma {:induction false} AmbiguousFromTail(ks: seq<Jwk>, kid: Option<string>)
    requires ks != [] && Ambiguous(ks[1..], kid)
    ensures Ambiguous(ks, kid)
  {
    var tail := ks[1..];
    var i, j :| 0 <= i < j < |tail| && tail[i].keyId == kid && tail[j].keyId == kid;
    assert ks[i + 1] == tail[i] && ks[j + 1] == tail[j];
  }

  /** At least two matches come from two matching positions. */
  lemma {:induction false} MatchingAmbiguous(ks: seq<Jwk>, kid: Option<string>)
    requires |Matching(ks, kid)| >= 2
    ensures Ambiguous(ks, kid)
  {
    var tail := ks[1..];
    if ks[0].keyId == kid {
      AmbiguousFromHead(ks, kid);
    } else {
      assert Matching(ks, kid) == Matching(tail, kid);
      MatchingAmbiguous(tail, kid);
      AmbiguousFromTail(ks, kid);
    }
  }

  /**
   * `SingleOrDefault(k => k.KeyId == kid)`: no match gives no key, exactly
   * one match gives that key, and more than one is an
   * InvalidOperationException.
   */
  function SelectKey(ks: seq<Jwk>, kid: Option<string>): (r: Outcome<Option<Jwk>>)
    ensures r.Threw? <==> Ambiguous(ks, kid)
    ensures r.Threw? ==> r.fault == Other("InvalidOperationException")
    ensures r == Returned(None) <==> forall k :: k in ks ==> k.keyId != kid
    ensures r.Returned? && r.value.Some? ==>
      r.value.value in ks && r.value.value.keyId == kid
      && forall i :: 0 <= i < |ks| && ks[i].keyId == kid ==> ks[i] == r.value.value
  {
    var m := Matching(ks, kid);
    assert Ambiguous(ks, kid) <==> |m| >= 2 by {
      if Ambiguous(ks, kid) { AmbiguousMatching(ks, kid); }
      if |m| >= 2 { MatchingAmbiguous(ks, kid); }
    }
    if |m| == 0 then
      Returned(None)
    else if |m| == 1 then
      assert m[0] in ks;
      assert forall i :: 0 <= i < |ks| && ks[i].keyId == kid ==> ks[i] == m[0] by {
        forall i | 0 <= i < |ks| && ks[i].keyId == kid ensures ks[i] == m[0] {
          assert ks[i] in m;
        }
      }
      Returned(Some(m[0]))
    else
      Threw(Other("InvalidOperationException"))
  }

  /** `FindFirst(type)?.Value`: the value of the first claim of that type, if any. */
  function FirstValue(claims: seq<Claim>, kind: string): (v: Option<string>)
    ensures v.None? <==> forall i :: 0 <= i < |claims| ==> claims[i].kind != kind
    ensures v.Some? ==> exists i :: 0 <= i < |claims| && claims[i] == Claim(kind, v.value)
                                    && forall j :: 0 <= j < i ==> claims[j].kind != kind
  {
    if claims == [] then None
    else if claims[0].kind == kind then Some(claims[0].value)
    else
      var v := FirstValue(claims[1..], kind);
      assert forall i :: 1 <= i < |claims| ==> claims[i] == claims[1..][i - 1];
      v
  }

  /** `GetKidFromJwtToken`: reading a token the library cannot parse throws. */
  function KidOf(token: Token): (r: Outcome<Option<string>>)
    ensures r.Threw? <==> token.Malformed?
    ensures r.Returned? ==> r.value == token.kid
  {
    match token
    case Malformed => Threw(Other("ArgumentException"))
    case Jws(kid, _, _, _, _) => Returned(kid)
  }

  /**
   * The parameters ValidateToken builds: signed tokens only, the tenant's
   * exact issuer, lifetime checked, audience not checked, and only the
   * selected key (possibly null) trusted.
   */
  function Parameters(appId: string, key: Option<Jwk>): (p: ValidationParameters)
    ensures p.requireSignedTokens && p.validateIssuer && p.validateLifetime && !p.validateAudience
    ensures p.validIssuer == ExpectedIssuer(appId)
    ensures p.issuerSigningKeys == [key]
  {
    ValidationParameters(
      requireSignedTokens := true,
      validateIssuer := true,
      validIssuer := ExpectedIssuer(appId),
      validateAudience := false,
      validateLifetime := true,
      issuerSigningKeys := [key])
  }

  /** The token carries a signature made with one of the trusted keys. */
  predicate SignedByOneOf(token: Token, keys: seq<Option<Jwk>>)
    requires token.Jws?
  {
    token.signedWith.Some?
    && exists i :: 0 <= i < |keys| && keys[i].Some? && keys[i].value.material == token.signedWith.value
  }

  /** The token is unexpired at time `now`. */
  predicate Unexpired(token: Token, now: int)
    requires token.Jws?
  {
    token.expires.Some? && now < token.expires.value
  }

  /**
   * The JWT handler's decision under the given parameters: the token's
   * claims, or the exception that rejects it. No audience is configured, so
   * asking for audience validation could only fail.
   */
  function Handle(token: Token, p: ValidationParameters, now: int): (r: Outcome<seq<Claim>>)
    ensures r.Returned? ==> token.Jws? && r.value == token.claims
  {
    match token
    case Malformed => Threw(Other("ArgumentException"))
    case Jws(_, issuer, _, signedWith, claims) =>
      if signedWith.None? && p.requireSignedTokens then Threw(Other("SecurityTokenInvalidSignatureException"))
      else if signedWith.Some? && !SignedByOneOf(token, p.issuerSigningKeys) then
        Threw(Other("SecurityTokenSignatureKeyNotFoundException"))
      else if p.validateIssuer && issuer != Some(p.validIssuer) then Threw(Other("SecurityTokenInvalidIssuerException"))
      else if p.validateAudience then Threw(Other("SecurityTokenInvalidAudienceException"))
      else if p.validateLifetime && !Unexpired(token, now) then Threw(Other("SecurityTokenExpiredException"))
      else Returned(claims)
  }

  /**
   * ValidateToken once the key set is at hand: read the `kid`, select the
   * key, validate, and return the subject. Only what the handler throws is
   * wrapped as VerificationFailed; an unreadable token or an ambiguous `kid`
   * fails before that boundary and escapes as it is.
   */
  function Verify(jwks: KeySet, token: Token, appId: string, now: int): (r: Outcome<Option<string>>)
    ensures r.Returned? ==> token.Jws? && r.value == FirstValue(token.claims, NameIdentifier)
    ensures r.Threw? && r.fault.Raised? ==> r.fault.passage.message == VerificationFailed
  {
    match KidOf(token)
    case Threw(f) => Threw(f)
    case Returned(kid) =>
      match SelectKey(SigningKeys(jwks.keys), kid)
      case Threw(f) => Threw(f)
      case Returned(key) =>
        match Handle(token, Parameters(appId, key), now)
        case Threw(f) => Threw(Raised(FromFault(VerificationFailed, f)))
        case Returned(claims) => Returned(FirstValue(claims, NameIdentifier))
  }

  /** The signing keys of a set whose `kid` is `kid`, and the one that signed the token. */
  ghost predicate UniqueSignerFound(jwks: KeySet, token: Token)
    requires token.Jws?
  {
    var ks := SigningKeys(jwks.keys);
    !Ambiguous(ks, token.kid)
    && exists i :: 0 <= i < |ks| && ks[i].keyId == token.kid && token.signedWith == Some(ks[i].material)
  }

  /**
   * A token is accepted exactly when it is readable, the signing key its
   * `kid` names is unique in the set and signed it, its issuer is exactly the
   * tenant's, and it is unexpired; the result is then its first
   * name-identifier claim, which may be absent.
   */
  lemma {:induction false} VerifyAccepts(jwks: KeySet, token: Token, appId: string, now: int)
    ensures Verify(jwks, token, appId, now).Returned? <==>
      token.Jws? && UniqueSignerFound(jwks, token)
      && token.issuer == Some(ExpectedIssuer(appId)) && Unexpired(token, now)
    ensures Verify(jwks, token, appId, now).Returned? ==>
      Verify(jwks, token, appId, now).value == FirstValue(token.claims, NameIdentifier)
  {
    if token.Jws? {
      var ks := SigningKeys(jwks.keys);
      var sel := SelectKey(ks, token.kid);
      if sel.Returned? && sel.value.Some? && token.signedWith.Some? {
        var k := sel.value.value;
        if SignedByOneOf(token, [sel.value]) {
          var i :| 0 <= i < |ks| && ks[i] == k;
          assert ks[i].keyId == token.kid && token.signedWith == Some(ks[i].material);
        }
        if UniqueSignerFound(jwks, token) {
          var i :| 0 <= i < |ks| && ks[i].keyId == token.kid && token.signedWith == Some(ks[i].material);
          assert ks[i] == k;
          assert [sel.value][0].value.material == token.signedWith.value;
        }
      }
    }
  }

  /**
   * Every rejection of a readable token whose `kid` is not ambiguous is the
   * one VerificationFailed error with status 500, whatever the handler threw.
   */
  lemma {:induction false} VerifyRejectsAsOneError(jwks: KeySet, token: Token, appId: string, now: int)
    requires token.Jws? && !Ambiguous(SigningKeys(jwks.keys), token.kid)
    requires Verify(jwks, token, appId, now).Threw?
    ensures Verify(jwks, token, appId, now).fault.Raised?
    ensures Verify(jwks, token, appId, now).fault.passage.message == VerificationFailed
    ensures Verify(jwks, token, appId, now).fault.passage.statusCode == 500
  {
  }

  /** A token for another issuer is rejected even when its signature is good. */
  lemma {:induction false} WrongIssuerRejected(jwks: KeySet, token: Token, appId: string, now: int)
    requires token.Jws? && token.issuer != Some(ExpectedIssuer(appId))
    requires !Ambiguous(SigningKeys(jwks.keys), token.kid)
    ensures Verify(jwks, token, appId, now).Threw?
    ensures Verify(jwks, token, appId, now).fault.Raised?
    ensures Verify(jwks, token, appId, now).fault.passage.message == VerificationFailed
  {
  }

  /** A token whose `kid` names no signing key of the set is rejected as VerificationFailed. */
  lemma {:induction false} UnknownKidRejected(jwks: KeySet, token: Token, appId: string, now: int)
    requires token.Jws?
    requires forall k :: k in SigningKeys(jwks.keys) ==> k.keyId != token.kid
    ensures Verify(jwks, token, appId, now).Threw?
    ensures Verify(jwks, token, appId, now).fault.Raised?
    ensures Verify(jwks, token, appId, now).fault.passage.message == VerificationFailed
  {
  }

  /** A `kid` matching several signing keys escapes as the InvalidOperationException, not as VerificationFailed. */
  lemma {:induction false} AmbiguousKidEscapes(jwks: KeySet, token: Token, appId: string, now: int)
    requires token.Jws? && Ambiguous(SigningKeys(jwks.keys), token.kid)
    ensures Verify(jwks, token, appId, now) == Threw(Other("InvalidOperationException"))
  {
  }

  /** A token the library cannot read escapes as the parser's ArgumentException, not as VerificationFailed. */
  lemma {:induction false} MalformedTokenEscapes(jwks: KeySet, appId: string, now: int)
    ensures Verify(jwks, Malformed, appId, now) == KidOf(Malformed)
    ensures Verify(jwks, Malformed, appId, now) == Threw(Other("ArgumentException"))
  {
  }
}

module Sessions {
  import opened Wrappers
  import opened Api
  import opened Errors
  import opened Base
  import opened Tokens

  /**
   * DownloadJWKS: the key-set document is fetched through the instance's
   * transport; a failed request escapes as it is, an empty body is
   * CannotDownloadJwks, and any other body is read by the JWT library.
   */
  function Download(connected: bool, reply: Outcome<string>, read: string -> Outcome<KeySet>): (r: Outcome<KeySet>)
    ensures !connected ==> r == Threw(Raised(FromMessage(MissingApiKey)))
    ensures connected && reply.Threw? ==> r == Threw(reply.fault)
    ensures connected && reply == Returned("") ==> r == Threw(Raised(FromMessage(CannotDownloadJwks)))
    ensures connected && reply.Returned? && reply.value != "" ==> r == read(reply.value)
  {
    if !connected then Threw(Raised(FromMessage(MissingApiKey)))
    else match reply
      case Threw(f) => Threw(f)
      case Returned(body) =>
        if body == "" then Threw(Raised(FromMessage(CannotDownloadJwks))) else read(body)
  }

  /** One ValidateToken call: its result, the cache afterwards, and whether it fetched the key set. */
  datatype Step = Step(result: Outcome<Option<string>>, cache: Option<KeySet>, fetched: bool)

  /**
   * `_jwks ??= await DownloadJWKS()` followed by verification: a cached key
   * set is used as it is; otherwise the key set is downloaded, and kept only
   * when the download succeeds.
   */
  function Validate(cache: Option<KeySet>, connected: bool, appId: string, token: Token,
                    reply: Outcome<string>, read: string -> Outcome<KeySet>, now: int): (s: Step)
    ensures s.fetched <==> cache == None && connected
    ensures s.cache.Some? <==> cache.Some? || Download(connected, reply, read).Returned?
    ensures cache.Some? ==> s.cache == cache && s.result == Verify(cache.value, token, appId, now)
    ensures cache == None && s.cache.Some? ==>
      Download(connected, reply, read) == Returned(s.cache.value)
      && s.result == Verify(s.cache.value, token, appId, now)
    ensures s.cache == None ==> s.result == Threw(Download(connected, reply, read).fault)
  {
    if cache.Some? then
      Step(Verify(cache.value, token, appId, now), cache, false)
    else
      match Download(connected, reply, read)
      case Threw(f) => Step(Threw(f), None, connected)
      case Returned(ks) => Step(Verify(ks, token, appId, now), Some(ks), true)
  }

  /** A token presented at time `now`, with the reply the key-set request would get. */
  datatype Attempt = Attempt(token: Token, reply: Outcome<string>, now: int)

  /** How many times a series of ValidateToken calls on one instance fetches the key set. */
  function Fetches(cache: Option<KeySet>, connected: bool, appId: string,
                   read: string -> Outcome<KeySet>, attempts: seq<Attempt>): nat
    decreases attempts
  {
    if attempts == [] then 0
    else
      var s := Validate(cache, connected, appId, attempts[0].token, attempts[0].reply, read, attempts[0].now);
      (if s.fetched then 1 else 0) + Fetches(s.cache, connected, appId, read, attempts[1..])
  }

  /** Once the key set is cached, no later call fetches it again. */
  lemma {:induction false} CachedRunFetchesNothing(ks: KeySet, connected: bool, appId: string,
                                                   read: string -> Outcome<KeySet>, attempts: seq<Attempt>)
    ensures Fetches(Some(ks), connected, appId, read, attempts) == 0
  {
    if attempts != [] {
      CachedRunFetchesNothing(ks, connected, appId, read, attempts[1..]);
    }
  }

  /** When the first download succeeds, a whole series of calls fetches the key set exactly once. */
  lemma {:induction false} RunFetchesOnce(connected: bool, appId: string,
                                          read: string -> Outcome<KeySet>, attempts: seq<Attempt>)
    requires attempts != []
    requires Download(connected, attempts[0].reply, read).Returned?
    ensures Fetches(None, connected, appId, read, attempts) == 1
  {
    var a := attempts[0];
    var s := Validate(None, connected, appId, a.token, a.reply, read, a.now);
    CachedRunFetchesNothing(s.cache.value, connected, appId, read, attempts[1..]);
  }

  /** Without an injected transport or an API key nothing is ever fetched. */
  lemma {:induction false} DisconnectedRunFetchesNothing(cache: Option<KeySet>, appId: string,
                                                         read: string -> Outcome<KeySet>, attempts: seq<Attempt>)
    ensures Fetches(cache, false, appId, read, attempts) == 0
  {
    if attempts != [] {
      var a := attempts[0];
      var s := Validate(cache, false, appId, a.token, a.reply, read, a.now);
      DisconnectedRunFetchesNothing(s.cache, appId, read, attempts[1..]);
    }
  }

  /** A user session: the shared client state plus this instance's key-set cache. */
  class Session {
    const base: BaseClient
    var jwks: Option<KeySet>

    constructor (base: BaseClient)
      ensures this.base == base && jwks == None
    {
      this.base := base;
      jwks := None;
    }

    /** Both constructors: the configuration check of BaseClient, and an empty cache. */
    static method New(config: Option<PassageConfig>, transport: Transport?) returns (r: Result<Session>)
      ensures r.Err? <==> CheckConfig(config).Err?
      ensures r.Err? ==> r.error == FromMessage(MissingAppId)
      ensures r.Ok? ==> fresh(r.value) && fresh(r.value.base) && r.value.base.Valid() && r.value.jwks == None
      ensures r.Ok? ==> Credentials(r.value.base.appId, r.value.base.apiKey) == CheckConfig(config).value
      ensures r.Ok? ==> r.value.base.httpClient == transport && r.value.base.passageClient == null
    {
      var b := BaseClient.New(config, transport);
      if b.Err? {
        return Err(b.error);
      }
      var s := new Session(b.value);
      r := Ok(s);
    }

    /** DownloadJWKS: one GET of the tenant's key-set URL, through GetHttpClient. */
    method DownloadJwks(reply: Outcome<string>, read: string -> Outcome<KeySet>) returns (r: Outcome<KeySet>)
      requires base.Valid()
      modifies base`httpClient, base.httpClient
      ensures base.Valid() && base.CanConnect() == old(base.CanConnect())
      ensures r == Download(old(base.CanConnect()), reply, read)
      ensures old(base.httpClient) != null ==> base.httpClient == old(base.httpClient)
      ensures base.Kept()
      ensures base.Sent() == old(base.Sent()) + if old(base.CanConnect()) then [GetString(JwksUrl(base.appId))] else []
    {
      var t := base.GetHttpClient();
      if t.Err? {
        return Threw(Raised(t.error));
      }
      t.value.sent := t.value.sent + [GetString(JwksUrl(base.appId))];
      match reply
      case Threw(f) =>
        r := Threw(f);
      case Returned(body) =>
        if body == "" {
          r := Threw(Raised(FromMessage(CannotDownloadJwks)));
        } else {
          r := read(body);
        }
    }

    /**
     * ValidateToken: fills the cache on a successful download only, then
     * verifies the token against the cached key set and returns its subject.
     */
    method ValidateToken(token: Token, reply: Outcome<string>, read: string -> Outcome<KeySet>, now: int)
      returns (r: Outcome<Option<string>>)
      requires base.Valid()
      modifies this`jwks, base`httpClient, base.httpClient
      ensures base.Valid() && base.CanConnect() == old(base.CanConnect())
      ensures old(base.httpClient) != null ==> base.httpClient == old(base.httpClient)
      ensures base.Kept()
      ensures r == Validate(old(jwks), old(base.CanConnect()), base.appId, token, reply, read, now).result
      ensures jwks == Validate(old(jwks), old(base.CanConnect()), base.appId, token, reply, read, now).cache
      ensures base.Sent() == old(base.Sent()) +
        if Validate(old(jwks), old(base.CanConnect()), base.appId, token, reply, read, now).fetched
        then [GetString(JwksUrl(base.appId))] else []
    {
      if jwks == None {
        var downloaded := DownloadJwks(reply, read);
        if downloaded.Threw? {
          return Threw(downloaded.fault);
        }
        jwks := Some(downloaded.value);
      }
      r := Verify(jwks.value, token, base.appId, now);
    }

    /** RevokeRefreshToken: one classified call for this tenant and the given user. */
    method RevokeRefreshToken(userId: string, reply: Outcome<()>) returns (r: Result<()>)
      requires base.Valid()
      modifies base`httpClient, base`passageClient, base.httpClient
      ensures base.Valid() && base.CanConnect() == old(base.CanConnect())
      ensures old(base.httpClient) != null ==> base.httpClient == old(base.httpClient)
      ensures base.Kept() && (old(base.CanConnect()) ==> base.passageClient != null)
      ensures r == CallResult(old(base.CanConnect()), reply)
      ensures base.Sent() == old(base.Sent()) +
        if old(base.CanConnect()) then [RevokeRefreshTokens(base.appId, userId)] else []
    {
      r := base.CallClientMethod(RevokeRefreshTokens(base.appId, userId), reply);
    }
  }
}

/** A session's documented behaviour, replayed against the Session contracts. */
module SessionScenarios {
  import opened Wrappers
  import opened Api
  import opened Errors
  import opened Base
  import opened Tokens
  import opened Sessions

  /**
   * A session with an API key and no injected transport builds its own
   * transport carrying the bearer header on first use, downloads the key set
   * once, and answers a second validation from the cache with the same
   * result and no further request.
   */
  method KeyedReplay(token: Token, body: string, keys: KeySet, now: int)
    returns (first: Outcome<Option<string>>, second: Outcome<Option<string>>)
    requires body != ""
    ensures first == Verify(keys, token, "xxx", now) && second == first
  {
    var created := Session.New(Some(PassageConfig(Some("xxx"), Some("key"))), null);
    var session := created.value;
    var read := (s: string) => Returned(keys);
    first := session.ValidateToken(token, Returned(body), read, now);
    assert session.base.httpClient != null;
    assert session.base.httpClient.authorization == Some(BearerHeader("key"));
    second := session.ValidateToken(token, Returned(body), read, now);
    assert session.base.Sent() == [GetString(JwksUrl("xxx"))];
  }
}
