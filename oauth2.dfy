/**
 * The authorization-request orchestrator (`HandleOauth2Request`): it asks
 * the consent strategy for a consented session, grants the session's scopes
 * and audiences onto the authorize request, resolves the signing key ids,
 * assigns the consent challenge as the request id, assembles the ID-token
 * claims and the token session, and asks the response engine to mint the
 * authorize response.
 *
 * The collaborators (consent strategy, key strategies, response engine,
 * clock) are not modelled: their outcomes are inputs of the method.
 */
module Helpers {
  import opened Wrappers
  import opened Errors
  import opened Fosite
  import Configuration

  /** A bag of extra claims (`map[string]interface{}`), with values kept opaque as strings. */
  type Claims = map<string, string>

  /** The part of the consent request the orchestrator reads. */
  datatype ConsentRequest = ConsentRequest(
    subject: string,
    subjectIdentifier: string,
    acr: string,
    loginSessionID: string
  )

  /** The extra claims the consent app set for the two tokens. */
  datatype ConsentClaims = ConsentClaims(idToken: Claims, accessToken: Claims)

  /** The session the consent strategy hands back once consent is given. */
  datatype ConsentSession = ConsentSession(
    grantedScope: seq<string>,
    grantedAudience: seq<string>,
    challenge: string,
    consentRequest: ConsentRequest,
    authenticatedAt: int,
    requestedAt: int,
    session: ConsentClaims
  )

  /** `jwt.IDTokenClaims`, restricted to the fields the orchestrator sets. */
  datatype IDTokenClaims = IDTokenClaims(
    subject: string,
    issuer: string,
    issuedAt: int,
    authTime: int,
    requestedAt: int,
    extra: Claims,
    acr: string
  )

  /** The token session handed to the response engine (`Session` with its `openid.DefaultSession`). */
  datatype Session = Session(
    claims: IDTokenClaims,
    headers: Claims,
    subject: string,
    extra: Claims,
    kid: string,
    clientID: string,
    consentChallenge: string
  )

  // Issuer normalisation: `strings.TrimRight(issuer, "/") + "/"`.

  /** `strings.TrimRight(s, "/")`: the longest prefix of `s` that does not end in '/'. */
  function TrimRightSlash(s: string): (t: string)
    ensures |t| <= |s| && t == s[..|t|]
    ensures t == [] || t[|t| - 1] != '/'
    ensures forall k :: |t| <= k < |s| ==> s[k] == '/'
    decreases |s|
  {
    if |s| > 0 && s[|s| - 1] == '/' then TrimRightSlash(s[..|s| - 1]) else s
  }

  /** The issuer of the ID token: the configured URL with exactly one trailing '/'. */
  function NormalizeIssuer(issuerURL: string): (r: string)
    ensures |r| > 0 && r[|r| - 1] == '/'
    ensures |r| == 1 || r[|r| - 2] != '/'
    ensures |r| - 1 <= |issuerURL| && r[..|r| - 1] == issuerURL[..|r| - 1]
    ensures forall k :: |r| - 1 <= k < |issuerURL| ==> issuerURL[k] == '/'
  {
    TrimRightSlash(issuerURL) + "/"
  }

  /** A string without trailing '/' is left alone by the trim. */
  lemma TrimRightSlashKeeps(t: string)
    requires t == [] || t[|t| - 1] != '/'
    ensures TrimRightSlash(t) == t
  {
  }

  /** `n` slashes. */
  function Slashes(n: nat): (s: string)
    ensures |s| == n && forall k :: 0 <= k < n ==> s[k] == '/'
  {
    if n == 0 then "" else Slashes(n - 1) + "/"
  }

  /** Any number of trailing slashes normalises to exactly one. */
  lemma {:induction false} NormalizeIssuerTrailingSlashes(t: string, n: nat)
    requires t == [] || t[|t| - 1] != '/'
    ensures NormalizeIssuer(t + Slashes(n)) == t + "/"
    decreases n
  {
    if n == 0 {
      assert t + Slashes(0) == t;
      TrimRightSlashKeeps(t);
    } else {
      var s := t + Slashes(n);
      assert s[..|s| - 1] == t + Slashes(n - 1);
      NormalizeIssuerTrailingSlashes(t, n - 1);
    }
  }

  /** Normalising an already normalised issuer changes nothing. */
  lemma {:induction false} NormalizeIssuerIdempotent(issuerURL: string)
    ensures NormalizeIssuer(NormalizeIssuer(issuerURL)) == NormalizeIssuer(issuerURL)
  {
    var t := TrimRightSlash(issuerURL);
    assert t + Slashes(1) == t + "/";
    NormalizeIssuerTrailingSlashes(t, 1);
  }

  /** Two issuer examples: without and with trailing slashes. */
  lemma NormalizeIssuerExamples()
    ensures NormalizeIssuer("https://idp.example") == "https://idp.example/"
    ensures NormalizeIssuer("https://idp.example///") == "https://idp.example/"
  {
    NormalizeIssuerTrailingSlashes("https://idp.example", 0);
    NormalizeIssuerTrailingSlashes("https://idp.example", 3);
    assert "https://idp.example" + Slashes(3) == "https://idp.example///";
  }

  // Claims and session assembly.

  /** `claims.Add(key, value)`: sets one extra claim and keeps every other field. */
  function AddClaim(c: IDTokenClaims, key: string, value: string): (d: IDTokenClaims)
    ensures d.extra.Keys == c.extra.Keys + {key} && d.extra[key] == value
    ensures forall k :: k in c.extra && k != key ==> d.extra[k] == c.extra[k]
    ensures d.(extra := c.extra) == c
  {
    c.(extra := c.extra[key := value])
  }

  /**
   * The ID-token claims and the token session built from the consent
   * session, the configured issuer, the current time, the two key ids and
   * the client id: every field comes from one of these, the `sid` claim is
   * the login session id, and the `kid` header is the ID-token key id.
   */
  function NewSession(c: ConsentSession, issuerURL: string, now: int,
                      openIDKeyID: string, accessTokenKeyID: string, clientID: string): (s: Session)
    ensures s.claims.subject == c.consentRequest.subjectIdentifier
    ensures s.claims.issuer == NormalizeIssuer(issuerURL)
    ensures s.claims.issuedAt == now
    ensures s.claims.authTime == c.authenticatedAt && s.claims.requestedAt == c.requestedAt
    ensures s.claims.acr == c.consentRequest.acr
    ensures s.claims.extra.Keys == c.session.idToken.Keys + {"sid"}
    ensures s.claims.extra["sid"] == c.consentRequest.loginSessionID
    ensures forall k :: k in c.session.idToken && k != "sid" ==> s.claims.extra[k] == c.session.idToken[k]
    ensures s.headers == map["kid" := openIDKeyID]
    ensures s.subject == c.consentRequest.subject
    ensures s.extra == c.session.accessToken
    ensures s.kid == accessTokenKeyID && s.clientID == clientID
    ensures s.consentChallenge == c.challenge
  {
    var claims := IDTokenClaims(
      c.consentRequest.subjectIdentifier,
      NormalizeIssuer(issuerURL),
      now,
      c.authenticatedAt,
      c.requestedAt,
      c.session.idToken,
      c.consentRequest.acr);
    Session(
      AddClaim(claims, "sid", c.consentRequest.loginSessionID),
      map["kid" := openIDKeyID],
      c.consentRequest.subject,
      c.session.accessToken,
      accessTokenKeyID,
      clientID,
      c.challenge)
  }

  /**
   * The access-token key id: the key strategy is consulted only when access
   * tokens are signed JWTs; otherwise the id is empty and cannot fail.
   */
  function AccessTokenKeyID(conf: Configuration.Provider, lookup: Result<string, Error>): (r: Result<string, Error>)
    ensures conf.SignedAccessTokens() ==> r == lookup
    ensures !conf.SignedAccessTokens() ==> r == Success("")
  {
    if conf.SignedAccessTokens() then lookup else Success("")
  }

  /** The pipeline gets as far as the response engine. */
  predicate ReachesResponseEngine(conf: Configuration.Provider, consent: Result<ConsentSession, Error>,
                                  openIDKeyLookup: Result<string, Error>, accessTokenKeyLookup: Result<string, Error>)
  {
    consent.Success? && openIDKeyLookup.Success? && AccessTokenKeyID(conf, accessTokenKeyLookup).Success?
  }

  /**
   * `HandleOauth2Request`. Returns the result handed back to the caller,
   * whether an error was logged, and the session passed to the response
   * engine (None when the pipeline stopped before it).
   *
   * `consent` is the consent strategy's outcome, `openIDKeyLookup` and
   * `accessTokenKeyLookup` the key strategies' outcomes (the second is
   * consulted only for JWT access tokens), `now` the clock and `mint`
   * the response engine's outcome.
   */
  method HandleOauth2Request(conf: Configuration.Provider, ar: AuthorizeRequest,
                             consent: Result<ConsentSession, Error>,
                             openIDKeyLookup: Result<string, Error>,
                             accessTokenKeyLookup: Result<string, Error>,
                             now: int,
                             mint: Result<AuthorizeResponse, Error>)
    returns (res: Result<AuthorizeResponse, Error>, logged: bool, handed: Option<Session>)
    modifies ar
    // The consent subsystem already answered: stop silently, touch nothing.
    ensures consent.Failure? && consent.error.IsAbort() ==>
      res == Failure(consent.error) && !logged && handed.None? && unchanged(ar)
    // Any other consent failure: log it, return it, touch nothing.
    ensures consent.Failure? && !consent.error.IsAbort() ==>
      res == Failure(consent.error) && logged && handed.None? && unchanged(ar)
    // After consent, every scope and then every audience is granted, in order.
    ensures consent.Success? ==>
      && ar.grantedScope == old(ar.grantedScope) + consent.value.grantedScope
      && ar.grantedAudience == old(ar.grantedAudience) + consent.value.grantedAudience
    // A failing ID-token key lookup: logged and returned; no id assigned, nothing minted.
    ensures consent.Success? && openIDKeyLookup.Failure? ==>
      res == Failure(openIDKeyLookup.error) && logged && handed.None? && ar.id == old(ar.id)
    // A failing access-token key lookup (JWT strategy only): the same.
    ensures consent.Success? && openIDKeyLookup.Success? && AccessTokenKeyID(conf, accessTokenKeyLookup).Failure? ==>
      && conf.SignedAccessTokens()
      && res == Failure(accessTokenKeyLookup.error) && logged && handed.None? && ar.id == old(ar.id)
    // Otherwise the request id is the challenge, the session is assembled and
    // the engine's outcome is returned, logged when it is an error.
    ensures ReachesResponseEngine(conf, consent, openIDKeyLookup, accessTokenKeyLookup) ==>
      && ar.id == consent.value.challenge
      && handed == Some(NewSession(consent.value, conf.issuerURL, now, openIDKeyLookup.value,
                                   AccessTokenKeyID(conf, accessTokenKeyLookup).value, ar.clientID))
      && res == mint
      && logged == mint.Failure?
  {
    handed := None;
    if consent.Failure? && consent.error.IsAbort() {
      return Failure(consent.error), false, handed;
    } else if consent.Failure? {
      return Failure(consent.error), true, handed;
    }
    var session := consent.value;

    for i := 0 to |session.grantedScope|
      invariant ar.grantedScope == old(ar.grantedScope) + session.grantedScope[..i]
      invariant ar.grantedAudience == old(ar.grantedAudience) && ar.id == old(ar.id)
    {
      ar.GrantScope(session.grantedScope[i]);
    }
    for i := 0 to |session.grantedAudience|
      invariant ar.grantedScope == old(ar.grantedScope) + session.grantedScope
      invariant ar.grantedAudience == old(ar.grantedAudience) + session.grantedAudience[..i]
      invariant ar.id == old(ar.id)
    {
      ar.GrantAudience(session.grantedAudience[i]);
    }

    if openIDKeyLookup.Failure? {
      return Failure(openIDKeyLookup.error), true, handed;
    }
    var openIDKeyID := openIDKeyLookup.value;

    var accessTokenKeyID := "";
    if conf.SignedAccessTokens() {
      if accessTokenKeyLookup.Failure? {
        return Failure(accessTokenKeyLookup.error), true, handed;
      }
      accessTokenKeyID := accessTokenKeyLookup.value;
    }

    ar.SetID(session.challenge);

    var s := NewSession(session, conf.issuerURL, now, openIDKeyID, accessTokenKeyID, ar.clientID);
    handed := Some(s);
    if mint.Failure? {
      return Failure(mint.error), true, handed;
    }
    return Success(mint.value), false, handed;
  }
}
