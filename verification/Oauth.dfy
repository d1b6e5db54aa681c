/** The checks of package `oauth`: PKCE, authorization requests, clients and redirect URIs. */
module Oauth {
  import opened Prelude
  import opened Models
  import Text
  import Base64

  // PKCE and codes

  const AUTHORIZATION_CODE_TTL: int := 60 * SECOND

  function PKCEChallenge(sha: Digest, verifier: string): string {
    Base64.Encode(Base64.Url, sha(verifier))
  }

  predicate VerifyPKCE(sha: Digest, challenge: string, verifier: string, challengeMethod: string) {
    if challengeMethod != "S256" || challenge == "" then false
    else if Text.ByteLen(verifier) < 43 || Text.ByteLen(verifier) > 128 then false
    else Base64.Encode(Base64.Url, sha(verifier)) == challenge
  }

  /** A code, token or verifier printed from 32 random bytes. */
  function FromRandom(random: Bytes): string {
    Base64.Encode(Base64.Url, random)
  }

  lemma ChallengeLength(sha: Digest, verifier: string)
    ensures Text.ByteLen(PKCEChallenge(sha, verifier)) == 43
    ensures Base64.AllInAlphabet(Base64.Url, PKCEChallenge(sha, verifier))
  {
    Base64.EncodeLength(Base64.Url, sha(verifier));
    Base64.EncodeInAlphabet(Base64.Url, sha(verifier));
  }

  lemma FromRandomLength(random: Bytes)
    requires |random| == 32
    ensures Text.ByteLen(FromRandom(random)) == 43
  {
    Base64.EncodeLength(Base64.Url, random);
  }

  /** The emptiness guard never decides: with S256 the test is the length range and the equation. */
  lemma VerifyPKCEExact(sha: Digest, challenge: string, verifier: string)
    ensures VerifyPKCE(sha, challenge, verifier, "S256") <==>
            43 <= Text.ByteLen(verifier) <= 128 && challenge == PKCEChallenge(sha, verifier)
  {
    ChallengeLength(sha, verifier);
  }

  /** A verifier generated for an upstream sign-in always passes its own challenge. */
  lemma GeneratedVerifierAccepted(sha: Digest, random: Bytes)
    requires |random| == 32
    ensures VerifyPKCE(sha, PKCEChallenge(sha, FromRandom(random)), FromRandom(random), "S256")
  {
    FromRandomLength(random);
    VerifyPKCEExact(sha, PKCEChallenge(sha, FromRandom(random)), FromRandom(random));
  }

  /** With a collision-free digest a challenge is met by one verifier only. */
  lemma OneVerifierPerChallenge(sha: Digest, challenge: string, v: string, w: string)
    requires CollisionFree(sha)
    requires VerifyPKCE(sha, challenge, v, "S256") && VerifyPKCE(sha, challenge, w, "S256")
    ensures v == w
  {
    Base64.EncodeInjective(Base64.Url, sha(v), sha(w));
  }

  /** Error codes of section 4.1.2.1 and section 5.2 of RFC 6749. */
  datatype ErrorCode =
    | InvalidRequest | InvalidClient | InvalidGrant | InvalidScope
    | UnsupportedGrantType | UnsupportedResponseType | ServerError

  // Authorization requests

  datatype AuthorizeRequest = AuthorizeRequest(
    clientId: string,
    redirectURI: string,
    responseType: string,
    state: string,
    scope: string,
    nonce: string,
    codeChallenge: string,
    codeChallengeMethod: string)
  {
    function Scopes(): seq<string> {
      Text.Fields(scope)
    }

    predicate HasScope(s: string) {
      s in Scopes()
    }

    /** None when the request passes; otherwise the error code that is redirected. */
    function Validate(): Option<ErrorCode> {
      if responseType != "code" then Some(UnsupportedResponseType)
      else if codeChallenge == "" then Some(InvalidRequest)
      else if codeChallengeMethod != "S256" then Some(InvalidRequest)
      else if Text.ByteLen(codeChallenge) < 43 || Text.ByteLen(codeChallenge) > 128 then Some(InvalidRequest)
      else if HasScope("openid") && nonce == "" then Some(InvalidRequest)
      else if state == "" then Some(InvalidRequest)
      else None
    }
  }

  /** Every challenge computed from a verifier passes the length check of a request. */
  lemma ComputedChallengeValidates(sha: Digest, req: AuthorizeRequest, verifier: string)
    requires req.responseType == "code" && req.codeChallengeMethod == "S256"
    requires req.codeChallenge == PKCEChallenge(sha, verifier)
    ensures req.Validate() == None <==>
            (req.HasScope("openid") ==> req.nonce != "") && req.state != ""
  {
    ChallengeLength(sha, verifier);
  }

  /** What a request has to say for itself. */
  predicate IsProper(req: AuthorizeRequest) {
    && req.responseType == "code"
    && req.codeChallengeMethod == "S256" && 43 <= Text.ByteLen(req.codeChallenge) <= 128
    && req.state != ""
    && ("openid" in Text.Fields(req.scope) ==> req.nonce != "")
  }

  /** Validation passes exactly the proper requests; only a wrong response type has an error code of its own. */
  lemma ValidatesExactly(req: AuthorizeRequest)
    ensures req.Validate() == None <==>
            && req.responseType == "code"
            && req.codeChallengeMethod == "S256" && 43 <= Text.ByteLen(req.codeChallenge) <= 128
            && req.state != ""
            && ("openid" in Text.Fields(req.scope) ==> req.nonce != "")
    ensures req.responseType != "code" ==> req.Validate() == Some(UnsupportedResponseType)
    ensures req.responseType == "code" && req.Validate().Some? ==> req.Validate() == Some(InvalidRequest)
  {
  }

  // Clients and scopes

  const SUPPORTED_SCOPES: seq<string> := ["openid", "profile", "email"]

  predicate IsSupportedScope(scope: string) {
    scope in SUPPORTED_SCOPES
  }

  predicate IsConfidential(c: Client) {
    c.clientType == "confidential"
  }

  predicate ValidateClientSecret(sha: Digest, c: Client, submitted: string) {
    if |c.secretHash| == 0 || submitted == "" then false else sha(submitted) == c.secretHash
  }

  predicate IsRedirectURIAllowed(c: Client, uri: string) {
    uri in c.redirectURIs
  }

  predicate ValidateRequestedScopes(app: Application, scopeParam: string) {
    forall scope <- Text.Fields(scopeParam) :: scope in app.allowedScopes
  }

  // Redirect URIs

  datatype UriError = NotAbsolute | Wildcard | Unparsable | HasFragment | Insecure

  predicate IsLoopbackHost(host: string) {
    Text.ToLower(host) in ["localhost", "127.0.0.1", "::1"]
  }

  function ValidateRedirectURI(parse: UrlParser, raw: string): Option<UriError> {
    var uri := Text.TrimSpace(raw);
    if uri == "" then Some(NotAbsolute)
    else if '*' in uri then Some(Wildcard)
    else
      match parse(uri)
      case None => Some(Unparsable)
      case Some(u) =>
        if !u.isAbs || u.host == "" then Some(NotAbsolute)
        else if u.fragment != "" then Some(HasFragment)
        else if u.scheme == "https" then None
        else if u.scheme == "http" && IsLoopbackHost(u.hostname) then None
        else Some(Insecure)
  }

  /** Absolute, with a host, without fragment or wildcard, and over plain http only to the machine itself. */
  predicate IsSafeTarget(uri: string, u: ParsedUrl) {
    && '*' !in uri && u.isAbs && u.host != "" && u.fragment == ""
    && (u.scheme == "https"
        || (u.scheme == "http" && Text.ToLower(u.hostname) in ["localhost", "127.0.0.1", "::1"]))
  }

  /** A redirect URI is accepted exactly when, trimmed, it parses as a safe target. */
  lemma RedirectURIAcceptedExactly(parse: UrlParser, raw: string)
    ensures var uri := Text.TrimSpace(raw);
            ValidateRedirectURI(parse, raw) == None <==> uri != "" && parse(uri).Some? && IsSafeTarget(uri, parse(uri).value)
  {
  }
}
