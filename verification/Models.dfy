/**
  Rows of the tables. A table from which nothing is ever deleted is a sequence
  and a row's id is its index. Times are integers, in nanoseconds.
*/
module Models {
  import opened Prelude

  const SECOND: int := 1_000_000_000

  datatype Client = Client(
    applicationId: nat,
    clientId: string,
    secretHash: Bytes,
    clientType: string,
    tokenEndpointAuthMethod: string,
    redirectURIs: seq<string>,
    postLogoutRedirectURIs: seq<string>,
    allowedOrigins: seq<string>,
    environment: string)

  datatype Application = Application(
    name: string,
    description: string,
    firstParty: bool,
    allowedScopes: seq<string>)

  datatype User = User(subject: string, email: string)

  datatype Code = Code(
    codeHash: Bytes,
    clientRow: nat,
    userRow: nat,
    redirectURI: string,
    scope: string,
    nonce: Option<string>,
    codeChallenge: string,
    codeChallengeMethod: string,
    expiresAt: int,
    createdAt: int,
    consumedAt: Option<int>)

  /** What `url.Parse` exposes of a parsed URL. */
  datatype ParsedUrl = ParsedUrl(
    isAbs: bool, scheme: string, host: string, hostname: string, path: string, fragment: string)

  /** `url.Parse`: some deterministic partial function on text. */
  type UrlParser = string -> Option<ParsedUrl>

  /** SHA-256 on the bytes of a text: some function whose digests have 32 bytes. */
  type Digest = f: string -> Bytes | forall s :: |f(s)| == 32 witness (s: string) => seq(32, _ => 0)

  /** No two texts share a digest. Named wherever a result depends on it. */
  ghost predicate CollisionFree(sha: Digest) {
    forall s, t :: sha(s) == sha(t) ==> s == t
  }
}
