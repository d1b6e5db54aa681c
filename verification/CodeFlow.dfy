/**
  The authorization code flow as steps: every request to the authorization or
  the token endpoint is a small program whose steps are single database
  statements and clock readings. Requests interleave freely with each other and
  with the rest of the system.
*/
module CodeFlow {
  import opened Prelude
  import opened Models
  import Text
  import Oauth
  import Registration
  import Sessions

  datatype Config = Config(sha: Digest, parse: UrlParser, issuer: string, idTokenTtl: int)

  /** `NewIDTokenIssuer`: ten minutes unless a positive lifetime is configured. */
  function TokenLifetime(ttl: int): int {
    if ttl <= 0 then 600 * SECOND else ttl
  }

  /** Seconds since the epoch, rounded down. */
  function Unix(t: int): int {
    t / SECOND
  }

  /**
    The tables. `history` holds the changes made to the sessions, and `appTables`
    the application tables so far, the last one current; no step decides by them.
  */
  datatype Db = Db(
    registry: Registration.Registry,
    users: seq<User>,
    sessions: Sessions.Store,
    codes: seq<Code>,
    history: seq<Sessions.Event>,
    appTables: seq<seq<Application>>)

  // Code table

  /** `GetByCodeHash`: the first row with this hash. */
  function FindCode(codes: seq<Code>, hash: Bytes): (r: Option<nat>)
    ensures r.Some? ==> r.value < |codes| && codes[r.value].codeHash == hash
    ensures r.None? ==> forall i :: 0 <= i < |codes| ==> codes[i].codeHash != hash
  {
    if codes == [] then None
    else
      var n := |codes| - 1;
      var earlier := FindCode(codes[..n], hash);
      if earlier.Some? then earlier else if codes[n].codeHash == hash then Some(n) else None
  }

  /** The condition of the conditional update in `Consume`; `asOf` is its first clock reading. */
  predicate Consumable(codes: seq<Code>, id: nat, asOf: int) {
    id < |codes| && codes[id].consumedAt == None && codes[id].expiresAt > asOf
  }

  /** One atomic statement; `stamp` is the second clock reading, the value it stores. */
  function ConsumeRow(codes: seq<Code>, id: nat, asOf: int, stamp: int): seq<Code> {
    if Consumable(codes, id, asOf) then codes[id := codes[id].(consumedAt := Some(stamp))] else codes
  }

  // Authorization requests

  /**
    When a request came in: the step of the run, how much history and how many
    application tables there were, the clock.
  */
  datatype Arrival = Arrival(step: nat, events: nat, tables: nat, at: int)

  /**
    `random` is None when the random source fails. The arrival is stamped when the
    request comes in; nothing is decided by it.
  */
  datatype AuthorizeInput = AuthorizeInput(
    req: Oauth.AuthorizeRequest, cookie: Option<string>, random: Option<Bytes>, arrival: Arrival)

  /** A session that passed the middleware: as read when the history had `events` entries, checked at `at`. */
  datatype SignIn = SignIn(cookie: string, session: Sessions.Session, events: nat, at: int)

  /** Everything a code will be bound to. */
  datatype Grant = Grant(
    input: AuthorizeInput, signIn: SignIn, client: nat, clientRow: Client, app: Application, rawCode: string)

  datatype IssuedCode = IssuedCode(grant: Grant, expiresAt: int, code: nat)

  /** What the sign-in prompt was rendered for. */
  datatype Admitted = Admitted(client: nat, clientRow: Client, app: Application)

  datatype AuthorizeOutcome =
    | Page(status: nat, error: Oauth.ErrorCode)
    | Prompt(admitted: Admitted)
    | RedirectError(to: string, error: Oauth.ErrorCode, state: string)
    | RedirectCode(to: string, code: string, state: string)

  datatype AuthorizeState =
    | AStart(input: AuthorizeInput)
    | ASessionRead(input: AuthorizeInput, cookie: string, session: Sessions.Session, events: nat)
    | ASessionChecked(input: AuthorizeInput, checked: SignIn)
    | AHandler(input: AuthorizeInput, signIn: Option<SignIn>)
    | AClientRead(input: AuthorizeInput, signIn: Option<SignIn>, client: nat, clientRow: Client)
    | APrompt(input: AuthorizeInput, admitted: Admitted)
    | AReady(grant: Grant)
    | AInsert(grant: Grant, expiresAt: int)
    | ADone(input: AuthorizeInput, outcome: AuthorizeOutcome, issued: Option<IssuedCode>)

  function InputOf(s: AuthorizeState): AuthorizeInput {
    match s
    case AReady(g) => g.input
    case AInsert(g, _) => g.input
    case _ => s.input
  }

  function RedirectOrPage(cfg: Config, input: AuthorizeInput, error: Oauth.ErrorCode): AuthorizeState {
    if cfg.parse(input.req.redirectURI) == None then ADone(input, Page(400, error), None)
    else ADone(input, RedirectError(input.req.redirectURI, error, input.req.state), None)
  }

  function CodeRow(cfg: Config, g: Grant, expiresAt: int, createdAt: int): Code {
    var req := g.input.req;
    Code(
      codeHash := cfg.sha(g.rawCode),
      clientRow := g.client,
      userRow := g.signIn.session.owner,
      redirectURI := req.redirectURI,
      scope := req.scope,
      nonce := if req.nonce != "" then Some(req.nonce) else None,
      codeChallenge := req.codeChallenge,
      codeChallengeMethod := req.codeChallengeMethod,
      expiresAt := expiresAt,
      createdAt := createdAt,
      consumedAt := None)
  }

  /** The handler up to the client row: local checks, `GetByClientID`, local checks. */
  function LookUpClient(cfg: Config, db: Db, fault: bool, input: AuthorizeInput, signIn: Option<SignIn>): AuthorizeState {
    var req := input.req;
    if req.clientId == "" || req.redirectURI == "" then ADone(input, Page(400, Oauth.InvalidRequest), None)
    else if fault then ADone(input, Page(500, Oauth.ServerError), None)
    else
      match Registration.FindClient(db.registry.clients, req.clientId)
      case None => ADone(input, Page(400, Oauth.InvalidClient), None)
      case Some(c) =>
        var row := db.registry.clients[c];
        if !Oauth.IsRedirectURIAllowed(row, req.redirectURI) then ADone(input, Page(400, Oauth.InvalidRequest), None)
        else if req.Validate().Some? then RedirectOrPage(cfg, input, req.Validate().value)
        else AClientRead(input, signIn, c, row)
  }

  /** The application row, then the scope check; a signed-in request goes on to its code. */
  function LookUpApp(cfg: Config, db: Db, fault: bool, s: AuthorizeState): AuthorizeState
    requires s.AClientRead?
  {
    if fault || s.clientRow.applicationId >= |db.registry.apps| then RedirectOrPage(cfg, s.input, Oauth.ServerError)
    else
      var app := db.registry.apps[s.clientRow.applicationId];
      if !Oauth.ValidateRequestedScopes(app, s.input.req.scope) then RedirectOrPage(cfg, s.input, Oauth.InvalidScope)
      else if s.signIn == None then APrompt(s.input, Admitted(s.client, s.clientRow, app))
      else if s.input.random == None then RedirectOrPage(cfg, s.input, Oauth.ServerError)
      else AReady(Grant(s.input, s.signIn.value, s.client, s.clientRow, app, Oauth.FromRandom(s.input.random.value)))
  }

  /** Inserts the code and redirects with it; the URL is parsed only after the insert. */
  function InsertCode(cfg: Config, db: Db, now: int, fault: bool, g: Grant, expiresAt: int): (Db, AuthorizeState) {
    var row := CodeRow(cfg, g, expiresAt, now);
    if fault || FindCode(db.codes, row.codeHash).Some? then (db, RedirectOrPage(cfg, g.input, Oauth.ServerError))
    else
      var req := g.input.req;
      var outcome :=
        if cfg.parse(req.redirectURI) == None then Page(400, Oauth.InvalidRequest)
        else RedirectCode(req.redirectURI, g.rawCode, req.state);
      (db.(codes := db.codes + [row]), ADone(g.input, outcome, Some(IssuedCode(g, expiresAt, |db.codes|))))
  }

  /** One step: at most one statement or one clock reading. `fault` makes the statement fail without effect. */
  function AuthorizeStep(cfg: Config, db: Db, now: int, fault: bool, s: AuthorizeState): (Db, AuthorizeState) {
    match s
    case AStart(input) =>
      if input.cookie == None || fault || cfg.sha(input.cookie.value) !in db.sessions.rows then (db, AHandler(input, None))
      else
        var session := db.sessions.rows[cfg.sha(input.cookie.value)];
        (db, if session.revokedAt.Some? then AHandler(input, None)
             else ASessionRead(input, input.cookie.value, session, |db.history|))
    case ASessionRead(input, cookie, session, events) =>
      (db, if now > session.expiresAt then AHandler(input, None)
           else ASessionChecked(input, SignIn(cookie, session, events, now)))
    case ASessionChecked(input, checked) =>
      (db, AHandler(input, if fault || checked.session.owner >= |db.users| then None else Some(checked)))
    case AHandler(input, signIn) => (db, LookUpClient(cfg, db, fault, input, signIn))
    case AClientRead(_, _, _, _) => (db, LookUpApp(cfg, db, fault, s))
    case APrompt(input, admitted) =>
      (db, ADone(input, if fault then Page(500, Oauth.ServerError) else Prompt(admitted), None))
    case AReady(g) => (db, AInsert(g, now + Oauth.AUTHORIZATION_CODE_TTL))
    case AInsert(g, expiresAt) => InsertCode(cfg, db, now, fault, g, expiresAt)
    case ADone(_, _, _) => (db, s)
  }

  // Token requests

  datatype Basic = Basic(clientId: string, secret: string)

  /** The arrival is stamped when the request comes in; nothing is decided by it. */
  datatype TokenInput = TokenInput(
    contentType: string,
    formParses: bool,
    grantType: string,
    code: string,
    redirectURI: string,
    codeVerifier: string,
    clientId: string,
    clientSecret: string,
    basic: Option<Basic>,
    random: Option<Bytes>,
    arrival: Arrival)

  function PresentedClientId(input: TokenInput): string {
    if input.clientId != "" then input.clientId else if input.basic.Some? then input.basic.value.clientId else ""
  }

  /** Claims as serialised: an empty nonce or email is left out. */
  datatype Claims = Claims(
    iss: string, sub: string, aud: string, exp: int, iat: int, authTime: int, nonce: string, email: string)

  datatype TokenResponse = TokenResponse(accessToken: string, expiresIn: int, idToken: Option<Claims>)

  datatype TokenOutcome = Granted(response: TokenResponse) | Rejected(status: nat, error: Oauth.ErrorCode)

  /** A loaded code: its id and the row as read. */
  datatype Loaded = Loaded(client: nat, clientRow: Client, id: nat, code: Code)

  /** A consumption: what was loaded and the two clock readings of the update. */
  datatype Use = Use(loaded: Loaded, asOf: int, stamp: int)

  datatype TokenState =
    | TStart(input: TokenInput)
    | TClientRead(input: TokenInput, client: nat, clientRow: Client)
    | TCodeRead(input: TokenInput, loaded: Loaded)
    | TFresh(input: TokenInput, loaded: Loaded)
    | TTimed(input: TokenInput, loaded: Loaded, asOf: int)
    | TSending(input: TokenInput, loaded: Loaded, asOf: int, stamp: int)
    | TVerified(input: TokenInput, use: Use, accessToken: string)
    | TIdentified(input: TokenInput, use: Use, accessToken: string, user: User)
    | TDone(input: TokenInput, outcome: TokenOutcome, spent: Option<Use>)

  function Reject(input: TokenInput, status: nat, error: Oauth.ErrorCode): TokenState {
    TDone(input, Rejected(status, error), None)
  }

  /** `authenticateTokenClient`. */
  predicate Authenticated(cfg: Config, input: TokenInput, c: Client) {
    if !Oauth.IsConfidential(c) then true
    else if c.tokenEndpointAuthMethod == "client_secret_basic" then
      input.basic.Some? && input.basic.value.clientId == c.clientId
      && Oauth.ValidateClientSecret(cfg.sha, c, input.basic.value.secret)
    else if c.tokenEndpointAuthMethod == "client_secret_post" then
      PresentedClientId(input) == c.clientId && Oauth.ValidateClientSecret(cfg.sha, c, input.clientSecret)
    else false
  }

  predicate FormContent(contentType: string) {
    contentType == "" || Text.HasPrefix(contentType, "application/x-www-form-urlencoded")
  }

  predicate Incomplete(input: TokenInput) {
    input.code == "" || input.redirectURI == "" || input.codeVerifier == "" || PresentedClientId(input) == ""
  }

  function AuthenticateClient(cfg: Config, db: Db, fault: bool, input: TokenInput): TokenState {
    if !FormContent(input.contentType) || !input.formParses || input.grantType == "" then
      Reject(input, 400, Oauth.InvalidRequest)
    else if input.grantType != "authorization_code" then Reject(input, 400, Oauth.UnsupportedGrantType)
    else if Incomplete(input) then Reject(input, 400, Oauth.InvalidRequest)
    else if fault then Reject(input, 500, Oauth.ServerError)
    else
      match Registration.FindClient(db.registry.clients, PresentedClientId(input))
      case None => Reject(input, 401, Oauth.InvalidClient)
      case Some(c) =>
        if Authenticated(cfg, input, db.registry.clients[c]) then TClientRead(input, c, db.registry.clients[c])
        else Reject(input, 401, Oauth.InvalidClient)
  }

  function LoadCode(cfg: Config, db: Db, fault: bool, input: TokenInput, client: nat, clientRow: Client): TokenState {
    if fault then Reject(input, 500, Oauth.ServerError)
    else
      match FindCode(db.codes, cfg.sha(input.code))
      case None => Reject(input, 400, Oauth.InvalidGrant)
      case Some(id) =>
        var code := db.codes[id];
        if code.clientRow != client || code.consumedAt.Some? then Reject(input, 400, Oauth.InvalidGrant)
        else TCodeRead(input, Loaded(client, clientRow, id, code))
  }

  predicate WantsIdToken(code: Code) {
    "openid" in Text.Fields(code.scope)
  }

  /** The checks after consumption, on the row as it was loaded. */
  function AfterConsume(cfg: Config, input: TokenInput, use: Use): TokenState {
    var code := use.loaded.code;
    if code.redirectURI != input.redirectURI
       || !Oauth.VerifyPKCE(cfg.sha, code.codeChallenge, input.codeVerifier, code.codeChallengeMethod)
    then TDone(input, Rejected(400, Oauth.InvalidGrant), Some(use))
    else if input.random == None then TDone(input, Rejected(500, Oauth.ServerError), Some(use))
    else
      var accessToken := Oauth.FromRandom(input.random.value);
      if WantsIdToken(code) then TVerified(input, use, accessToken)
      else TDone(input, Granted(TokenResponse(accessToken, ExpiresIn(cfg), None)), Some(use))
  }

  function ExpiresIn(cfg: Config): int {
    TokenLifetime(cfg.idTokenTtl) / SECOND
  }

  function IssueClaims(cfg: Config, now: int, l: Loaded, user: User): Claims {
    Claims(
      iss := cfg.issuer,
      sub := user.subject,
      aud := l.clientRow.clientId,
      exp := Unix(now + TokenLifetime(cfg.idTokenTtl)),
      iat := Unix(now),
      authTime := Unix(l.code.createdAt),
      nonce := if l.code.nonce.Some? then l.code.nonce.value else "",
      email := if "email" in Text.Fields(l.code.scope) then user.email else "")
  }

  function Consume(cfg: Config, db: Db, fault: bool, input: TokenInput, use: Use): (Db, TokenState) {
    var id := use.loaded.id;
    if fault || !Consumable(db.codes, id, use.asOf) then (db, Reject(input, 400, Oauth.InvalidGrant))
    else (db.(codes := ConsumeRow(db.codes, id, use.asOf, use.stamp)), AfterConsume(cfg, input, use))
  }

  function TokenStep(cfg: Config, db: Db, now: int, fault: bool, s: TokenState): (Db, TokenState) {
    match s
    case TStart(input) => (db, AuthenticateClient(cfg, db, fault, input))
    case TClientRead(input, client, clientRow) => (db, LoadCode(cfg, db, fault, input, client, clientRow))
    case TCodeRead(input, loaded) =>
      (db, if now > loaded.code.expiresAt then Reject(input, 400, Oauth.InvalidGrant) else TFresh(input, loaded))
    case TFresh(input, loaded) => (db, TTimed(input, loaded, now))
    case TTimed(input, loaded, asOf) => (db, TSending(input, loaded, asOf, now))
    case TSending(input, loaded, asOf, stamp) => Consume(cfg, db, fault, input, Use(loaded, asOf, stamp))
    case TVerified(input, use, accessToken) =>
      (db, if fault || use.loaded.code.userRow >= |db.users| then TDone(input, Rejected(500, Oauth.ServerError), Some(use))
           else TIdentified(input, use, accessToken, db.users[use.loaded.code.userRow]))
    case TIdentified(input, use, accessToken, user) =>
      (db, if fault then TDone(input, Rejected(500, Oauth.ServerError), Some(use))
           else
             var claims := IssueClaims(cfg, now, use.loaded, user);
             TDone(input, Granted(TokenResponse(accessToken, ExpiresIn(cfg), Some(claims))), Some(use)))
    case TDone(_, _, _) => (db, s)
  }

  // The whole system

  /** Who did something, and in which step of the run. */
  datatype Mark = Mark(request: nat, step: nat)

  /**
    A state of the system. `issues` (one entry per code) and `uses` (one per
    consumed code) record which request inserted and which consumed a row.
  */
  datatype World = World(
    db: Db,
    now: int,
    step: nat,
    authorize: map<nat, AuthorizeState>,
    token: map<nat, TokenState>,
    issues: seq<Mark>,
    uses: map<nat, Mark>)

  datatype Action =
    | Tick(duration: nat)
    | BeginAuthorize(request: nat, authorizeInput: AuthorizeInput)
    | BeginToken(request: nat, tokenInput: TokenInput)
    | StepAuthorize(request: nat, fault: bool)
    | StepToken(request: nat, fault: bool)
    | RegisterApp(app: Registration.AppInput, client: Registration.ClientInput, randomId: Bytes, randomSecret: Bytes)
    | CreateClient(id: nat, client: Registration.ClientInput, randomId: Bytes, randomSecret: Bytes)
    | UpdateApp(id: nat, app: Registration.AppInput)
    | AddUser(user: User)
    | ChangeSessions(event: Sessions.Event)

  const EMPTY_DB := Db(Registration.Registry([], []), [], Sessions.EMPTY, [], [], [[]])

  function Initial(now: int): World {
    World(EMPTY_DB, now, 0, map[], map[], [], map[])
  }

  function ArrivalAt(w: World): Arrival {
    Arrival(w.step, |w.db.history|, |w.db.appTables|, w.now)
  }

  /** A registry change; it happens unless it is refused. */
  function WithRegistry(db: Db, next: Option<Registration.Registry>): Db {
    if next == None then db
    else db.(registry := next.value, appTables := db.appTables + [next.value.apps])
  }

  function DbAfter(cfg: Config, w: World, a: Action): Db {
    var db := w.db;
    match a
    case RegisterApp(app, client, randomId, randomSecret) =>
      WithRegistry(db, Registration.AfterRegisterApp(cfg.parse, cfg.sha, db.registry, app, client, randomId, randomSecret))
    case CreateClient(id, client, randomId, randomSecret) =>
      WithRegistry(db, Registration.AfterCreateClient(cfg.parse, cfg.sha, db.registry, id, client, randomId, randomSecret))
    case UpdateApp(id, app) => WithRegistry(db, Registration.AfterUpdateApp(db.registry, id, app))
    case AddUser(user) => db.(users := db.users + [user])
    case ChangeSessions(event) =>
      var next := Sessions.After(cfg.sha, db.sessions, event);
      if next == None || event.at > w.now then db
      else db.(sessions := next.value, history := db.history + [event])
    case _ => db
  }

  /** The effect of one action; an action that is not enabled leaves the tables and requests as they are. */
  function Exec(cfg: Config, w: World, a: Action): World {
    match a
    case Tick(duration) => w.(now := w.now + duration, step := w.step + 1)
    case BeginAuthorize(r, input) =>
      if r in w.authorize then w.(step := w.step + 1)
      else w.(authorize := w.authorize[r := AStart(input.(arrival := ArrivalAt(w)))], step := w.step + 1)
    case BeginToken(r, input) =>
      if r in w.token then w.(step := w.step + 1)
      else w.(token := w.token[r := TStart(input.(arrival := ArrivalAt(w)))], step := w.step + 1)
    case StepAuthorize(r, fault) =>
      if r !in w.authorize then w.(step := w.step + 1)
      else
        var (db, s) := AuthorizeStep(cfg, w.db, w.now, fault, w.authorize[r]);
        w.(db := db, authorize := w.authorize[r := s], step := w.step + 1,
           issues := if |db.codes| > |w.db.codes| then w.issues + [Mark(r, w.step)] else w.issues)
    case StepToken(r, fault) =>
      if r !in w.token then w.(step := w.step + 1)
      else
        var (db, s) := TokenStep(cfg, w.db, w.now, fault, w.token[r]);
        w.(db := db, token := w.token[r := s], step := w.step + 1,
           uses := if db.codes != w.db.codes && w.token[r].TSending? then w.uses[w.token[r].loaded.id := Mark(r, w.step)]
                   else w.uses)
    case _ => w.(db := DbAfter(cfg, w, a), step := w.step + 1)
  }

  function Run(cfg: Config, w: World, actions: seq<Action>): World {
    if actions == [] then w else Exec(cfg, Run(cfg, w, actions[..|actions| - 1]), actions[|actions| - 1])
  }

  lemma {:induction false} RunConcat(cfg: Config, w: World, a: seq<Action>, b: seq<Action>)
    ensures Run(cfg, w, a + b) == Run(cfg, Run(cfg, w, a), b)
  {
    if b == [] {
      assert a + b == a;
    } else {
      RunConcat(cfg, w, a, b[..|b| - 1]);
      assert (a + b)[..|a + b| - 1] == a + b[..|b| - 1];
    }
  }

  lemma RunTwo(cfg: Config, w: World, a: Action, b: Action)
    ensures Run(cfg, w, [a, b]) == Exec(cfg, Exec(cfg, w, a), b)
  {
    assert [a, b][..1] == [a] && [a][..0] == [];
    assert Run(cfg, w, [a]) == Exec(cfg, w, a);
  }
}
