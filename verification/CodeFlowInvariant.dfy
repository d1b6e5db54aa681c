/** What every state of the code flow keeps, and that every step keeps it. */
module CodeFlowInvariant {
  import opened Prelude
  import opened Models
  import opened CodeFlow
  import Oauth
  import Registration
  import Sessions

  // How one state may follow another

  /** A code row never changes but for one thing: it is consumed once. */
  predicate Evolves(before: Code, after: Code) {
    after == before || (before.consumedAt == None && after == before.(consumedAt := after.consumedAt))
  }

  ghost predicate DbExtends(d: Db, d': Db) {
    && d.registry.clients <= d'.registry.clients
    && |d.registry.apps| <= |d'.registry.apps|
    && d.users <= d'.users
    && d.history <= d'.history
    && d.appTables <= d'.appTables
    && |d.codes| <= |d'.codes|
    && (forall c :: 0 <= c < |d.codes| ==> Evolves(d.codes[c], d'.codes[c]))
  }

  /** What a token request has consumed, if anything. */
  function Spent(s: TokenState): Option<Use> {
    match s
    case TVerified(_, u, _) => Some(u)
    case TIdentified(_, u, _, _) => Some(u)
    case TDone(_, _, spent) => spent
    case _ => None
  }

  ghost predicate Extends(w: World, w': World) {
    && DbExtends(w.db, w'.db)
    && w.now <= w'.now
    && w.step <= w'.step
    && w.issues <= w'.issues
    && (forall c :: c in w.uses ==> c in w'.uses && w'.uses[c] == w.uses[c])
    && (forall r :: r in w.authorize ==> r in w'.authorize && (w.authorize[r].ADone? ==> w'.authorize[r] == w.authorize[r]))
    && (forall r :: r in w.token ==> r in w'.token && (w.token[r].TDone? ==> w'.token[r] == w.token[r]))
    && (forall r :: r in w.token && Spent(w.token[r]).Some? ==> Spent(w'.token[r]) == Spent(w.token[r]))
  }

  lemma ExtendsTransitive(u: World, v: World, w: World)
    requires Extends(u, v) && Extends(v, w)
    ensures Extends(u, w)
  {
  }

  // Authorization requests

  /** The session row was in the table, unrevoked, when the history had `events` entries. */
  ghost predicate SessionReadOk(cfg: Config, w: World, cookie: string, row: Sessions.Session, events: nat) {
    && events <= |w.db.history|
    && row.revokedAt == None
    && exists i: nat :: ReadFrom(cfg, w.db.history[..events], i, cookie, row)
  }

  ghost predicate ReadFrom(cfg: Config, h: seq<Sessions.Event>, i: nat, cookie: string, row: Sessions.Session) {
    i < |h| && h[i].Created? && cfg.sha(h[i].token) == cfg.sha(cookie) && Sessions.RowOf(h, i, row)
  }

  ghost predicate SessionCheckedOk(cfg: Config, w: World, s: SignIn) {
    && SessionReadOk(cfg, w, s.cookie, s.session, s.events)
    && s.at <= w.now && s.at <= s.session.expiresAt
  }

  /** A request came in at a state of this run. */
  predicate ArrivalOk(w: World, a: Arrival) {
    && a.step < w.step && a.events <= |w.db.history| && 0 < a.tables <= |w.db.appTables| && a.at <= w.now
  }

  /** The session was read and checked after the request came in. */
  ghost predicate SignInOk(cfg: Config, w: World, input: AuthorizeInput, s: SignIn) {
    && input.cookie == Some(s.cookie)
    && SessionCheckedOk(cfg, w, s)
    && input.arrival.events <= s.events && input.arrival.at <= s.at
    && s.session.owner < |w.db.users|
  }

  ghost predicate ClientReadOk(cfg: Config, w: World, req: Oauth.AuthorizeRequest, client: nat, row: Client) {
    && client < |w.db.registry.clients| && w.db.registry.clients[client] == row
    && req.clientId == row.clientId != ""
    && req.redirectURI in row.redirectURIs
    && req.Validate() == None
  }

  /** The n-th application table held this row, and was current when the request came in or later. */
  predicate AppReadOk(w: World, arrival: Arrival, id: nat, app: Application, n: nat) {
    arrival.tables <= n + 1 && n < |w.db.appTables| && id < |w.db.appTables[n]| && w.db.appTables[n][id] == app
  }

  /** A known client, a redirect URI registered for it, a valid request, scopes its application allowed since it came in. */
  ghost predicate AdmittedOk(cfg: Config, w: World, input: AuthorizeInput, a: Admitted) {
    && ClientReadOk(cfg, w, input.req, a.client, a.clientRow)
    && (exists n :: AppReadOk(w, input.arrival, a.clientRow.applicationId, a.app, n))
    && Oauth.ValidateRequestedScopes(a.app, input.req.scope)
  }

  ghost predicate GrantOk(cfg: Config, w: World, g: Grant) {
    && SignInOk(cfg, w, g.input, g.signIn)
    && AdmittedOk(cfg, w, g.input, Admitted(g.client, g.clientRow, g.app))
    && g.input.random.Some? && g.rawCode == Oauth.FromRandom(g.input.random.value)
  }

  /** Redirects go only to a URI registered for the client that was named. */
  ghost predicate RedirectOk(w: World, req: Oauth.AuthorizeRequest, to: string) {
    && to == req.redirectURI
    && exists c :: 0 <= c < |w.db.registry.clients| && w.db.registry.clients[c].clientId == req.clientId
                   && to in w.db.registry.clients[c].redirectURIs
  }

  ghost predicate OutcomeOk(cfg: Config, w: World, r: nat, input: AuthorizeInput, outcome: AuthorizeOutcome,
                            issued: Option<IssuedCode>)
  {
    && (outcome.RedirectError? ==> RedirectOk(w, input.req, outcome.to))
    && (outcome.Prompt? ==> AdmittedOk(cfg, w, input, outcome.admitted))
    && (outcome.RedirectCode? <==> issued.Some?)
    && (issued.Some? ==>
          && GrantOk(cfg, w, issued.value.grant)
          && issued.value.grant.input == input
          && outcome == RedirectCode(input.req.redirectURI, issued.value.grant.rawCode, input.req.state)
          && issued.value.code < |w.issues| && w.issues[issued.value.code].request == r)
  }

  ghost predicate AuthorizeOk(cfg: Config, w: World, r: nat, s: AuthorizeState) {
    && ArrivalOk(w, InputOf(s).arrival)
    && match s
       case AStart(input) => true
       case ASessionRead(input, cookie, session, events) =>
         input.cookie == Some(cookie) && input.arrival.events <= events && SessionReadOk(cfg, w, cookie, session, events)
       case ASessionChecked(input, checked) =>
         && input.cookie == Some(checked.cookie) && SessionCheckedOk(cfg, w, checked)
         && input.arrival.events <= checked.events && input.arrival.at <= checked.at
       case AHandler(input, signIn) => signIn.Some? ==> SignInOk(cfg, w, input, signIn.value)
       case AClientRead(input, signIn, client, clientRow) =>
         && (signIn.Some? ==> SignInOk(cfg, w, input, signIn.value))
         && ClientReadOk(cfg, w, input.req, client, clientRow)
       case APrompt(input, admitted) => AdmittedOk(cfg, w, input, admitted)
       case AReady(g) => GrantOk(cfg, w, g)
       case AInsert(g, expiresAt) => GrantOk(cfg, w, g) && ExpiryOk(g, expiresAt, w.now)
       case ADone(input, outcome, issued) => OutcomeOk(cfg, w, r, input, outcome, issued)
  }

  /** The expiry is 60 seconds after a reading made after the session was checked, and not after `now`. */
  predicate ExpiryOk(g: Grant, expiresAt: int, now: int) {
    g.signIn.at <= expiresAt - Oauth.AUTHORIZATION_CODE_TTL <= now
  }

  lemma SessionReadMonotone(cfg: Config, w: World, w': World, cookie: string, row: Sessions.Session, events: nat)
    requires Extends(w, w') && SessionReadOk(cfg, w, cookie, row, events)
    ensures SessionReadOk(cfg, w', cookie, row, events)
  {
    assert w'.db.history[..events] == w.db.history[..events];
  }

  lemma AdmittedMonotone(cfg: Config, w: World, w': World, input: AuthorizeInput, a: Admitted)
    requires Extends(w, w') && AdmittedOk(cfg, w, input, a)
    ensures AdmittedOk(cfg, w', input, a)
  {
    var n :| AppReadOk(w, input.arrival, a.clientRow.applicationId, a.app, n);
    assert AppReadOk(w', input.arrival, a.clientRow.applicationId, a.app, n);
  }

  lemma GrantMonotone(cfg: Config, w: World, w': World, g: Grant)
    requires Extends(w, w') && GrantOk(cfg, w, g)
    ensures GrantOk(cfg, w', g)
  {
    SessionReadMonotone(cfg, w, w', g.signIn.cookie, g.signIn.session, g.signIn.events);
    AdmittedMonotone(cfg, w, w', g.input, Admitted(g.client, g.clientRow, g.app));
  }

  lemma RedirectMonotone(w: World, w': World, req: Oauth.AuthorizeRequest, to: string)
    requires Extends(w, w') && RedirectOk(w, req, to)
    ensures RedirectOk(w', req, to)
  {
    var c :| 0 <= c < |w.db.registry.clients| && w.db.registry.clients[c].clientId == req.clientId
             && to in w.db.registry.clients[c].redirectURIs;
    assert w'.db.registry.clients[c] == w.db.registry.clients[c];
  }

  lemma AuthorizeMonotone(cfg: Config, w: World, w': World, r: nat, s: AuthorizeState)
    requires Extends(w, w') && AuthorizeOk(cfg, w, r, s)
    ensures AuthorizeOk(cfg, w', r, s)
  {
    match s
    case ASessionRead(input, cookie, session, events) => SessionReadMonotone(cfg, w, w', cookie, session, events);
    case ASessionChecked(input, c) => SessionReadMonotone(cfg, w, w', c.cookie, c.session, c.events);
    case AHandler(input, signIn) =>
      if signIn.Some? {
        SessionReadMonotone(cfg, w, w', signIn.value.cookie, signIn.value.session, signIn.value.events);
      }
    case AClientRead(input, signIn, client, clientRow) =>
      if signIn.Some? {
        SessionReadMonotone(cfg, w, w', signIn.value.cookie, signIn.value.session, signIn.value.events);
      }
    case APrompt(input, admitted) => AdmittedMonotone(cfg, w, w', input, admitted);
    case AReady(g) => GrantMonotone(cfg, w, w', g);
    case AInsert(g, expiresAt) => GrantMonotone(cfg, w, w', g);
    case ADone(input, outcome, issued) =>
      if outcome.RedirectError? {
        RedirectMonotone(w, w', input.req, outcome.to);
      }
      if outcome.Prompt? {
        AdmittedMonotone(cfg, w, w', input, outcome.admitted);
      }
      if issued.Some? {
        GrantMonotone(cfg, w, w', issued.value.grant);
      }
    case _ =>
  }

  // Token requests

  ghost predicate LoadedOk(cfg: Config, w: World, input: TokenInput, l: Loaded) {
    && l.client < |w.db.registry.clients| && w.db.registry.clients[l.client] == l.clientRow
    && l.clientRow.clientId == PresentedClientId(input)
    && Authenticated(cfg, input, l.clientRow)
    && l.id < |w.db.codes| && Evolves(l.code, w.db.codes[l.id])
    && l.code.consumedAt == None && l.code.createdAt <= w.now
    && l.code.clientRow == l.client
    && l.code.codeHash == cfg.sha(input.code)
  }

  ghost predicate UseOk(cfg: Config, w: World, r: nat, input: TokenInput, u: Use) {
    && LoadedOk(cfg, w, input, u.loaded)
    && u.loaded.code.createdAt <= u.asOf <= u.stamp <= w.now
    && input.arrival.at <= u.asOf < u.loaded.code.expiresAt
    && w.db.codes[u.loaded.id].consumedAt == Some(u.stamp)
    && u.loaded.id in w.uses && w.uses[u.loaded.id].request == r
  }

  /** The request proved what the code was bound to. */
  ghost predicate Proved(cfg: Config, input: TokenInput, u: Use) {
    && u.loaded.code.redirectURI == input.redirectURI
    && Oauth.VerifyPKCE(cfg.sha, u.loaded.code.codeChallenge, input.codeVerifier, u.loaded.code.codeChallengeMethod)
  }

  ghost predicate ResponseOk(cfg: Config, w: World, u: Use, response: TokenResponse) {
    var code := u.loaded.code;
    && response.expiresIn == ExpiresIn(cfg)
    && (response.idToken.Some? <==> WantsIdToken(code))
    && (response.idToken.Some? ==>
          && code.userRow < |w.db.users|
          && exists now :: response.idToken.value == IssueClaims(cfg, now, u.loaded, w.db.users[code.userRow])
                           && u.stamp <= now <= w.now)
  }

  /** The clock is read after the request came in and after the code was stored. */
  predicate TimedOk(w: World, input: TokenInput, l: Loaded, asOf: int) {
    input.arrival.at <= asOf && l.code.createdAt <= asOf <= w.now
  }

  ghost predicate TokenOk(cfg: Config, w: World, r: nat, s: TokenState) {
    && ArrivalOk(w, s.input.arrival)
    && match s
       case TStart(input) => true
       case TClientRead(input, client, clientRow) =>
         && client < |w.db.registry.clients| && w.db.registry.clients[client] == clientRow
         && clientRow.clientId == PresentedClientId(input) && Authenticated(cfg, input, clientRow)
       case TCodeRead(input, l) => LoadedOk(cfg, w, input, l)
       case TFresh(input, l) => LoadedOk(cfg, w, input, l)
       case TTimed(input, l, asOf) => LoadedOk(cfg, w, input, l) && TimedOk(w, input, l, asOf)
       case TSending(input, l, asOf, stamp) =>
         LoadedOk(cfg, w, input, l) && TimedOk(w, input, l, asOf) && asOf <= stamp <= w.now
       case TVerified(input, u, _) => UseOk(cfg, w, r, input, u) && Proved(cfg, input, u) && WantsIdToken(u.loaded.code)
       case TIdentified(input, u, _, user) =>
         && UseOk(cfg, w, r, input, u) && Proved(cfg, input, u) && WantsIdToken(u.loaded.code)
         && u.loaded.code.userRow < |w.db.users| && w.db.users[u.loaded.code.userRow] == user
       case TDone(input, outcome, spent) =>
         && (spent.Some? ==> UseOk(cfg, w, r, input, spent.value))
         && (outcome.Granted? ==>
               spent.Some? && Proved(cfg, input, spent.value) && ResponseOk(cfg, w, spent.value, outcome.response))
  }

  lemma UseMonotone(cfg: Config, w: World, w': World, r: nat, input: TokenInput, u: Use)
    requires Extends(w, w') && UseOk(cfg, w, r, input, u)
    ensures UseOk(cfg, w', r, input, u)
  {
    assert Evolves(w.db.codes[u.loaded.id], w'.db.codes[u.loaded.id]);
  }

  lemma LoadedMonotone(cfg: Config, w: World, w': World, input: TokenInput, l: Loaded)
    requires Extends(w, w') && LoadedOk(cfg, w, input, l)
    ensures LoadedOk(cfg, w', input, l)
  {
    assert Evolves(w.db.codes[l.id], w'.db.codes[l.id]);
  }

  lemma TokenMonotone(cfg: Config, w: World, w': World, r: nat, s: TokenState)
    requires Extends(w, w') && TokenOk(cfg, w, r, s)
    ensures TokenOk(cfg, w', r, s)
  {
    match s
    case TCodeRead(input, l) => LoadedMonotone(cfg, w, w', input, l);
    case TFresh(input, l) => LoadedMonotone(cfg, w, w', input, l);
    case TTimed(input, l, _) => LoadedMonotone(cfg, w, w', input, l);
    case TSending(input, l, _, _) => LoadedMonotone(cfg, w, w', input, l);
    case TVerified(input, u, _) => UseMonotone(cfg, w, w', r, input, u);
    case TIdentified(input, u, _, _) => UseMonotone(cfg, w, w', r, input, u);
    case TDone(input, outcome, spent) =>
      if spent.Some? {
        UseMonotone(cfg, w, w', r, input, spent.value);
      }
    case _ =>
  }

  // The invariant

  ghost predicate AllScopesSupported(tables: seq<seq<Application>>) {
    forall table <- tables, app <- table :: Registration.Forms.AllSupported(app.allowedScopes)
  }

  ghost predicate DbOk(cfg: Config, w: World) {
    && Registration.Wellformed(cfg.parse, w.db.registry)
    && w.db.appTables != [] && w.db.appTables[|w.db.appTables| - 1] == w.db.registry.apps
    && AllScopesSupported(w.db.appTables)
    && Sessions.Represents(cfg.sha, w.db.sessions, w.db.history)
    && Sessions.Until(w.db.history, w.now)
    && (forall c, d :: 0 <= c < d < |w.db.codes| ==> w.db.codes[c].codeHash != w.db.codes[d].codeHash)
  }

  /** Code c was inserted by exactly one authorization request, which is done and redirected with it. */
  ghost predicate IssueOk(cfg: Config, w: World, c: nat)
    requires c < |w.db.codes| && c < |w.issues|
  {
    var m := w.issues[c];
    && m.step < w.step
    && m.request in w.authorize && w.authorize[m.request].ADone?
    && w.authorize[m.request].issued.Some?
    && var i := w.authorize[m.request].issued.value;
       && i.code == c
       && Evolves(CodeRow(cfg, i.grant, i.expiresAt, w.db.codes[c].createdAt), w.db.codes[c])
       && ExpiryOk(i.grant, i.expiresAt, w.db.codes[c].createdAt)
       && w.db.codes[c].createdAt <= w.now
  }

  /** Code c was consumed by exactly one token request, after it was issued. */
  ghost predicate UsedOk(w: World, c: nat)
    requires c in w.uses
  {
    var m := w.uses[c];
    && c < |w.db.codes| && w.db.codes[c].consumedAt.Some?
    && c < |w.issues| && w.issues[c].step < m.step < w.step
    && m.request in w.token
    && Spent(w.token[m.request]).Some?
    && Spent(w.token[m.request]).value.loaded.id == c
  }

  lemma IssueMonotone(cfg: Config, w: World, w': World, c: nat)
    requires Extends(w, w') && c < |w.db.codes| && c < |w.issues| && IssueOk(cfg, w, c)
    ensures IssueOk(cfg, w', c)
  {
    assert Evolves(w.db.codes[c], w'.db.codes[c]) && w'.issues[c] == w.issues[c];
  }

  lemma UsedMonotone(w: World, w': World, c: nat)
    requires Extends(w, w') && c in w.uses && UsedOk(w, c)
    ensures UsedOk(w', c)
  {
    assert Evolves(w.db.codes[c], w'.db.codes[c]) && w'.issues[c] == w.issues[c];
  }

  ghost predicate IssuesOk(cfg: Config, w: World) {
    |w.issues| == |w.db.codes| && forall c :: 0 <= c < |w.db.codes| ==> IssueOk(cfg, w, c)
  }

  ghost predicate UsesOk(w: World) {
    && (forall c :: c in w.uses ==> UsedOk(w, c))
    && (forall c :: 0 <= c < |w.db.codes| && w.db.codes[c].consumedAt.Some? ==> c in w.uses)
  }

  ghost predicate AuthorizesOk(cfg: Config, w: World) {
    forall r :: r in w.authorize ==> AuthorizeOk(cfg, w, r, w.authorize[r])
  }

  ghost predicate TokensOk(cfg: Config, w: World) {
    forall r :: r in w.token ==> TokenOk(cfg, w, r, w.token[r])
  }

  ghost predicate Inv(cfg: Config, w: World) {
    && DbOk(cfg, w)
    && IssuesOk(cfg, w)
    && UsesOk(w)
    && AuthorizesOk(cfg, w)
    && TokensOk(cfg, w)
  }

  // Part by part, what is kept when the new records are in order

  lemma IssuesLast(cfg: Config, w: World, w': World)
    requires IssuesOk(cfg, w) && Extends(w, w') && |w'.issues| == |w'.db.codes|
    requires forall c :: |w.db.codes| <= c < |w'.db.codes| ==> IssueOk(cfg, w', c)
    ensures IssuesOk(cfg, w')
  {
    forall c | 0 <= c < |w'.db.codes| ensures IssueOk(cfg, w', c) {
      if c < |w.db.codes| {
        IssueMonotone(cfg, w, w', c);
      }
    }
  }

  lemma UsesLast(w: World, w': World)
    requires UsesOk(w) && Extends(w, w')
    requires forall c :: c in w'.uses ==> c in w.uses || UsedOk(w', c)
    requires forall c :: 0 <= c < |w'.db.codes| && w'.db.codes[c].consumedAt.Some? ==>
               c in w'.uses || (c < |w.db.codes| && w.db.codes[c].consumedAt.Some?)
    ensures UsesOk(w')
  {
    forall c | c in w'.uses ensures UsedOk(w', c) {
      if c in w.uses {
        UsedMonotone(w, w', c);
      }
    }
  }

  lemma AuthorizesLast(cfg: Config, w: World, w': World)
    requires AuthorizesOk(cfg, w) && Extends(w, w')
    requires forall r :: r in w'.authorize ==>
               (r in w.authorize && w'.authorize[r] == w.authorize[r]) || AuthorizeOk(cfg, w', r, w'.authorize[r])
    ensures AuthorizesOk(cfg, w')
  {
    forall r | r in w'.authorize ensures AuthorizeOk(cfg, w', r, w'.authorize[r]) {
      if r in w.authorize && w'.authorize[r] == w.authorize[r] {
        AuthorizeMonotone(cfg, w, w', r, w.authorize[r]);
      }
    }
  }

  lemma TokensLast(cfg: Config, w: World, w': World)
    requires TokensOk(cfg, w) && Extends(w, w')
    requires forall r :: r in w'.token ==>
               (r in w.token && w'.token[r] == w.token[r]) || TokenOk(cfg, w', r, w'.token[r])
    ensures TokensOk(cfg, w')
  {
    forall r | r in w'.token ensures TokenOk(cfg, w', r, w'.token[r]) {
      if r in w.token && w'.token[r] == w.token[r] {
        TokenMonotone(cfg, w, w', r, w.token[r]);
      }
    }
  }

  /** No code has been stored, and none consumed. */
  lemma CodesLast(cfg: Config, w: World, w': World)
    requires IssuesOk(cfg, w) && UsesOk(w) && Extends(w, w')
    requires w'.db.codes == w.db.codes && w'.issues == w.issues && w'.uses == w.uses
    ensures IssuesOk(cfg, w') && UsesOk(w')
  {
    IssuesLast(cfg, w, w');
    UsesLast(w, w');
  }

  lemma InitialInv(cfg: Config, now: int)
    ensures Inv(cfg, Initial(now))
  {
  }

  // Changes to the tables from outside the two endpoints

  lemma RegistryStep(cfg: Config, w: World, next: Option<Registration.Registry>)
    requires DbOk(cfg, w)
    requires next.Some? ==>
               && Registration.Wellformed(cfg.parse, next.value)
               && w.db.registry.clients <= next.value.clients && |w.db.registry.apps| <= |next.value.apps|
    ensures DbOk(cfg, w.(db := WithRegistry(w.db, next)))
    ensures DbExtends(w.db, WithRegistry(w.db, next))
  {
  }

  lemma RegisterAppOk(cfg: Config, w: World, a: Action)
    requires DbOk(cfg, w) && a.RegisterApp?
    ensures DbOk(cfg, w.(db := DbAfter(cfg, w, a)))
    ensures DbExtends(w.db, DbAfter(cfg, w, a)) && DbAfter(cfg, w, a).codes == w.db.codes
  {
    var next := Registration.AfterRegisterApp(cfg.parse, cfg.sha, w.db.registry, a.app, a.client, a.randomId, a.randomSecret);
    if next.Some? {
      Registration.AfterRegisterAppKeeps(cfg.parse, cfg.sha, w.db.registry, a.app, a.client, a.randomId, a.randomSecret);
    }
    RegistryStep(cfg, w, next);
  }

  lemma CreateClientOk(cfg: Config, w: World, a: Action)
    requires DbOk(cfg, w) && a.CreateClient?
    ensures DbOk(cfg, w.(db := DbAfter(cfg, w, a)))
    ensures DbExtends(w.db, DbAfter(cfg, w, a)) && DbAfter(cfg, w, a).codes == w.db.codes
  {
    var next := Registration.AfterCreateClient(cfg.parse, cfg.sha, w.db.registry, a.id, a.client, a.randomId, a.randomSecret);
    if next.Some? {
      Registration.AfterCreateClientKeeps(cfg.parse, cfg.sha, w.db.registry, a.id, a.client, a.randomId, a.randomSecret);
    }
    RegistryStep(cfg, w, next);
  }

  lemma UpdateAppOk(cfg: Config, w: World, a: Action)
    requires DbOk(cfg, w) && a.UpdateApp?
    ensures DbOk(cfg, w.(db := DbAfter(cfg, w, a)))
    ensures DbExtends(w.db, DbAfter(cfg, w, a)) && DbAfter(cfg, w, a).codes == w.db.codes
  {
    var next := Registration.AfterUpdateApp(w.db.registry, a.id, a.app);
    if next.Some? {
      Registration.AfterUpdateAppKeeps(cfg.parse, w.db.registry, a.id, a.app);
    }
    RegistryStep(cfg, w, next);
  }

  lemma DbAfterOk(cfg: Config, w: World, a: Action)
    requires DbOk(cfg, w)
    ensures DbOk(cfg, w.(db := DbAfter(cfg, w, a)))
    ensures DbExtends(w.db, DbAfter(cfg, w, a)) && DbAfter(cfg, w, a).codes == w.db.codes
  {
    if a.RegisterApp? {
      RegisterAppOk(cfg, w, a);
    } else if a.CreateClient? {
      CreateClientOk(cfg, w, a);
    } else if a.UpdateApp? {
      UpdateAppOk(cfg, w, a);
    } else if a.ChangeSessions? && Sessions.After(cfg.sha, w.db.sessions, a.event).Some? {
      Sessions.AfterRepresents(cfg.sha, w.db.sessions, w.db.history, a.event);
    }
  }

  /** An action on the clock or the tables. */
  lemma TableActionKeeps(cfg: Config, w: World, a: Action)
    requires Inv(cfg, w)
    requires !a.StepAuthorize? && !a.StepToken? && !a.BeginAuthorize? && !a.BeginToken?
    ensures Inv(cfg, Exec(cfg, w, a)) && Extends(w, Exec(cfg, w, a))
  {
    DbAfterOk(cfg, w, a);
    TableActionExec(cfg, w, a);
    DbStaysOk(cfg, w.(db := DbAfter(cfg, w, a)), Exec(cfg, w, a));
    TablesMoved(cfg, w, Exec(cfg, w, a));
  }

  lemma TableActionExec(cfg: Config, w: World, a: Action)
    requires !a.StepAuthorize? && !a.StepToken? && !a.BeginAuthorize? && !a.BeginToken?
    ensures var w' := Exec(cfg, w, a);
            w' == w.(db := DbAfter(cfg, w, a), now := w'.now, step := w.step + 1) && w.now <= w'.now
  {
  }

  lemma DbStaysOk(cfg: Config, w: World, w': World)
    requires DbOk(cfg, w) && w'.db == w.db && w.now <= w'.now
    ensures DbOk(cfg, w')
  {
  }

  /** The tables have moved on, and the requests have not. */
  lemma TablesMoved(cfg: Config, w: World, w': World)
    requires Inv(cfg, w) && DbOk(cfg, w') && DbExtends(w.db, w'.db) && w'.db.codes == w.db.codes
    requires w' == w.(db := w'.db, now := w'.now, step := w.step + 1) && w.now <= w'.now
    ensures Inv(cfg, w') && Extends(w, w')
  {
    CodesLast(cfg, w, w');
    AuthorizesLast(cfg, w, w');
    TokensLast(cfg, w, w');
  }

  /** Nothing but arrivals. */
  predicate Arrives(w: World, w': World) {
    && w' == w.(authorize := w'.authorize, token := w'.token, step := w.step + 1)
    && (forall r <- w.authorize :: r in w'.authorize && w'.authorize[r] == w.authorize[r])
    && (forall r <- w'.authorize ::
          r in w.authorize || (w'.authorize[r].AStart? && w'.authorize[r].input.arrival == ArrivalAt(w)))
    && (forall r <- w.token :: r in w'.token && w'.token[r] == w.token[r])
    && (forall r <- w'.token :: r in w.token || (w'.token[r].TStart? && w'.token[r].input.arrival == ArrivalAt(w)))
  }

  lemma BeginArrives(cfg: Config, w: World, a: Action)
    requires || a.BeginAuthorize? || a.BeginToken?
             || (a.StepAuthorize? && a.request !in w.authorize) || (a.StepToken? && a.request !in w.token)
    ensures Arrives(w, Exec(cfg, w, a))
  {
  }

  lemma ArrivalKeeps(cfg: Config, w: World, w': World)
    requires Inv(cfg, w) && Arrives(w, w')
    ensures Inv(cfg, w') && Extends(w, w')
  {
    ArrivalExtends(w, w');
    DbStaysOk(cfg, w, w');
    CodesLast(cfg, w, w');
    AuthorizesLast(cfg, w, w');
    TokensLast(cfg, w, w');
  }

  lemma ArrivalExtends(w: World, w': World)
    requires Arrives(w, w')
    ensures Extends(w, w')
  {
  }

  /** A new request arrives, or an action is not enabled. */
  lemma BeginKeeps(cfg: Config, w: World, a: Action)
    requires Inv(cfg, w)
    requires || a.BeginAuthorize? || a.BeginToken?
             || (a.StepAuthorize? && a.request !in w.authorize) || (a.StepToken? && a.request !in w.token)
    ensures Inv(cfg, Exec(cfg, w, a)) && Extends(w, Exec(cfg, w, a))
  {
    BeginArrives(cfg, w, a);
    ArrivalKeeps(cfg, w, Exec(cfg, w, a));
  }

  /** One authorization request moves on without touching a table. */
  lemma AuthorizeMovedExtends(w: World, r: nat, s: AuthorizeState)
    requires r in w.authorize && (s == w.authorize[r] || !w.authorize[r].ADone?)
    ensures Extends(w, w.(authorize := w.authorize[r := s], step := w.step + 1))
  {
  }

  lemma AuthorizeMovedInv(cfg: Config, w: World, w': World, r: nat)
    requires Inv(cfg, w) && Extends(w, w') && r in w.authorize && r in w'.authorize
    requires w' == w.(authorize := w.authorize[r := w'.authorize[r]], step := w.step + 1)
    requires AuthorizeOk(cfg, w, r, w'.authorize[r])
    ensures Inv(cfg, w')
  {
    DbStaysOk(cfg, w, w');
    CodesLast(cfg, w, w');
    TokensLast(cfg, w, w');
    AuthorizeMonotone(cfg, w, w', r, w'.authorize[r]);
    AuthorizesLast(cfg, w, w');
  }

  lemma AuthorizeMoves(cfg: Config, w: World, r: nat, s: AuthorizeState)
    requires Inv(cfg, w) && r in w.authorize
    requires s == w.authorize[r] || (!w.authorize[r].ADone? && AuthorizeOk(cfg, w, r, s))
    ensures var w' := w.(authorize := w.authorize[r := s], step := w.step + 1);
            Inv(cfg, w') && Extends(w, w')
  {
    AuthorizeMovedExtends(w, r, s);
    AuthorizeMovedInv(cfg, w, w.(authorize := w.authorize[r := s], step := w.step + 1), r);
  }

  lemma TokenMovedExtends(w: World, r: nat, s: TokenState)
    requires r in w.token && (s == w.token[r] || (!w.token[r].TDone? && Spent(s) == Spent(w.token[r])))
    ensures Extends(w, w.(token := w.token[r := s], step := w.step + 1))
  {
  }

  lemma TokenMovedInv(cfg: Config, w: World, w': World, r: nat)
    requires Inv(cfg, w) && Extends(w, w') && r in w.token && r in w'.token
    requires w' == w.(token := w.token[r := w'.token[r]], step := w.step + 1)
    requires TokenOk(cfg, w, r, w'.token[r])
    ensures Inv(cfg, w')
  {
    DbStaysOk(cfg, w, w');
    CodesLast(cfg, w, w');
    AuthorizesLast(cfg, w, w');
    TokenMonotone(cfg, w, w', r, w'.token[r]);
    TokensLast(cfg, w, w');
  }

  lemma TokenMoves(cfg: Config, w: World, r: nat, s: TokenState)
    requires Inv(cfg, w) && r in w.token
    requires s == w.token[r] || (!w.token[r].TDone? && TokenOk(cfg, w, r, s) && Spent(s) == Spent(w.token[r]))
    ensures var w' := w.(token := w.token[r := s], step := w.step + 1);
            Inv(cfg, w') && Extends(w, w')
  {
    TokenMovedExtends(w, r, s);
    TokenMovedInv(cfg, w, w.(token := w.token[r := s], step := w.step + 1), r);
  }

  // Authorization steps

  lemma ParsesRegistered(cfg: Config, w: World, c: nat, uri: string)
    requires DbOk(cfg, w) && c < |w.db.registry.clients| && uri in w.db.registry.clients[c].redirectURIs
    ensures cfg.parse(uri).Some?
  {
    assert Registration.ClientOk(cfg.parse, w.db.registry, w.db.registry.clients[c]);
  }

  lemma SessionRead(cfg: Config, w: World, cookie: string)
    requires DbOk(cfg, w) && cfg.sha(cookie) in w.db.sessions.rows
    requires w.db.sessions.rows[cfg.sha(cookie)].revokedAt == None
    ensures SessionReadOk(cfg, w, cookie, w.db.sessions.rows[cfg.sha(cookie)], |w.db.history|)
  {
    var h, row := w.db.history, w.db.sessions.rows[cfg.sha(cookie)];
    var i :| 0 <= i < |h| && h[i].Created? && cfg.sha(h[i].token) == cfg.sha(cookie) && Sessions.RowOf(h, i, row);
    assert h[..|h|] == h;
    assert ReadFrom(cfg, h[..|h|], i, cookie, row);
  }

  lemma LookUpClientOk(cfg: Config, w: World, r: nat, fault: bool, input: AuthorizeInput, signIn: Option<SignIn>)
    requires AuthorizeOk(cfg, w, r, AHandler(input, signIn))
    ensures AuthorizeOk(cfg, w, r, LookUpClient(cfg, w.db, fault, input, signIn))
  {
    var found := Registration.FindClient(w.db.registry.clients, input.req.clientId);
    if found.Some? && Oauth.IsRedirectURIAllowed(w.db.registry.clients[found.value], input.req.redirectURI) {
      assert RedirectOk(w, input.req, input.req.redirectURI);
    }
  }

  lemma AppReadNow(cfg: Config, w: World, s: AuthorizeState)
    requires DbOk(cfg, w) && s.AClientRead? && ArrivalOk(w, s.input.arrival)
    requires s.clientRow.applicationId < |w.db.registry.apps|
    ensures var id := s.clientRow.applicationId;
            exists n :: AppReadOk(w, s.input.arrival, id, w.db.registry.apps[id], n)
  {
    var id, n := s.clientRow.applicationId, |w.db.appTables| - 1;
    assert AppReadOk(w, s.input.arrival, id, w.db.registry.apps[id], n);
  }

  lemma LookUpAppOk(cfg: Config, w: World, r: nat, fault: bool, s: AuthorizeState)
    requires DbOk(cfg, w) && s.AClientRead? && AuthorizeOk(cfg, w, r, s)
    ensures AuthorizeOk(cfg, w, r, LookUpApp(cfg, w.db, fault, s))
  {
    var next := LookUpApp(cfg, w.db, fault, s);
    if next.ADone? {
      ReadErrorOk(cfg, w, r, s, next.outcome);
    } else {
      AppReadNow(cfg, w, s);
      ReadAppOk(cfg, w, r, s, w.db.registry.apps[s.clientRow.applicationId]);
    }
  }

  /** An error of a request whose client is known. */
  lemma ReadErrorOk(cfg: Config, w: World, r: nat, s: AuthorizeState, outcome: AuthorizeOutcome)
    requires s.AClientRead? && AuthorizeOk(cfg, w, r, s)
    requires outcome.Page? || (outcome.RedirectError? && outcome.to == s.input.req.redirectURI)
    ensures AuthorizeOk(cfg, w, r, ADone(s.input, outcome, None))
  {
    assert RedirectOk(w, s.input.req, s.input.req.redirectURI);
  }

  /** Its application allows the scopes: the prompt, or a grant. */
  lemma ReadAppOk(cfg: Config, w: World, r: nat, s: AuthorizeState, app: Application)
    requires s.AClientRead? && AuthorizeOk(cfg, w, r, s) && Oauth.ValidateRequestedScopes(app, s.input.req.scope)
    requires exists n :: AppReadOk(w, s.input.arrival, s.clientRow.applicationId, app, n)
    ensures AuthorizeOk(cfg, w, r, APrompt(s.input, Admitted(s.client, s.clientRow, app)))
    ensures s.signIn.Some? && s.input.random.Some? ==>
              AuthorizeOk(cfg, w, r, AReady(Grant(s.input, s.signIn.value, s.client, s.clientRow, app,
                                                  Oauth.FromRandom(s.input.random.value))))
  {
  }

  lemma InputKept(cfg: Config, db: Db, now: int, fault: bool, s: AuthorizeState)
    ensures InputOf(AuthorizeStep(cfg, db, now, fault, s).1) == InputOf(s)
  {
  }

  /** A step that does not insert a code. */
  lemma FirstStepOk(cfg: Config, w: World, r: nat, fault: bool, input: AuthorizeInput)
    requires DbOk(cfg, w) && AuthorizeOk(cfg, w, r, AStart(input))
    ensures AuthorizeStep(cfg, w.db, w.now, fault, AStart(input)).0 == w.db
    ensures AuthorizeOk(cfg, w, r, AuthorizeStep(cfg, w.db, w.now, fault, AStart(input)).1)
  {
    if input.cookie.Some? && cfg.sha(input.cookie.value) in w.db.sessions.rows
       && w.db.sessions.rows[cfg.sha(input.cookie.value)].revokedAt == None
    {
      SessionRead(cfg, w, input.cookie.value);
    }
  }

  lemma SessionStepOk(cfg: Config, w: World, r: nat, fault: bool, s: AuthorizeState)
    requires AuthorizeOk(cfg, w, r, s) && (s.ASessionRead? || s.ASessionChecked?)
    ensures AuthorizeStep(cfg, w.db, w.now, fault, s).0 == w.db
    ensures AuthorizeOk(cfg, w, r, AuthorizeStep(cfg, w.db, w.now, fault, s).1)
  {
  }

  lemma LastStepOk(cfg: Config, w: World, r: nat, fault: bool, s: AuthorizeState)
    requires AuthorizeOk(cfg, w, r, s) && (s.APrompt? || s.AReady? || s.ADone?)
    ensures AuthorizeStep(cfg, w.db, w.now, fault, s).0 == w.db
    ensures AuthorizeOk(cfg, w, r, AuthorizeStep(cfg, w.db, w.now, fault, s).1)
  {
  }

  lemma AuthorizeStepOk(cfg: Config, w: World, r: nat, fault: bool, s: AuthorizeState)
    requires DbOk(cfg, w) && AuthorizeOk(cfg, w, r, s) && !s.AInsert?
    ensures AuthorizeStep(cfg, w.db, w.now, fault, s).0 == w.db
    ensures AuthorizeOk(cfg, w, r, AuthorizeStep(cfg, w.db, w.now, fault, s).1)
  {
    match s
    case AStart(input) => FirstStepOk(cfg, w, r, fault, input);
    case ASessionRead(_, _, _, _) => SessionStepOk(cfg, w, r, fault, s);
    case ASessionChecked(_, _) => SessionStepOk(cfg, w, r, fault, s);
    case AHandler(input, signIn) => LookUpClientOk(cfg, w, r, fault, input, signIn);
    case AClientRead(_, _, _, _) => LookUpAppOk(cfg, w, r, fault, s);
    case _ => LastStepOk(cfg, w, r, fault, s);
  }

  lemma QuietAuthorizeExec(cfg: Config, w: World, r: nat, fault: bool)
    requires r in w.authorize && AuthorizeStep(cfg, w.db, w.now, fault, w.authorize[r]).0 == w.db
    ensures var next := AuthorizeStep(cfg, w.db, w.now, fault, w.authorize[r]).1;
            Exec(cfg, w, StepAuthorize(r, fault)) == w.(authorize := w.authorize[r := next], step := w.step + 1)
  {
  }

  lemma AuthorizeExec(cfg: Config, w: World, r: nat, fault: bool)
    requires Inv(cfg, w) && r in w.authorize
    ensures Inv(cfg, Exec(cfg, w, StepAuthorize(r, fault))) && Extends(w, Exec(cfg, w, StepAuthorize(r, fault)))
  {
    var s := w.authorize[r];
    if s.AInsert? {
      InsertExec(cfg, w, r, fault);
    } else {
      AuthorizeStepOk(cfg, w, r, fault, s);
      var next := AuthorizeStep(cfg, w.db, w.now, fault, s).1;
      QuietAuthorizeExec(cfg, w, r, fault);
      AuthorizeMoves(cfg, w, r, next);
    }
  }

  lemma InsertExec(cfg: Config, w: World, r: nat, fault: bool)
    requires Inv(cfg, w) && r in w.authorize && w.authorize[r].AInsert?
    ensures Inv(cfg, Exec(cfg, w, StepAuthorize(r, fault))) && Extends(w, Exec(cfg, w, StepAuthorize(r, fault)))
  {
    var g, expiresAt := w.authorize[r].grant, w.authorize[r].expiresAt;
    if fault || FindCode(w.db.codes, cfg.sha(g.rawCode)).Some? {
      InsertRefused(cfg, w, r, fault);
    } else {
      InsertSucceeds(cfg, w, r);
    }
  }

  lemma InsertRefused(cfg: Config, w: World, r: nat, fault: bool)
    requires Inv(cfg, w) && r in w.authorize && w.authorize[r].AInsert?
    requires fault || FindCode(w.db.codes, cfg.sha(w.authorize[r].grant.rawCode)).Some?
    ensures Inv(cfg, Exec(cfg, w, StepAuthorize(r, fault))) && Extends(w, Exec(cfg, w, StepAuthorize(r, fault)))
  {
    var g := w.authorize[r].grant;
    var next := RedirectOrPage(cfg, g.input, Oauth.ServerError);
    RefusedOk(cfg, w, r);
    RefusingExec(cfg, w, r, fault);
    AuthorizeMoves(cfg, w, r, next);
  }

  lemma RefusingExec(cfg: Config, w: World, r: nat, fault: bool)
    requires r in w.authorize && w.authorize[r].AInsert?
    requires fault || FindCode(w.db.codes, cfg.sha(w.authorize[r].grant.rawCode)).Some?
    ensures var next := RedirectOrPage(cfg, w.authorize[r].grant.input, Oauth.ServerError);
            Exec(cfg, w, StepAuthorize(r, fault)) == w.(authorize := w.authorize[r := next], step := w.step + 1)
  {
  }

  lemma RefusedOk(cfg: Config, w: World, r: nat)
    requires Inv(cfg, w) && r in w.authorize && w.authorize[r].AInsert?
    ensures AuthorizeOk(cfg, w, r, RedirectOrPage(cfg, w.authorize[r].grant.input, Oauth.ServerError))
  {
    var g := w.authorize[r].grant;
    assert AuthorizeOk(cfg, w, r, w.authorize[r]);
    assert RedirectOk(w, g.input.req, g.input.req.redirectURI);
  }

  lemma InsertSucceeds(cfg: Config, w: World, r: nat)
    requires Inv(cfg, w) && r in w.authorize && w.authorize[r].AInsert?
    requires FindCode(w.db.codes, cfg.sha(w.authorize[r].grant.rawCode)) == None
    ensures Inv(cfg, Exec(cfg, w, StepAuthorize(r, false))) && Extends(w, Exec(cfg, w, StepAuthorize(r, false)))
  {
    var w' := Exec(cfg, w, StepAuthorize(r, false));
    var g, expiresAt := w.authorize[r].grant, w.authorize[r].expiresAt;
    var row, c := CodeRow(cfg, g, expiresAt, w.now), |w.db.codes|;
    assert AuthorizeOk(cfg, w, r, w.authorize[r]);
    ParsesRegistered(cfg, w, g.client, g.input.req.redirectURI);
    InsertingExec(cfg, w, r);
    var done := ADone(g.input, RedirectCode(g.input.req.redirectURI, g.rawCode, g.input.req.state),
                      Some(IssuedCode(g, expiresAt, c)));
    assert w' == w.(db := w.db.(codes := w.db.codes + [row]), authorize := w.authorize[r := done],
                    step := w.step + 1, issues := w.issues + [Mark(r, w.step)]);
    InsertExtends(cfg, w, w', r, row, done);
    InsertedOk(cfg, w, w', r, g, expiresAt);
    InsertInv(cfg, w, w', r, row, done);
  }

  lemma InsertingExec(cfg: Config, w: World, r: nat)
    requires r in w.authorize && w.authorize[r].AInsert?
    requires FindCode(w.db.codes, cfg.sha(w.authorize[r].grant.rawCode)) == None
    requires cfg.parse(w.authorize[r].grant.input.req.redirectURI).Some?
    ensures var g, expiresAt := w.authorize[r].grant, w.authorize[r].expiresAt;
            var done := ADone(g.input, RedirectCode(g.input.req.redirectURI, g.rawCode, g.input.req.state),
                              Some(IssuedCode(g, expiresAt, |w.db.codes|)));
            Exec(cfg, w, StepAuthorize(r, false))
            == w.(db := w.db.(codes := w.db.codes + [CodeRow(cfg, g, expiresAt, w.now)]),
                  authorize := w.authorize[r := done], step := w.step + 1, issues := w.issues + [Mark(r, w.step)])
  {
  }

  lemma InsertInv(cfg: Config, w: World, w': World, r: nat, row: Code, done: AuthorizeState)
    requires Inv(cfg, w) && r in w.authorize && Extends(w, w') && DbOk(cfg, w')
    requires w' == w.(db := w.db.(codes := w.db.codes + [row]), authorize := w.authorize[r := done],
                      step := w.step + 1, issues := w.issues + [Mark(r, w.step)])
    requires row.consumedAt == None && AuthorizeOk(cfg, w', r, done) && IssueOk(cfg, w', |w.db.codes|)
    ensures Inv(cfg, w')
  {
    InsertCodes(cfg, w, w', r, row);
    InsertAuthorizes(cfg, w, w', r);
    TokensLast(cfg, w, w');
  }

  lemma InsertCodes(cfg: Config, w: World, w': World, r: nat, row: Code)
    requires IssuesOk(cfg, w) && UsesOk(w) && Extends(w, w') && row.consumedAt == None
    requires w'.db.codes == w.db.codes + [row] && w'.issues == w.issues + [Mark(r, w.step)] && w'.uses == w.uses
    requires IssueOk(cfg, w', |w.db.codes|)
    ensures IssuesOk(cfg, w') && UsesOk(w')
  {
    IssuesLast(cfg, w, w');
    UsesLast(w, w');
  }

  lemma InsertAuthorizes(cfg: Config, w: World, w': World, r: nat)
    requires AuthorizesOk(cfg, w) && Extends(w, w') && r in w'.authorize && AuthorizeOk(cfg, w', r, w'.authorize[r])
    requires w'.authorize == w.authorize[r := w'.authorize[r]]
    ensures AuthorizesOk(cfg, w')
  {
    AuthorizesLast(cfg, w, w');
  }

  lemma InsertedOk(cfg: Config, w: World, w': World, r: nat, g: Grant, expiresAt: int)
    requires Inv(cfg, w) && r in w.authorize && w.authorize[r] == AInsert(g, expiresAt) && Extends(w, w')
    requires var c := |w.db.codes|;
             var done := ADone(g.input, RedirectCode(g.input.req.redirectURI, g.rawCode, g.input.req.state),
                               Some(IssuedCode(g, expiresAt, c)));
             w' == w.(db := w.db.(codes := w.db.codes + [CodeRow(cfg, g, expiresAt, w.now)]),
                      authorize := w.authorize[r := done], step := w.step + 1, issues := w.issues + [Mark(r, w.step)])
    ensures AuthorizeOk(cfg, w', r, w'.authorize[r]) && IssueOk(cfg, w', |w.db.codes|)
  {
    assert AuthorizeOk(cfg, w, r, w.authorize[r]);
    GrantMonotone(cfg, w, w', g);
    InsertedIssue(cfg, w, w', r, g, expiresAt);
    InsertedDone(cfg, w', r, g, expiresAt, |w.db.codes|);
  }

  lemma InsertedDone(cfg: Config, w: World, r: nat, g: Grant, expiresAt: int, c: nat)
    requires ArrivalOk(w, g.input.arrival) && GrantOk(cfg, w, g) && c < |w.issues| && w.issues[c].request == r
    ensures AuthorizeOk(cfg, w, r, ADone(g.input, RedirectCode(g.input.req.redirectURI, g.rawCode, g.input.req.state),
                                         Some(IssuedCode(g, expiresAt, c))))
  {
  }

  lemma InsertedIssue(cfg: Config, w: World, w': World, r: nat, g: Grant, expiresAt: int)
    requires |w.issues| == |w.db.codes| && ExpiryOk(g, expiresAt, w.now)
    requires w'.db.codes == w.db.codes + [CodeRow(cfg, g, expiresAt, w.now)] && w'.issues == w.issues + [Mark(r, w.step)]
    requires r in w'.authorize && w'.authorize[r].ADone? && w'.now == w.now && w'.step == w.step + 1
    requires w'.authorize[r].issued == Some(IssuedCode(g, expiresAt, |w.db.codes|))
    ensures IssueOk(cfg, w', |w.db.codes|)
  {
  }

  lemma InsertExtends(cfg: Config, w: World, w': World, r: nat, row: Code, done: AuthorizeState)
    requires Inv(cfg, w) && r in w.authorize && w.authorize[r].AInsert? && FindCode(w.db.codes, row.codeHash) == None
    requires w' == w.(db := w.db.(codes := w.db.codes + [row]), authorize := w.authorize[r := done],
                      step := w.step + 1, issues := w.issues + [Mark(r, w.step)])
    ensures Extends(w, w') && DbOk(cfg, w')
  {
    InsertDbOk(cfg, w, w', row);
    InsertFollows(w, w', r, row, done);
  }

  lemma InsertDbOk(cfg: Config, w: World, w': World, row: Code)
    requires DbOk(cfg, w) && FindCode(w.db.codes, row.codeHash) == None
    requires w'.db == w.db.(codes := w.db.codes + [row]) && w'.now == w.now
    ensures DbOk(cfg, w')
  {
  }

  lemma InsertFollows(w: World, w': World, r: nat, row: Code, done: AuthorizeState)
    requires r in w.authorize && w.authorize[r].AInsert?
    requires w' == w.(db := w.db.(codes := w.db.codes + [row]), authorize := w.authorize[r := done],
                      step := w.step + 1, issues := w.issues + [Mark(r, w.step)])
    ensures Extends(w, w')
  {
  }

  // Token steps

  lemma FindCodeIsUnique(cfg: Config, w: World, hash: Bytes, c: nat)
    requires DbOk(cfg, w) && c < |w.db.codes| && w.db.codes[c].codeHash == hash
    ensures FindCode(w.db.codes, hash) == Some(c)
  {
  }

  lemma AuthenticateClientOk(cfg: Config, w: World, r: nat, fault: bool, input: TokenInput)
    requires ArrivalOk(w, input.arrival)
    ensures TokenOk(cfg, w, r, AuthenticateClient(cfg, w.db, fault, input))
    ensures Spent(AuthenticateClient(cfg, w.db, fault, input)) == None
  {
  }

  ghost predicate CodesPast(w: World) {
    forall c :: 0 <= c < |w.db.codes| ==> w.db.codes[c].createdAt <= w.now
  }

  lemma InvCodesPast(cfg: Config, w: World)
    requires Inv(cfg, w)
    ensures CodesPast(w)
  {
    forall c | 0 <= c < |w.db.codes| ensures w.db.codes[c].createdAt <= w.now {
      assert IssueOk(cfg, w, c);
    }
  }

  lemma LoadCodeOk(cfg: Config, w: World, r: nat, fault: bool, input: TokenInput, client: nat, clientRow: Client)
    requires CodesPast(w) && TokenOk(cfg, w, r, TClientRead(input, client, clientRow))
    ensures TokenOk(cfg, w, r, LoadCode(cfg, w.db, fault, input, client, clientRow))
    ensures Spent(LoadCode(cfg, w.db, fault, input, client, clientRow)) == None
  {
  }

  lemma AfterConsumeOk(cfg: Config, w: World, r: nat, input: TokenInput, u: Use)
    requires ArrivalOk(w, input.arrival) && UseOk(cfg, w, r, input, u)
    ensures TokenOk(cfg, w, r, AfterConsume(cfg, input, u))
    ensures Spent(AfterConsume(cfg, input, u)) == Some(u)
  {
    var s := AfterConsume(cfg, input, u);
    AfterConsumeIs(cfg, w, input, u);
    if s.TDone? && s.outcome.Granted? {
      assert ResponseOk(cfg, w, u, s.outcome.response);
    }
  }

  /** Rejected, granted without an ID token, or on the way to one; with the checks passed unless rejected. */
  lemma AfterConsumeIs(cfg: Config, w: World, input: TokenInput, u: Use)
    ensures var s := AfterConsume(cfg, input, u);
            && s.input == input && Spent(s) == Some(u)
            && (s.TVerified? || (s.TDone? && (s.outcome.Rejected? || ResponseOk(cfg, w, u, s.outcome.response))))
            && (s.TVerified? ==> Proved(cfg, input, u) && WantsIdToken(u.loaded.code))
            && (s.TDone? && s.outcome.Granted? ==> Proved(cfg, input, u))
  {
  }

  lemma IssueTokenOk(cfg: Config, w: World, r: nat, s: TokenState)
    requires s.TIdentified? && TokenOk(cfg, w, r, s)
    ensures TokenOk(cfg, w, r, TokenStep(cfg, w.db, w.now, false, s).1)
  {
    var claims := IssueClaims(cfg, w.now, s.use.loaded, s.user);
    assert ResponseOk(cfg, w, s.use, TokenResponse(s.accessToken, ExpiresIn(cfg), Some(claims)));
  }

  lemma ClockStepOk(cfg: Config, w: World, r: nat, fault: bool, s: TokenState)
    requires TokenOk(cfg, w, r, s) && (s.TCodeRead? || s.TFresh? || s.TTimed?)
    ensures TokenOk(cfg, w, r, TokenStep(cfg, w.db, w.now, fault, s).1)
    ensures Spent(TokenStep(cfg, w.db, w.now, fault, s).1) == None
  {
  }

  lemma LoadUserOk(cfg: Config, w: World, r: nat, fault: bool, s: TokenState)
    requires TokenOk(cfg, w, r, s) && s.TVerified?
    ensures TokenOk(cfg, w, r, TokenStep(cfg, w.db, w.now, fault, s).1)
    ensures Spent(TokenStep(cfg, w.db, w.now, fault, s).1) == Spent(s)
  {
  }

  /** A step that does not consume a code. */
  lemma TokenStepOk(cfg: Config, w: World, r: nat, fault: bool, s: TokenState)
    requires CodesPast(w) && TokenOk(cfg, w, r, s)
    requires s.TSending? ==> fault || !Consumable(w.db.codes, s.loaded.id, s.asOf)
    ensures TokenStep(cfg, w.db, w.now, fault, s).0 == w.db
    ensures TokenOk(cfg, w, r, TokenStep(cfg, w.db, w.now, fault, s).1)
    ensures Spent(TokenStep(cfg, w.db, w.now, fault, s).1) == Spent(s)
  {
    match s
    case TStart(input) => AuthenticateClientOk(cfg, w, r, fault, input);
    case TClientRead(input, client, clientRow) => LoadCodeOk(cfg, w, r, fault, input, client, clientRow);
    case TVerified(_, _, _) => LoadUserOk(cfg, w, r, fault, s);
    case TIdentified(_, _, _, _) =>
      if !fault {
        IssueTokenOk(cfg, w, r, s);
      }
    case TSending(_, _, _, _) =>
    case TDone(_, _, _) =>
    case _ => ClockStepOk(cfg, w, r, fault, s);
  }

  lemma QuietTokenExec(cfg: Config, w: World, r: nat, fault: bool)
    requires r in w.token && TokenStep(cfg, w.db, w.now, fault, w.token[r]).0 == w.db
    ensures var next := TokenStep(cfg, w.db, w.now, fault, w.token[r]).1;
            Exec(cfg, w, StepToken(r, fault)) == w.(token := w.token[r := next], step := w.step + 1)
  {
  }

  lemma TokenExec(cfg: Config, w: World, r: nat, fault: bool)
    requires Inv(cfg, w) && r in w.token
    ensures Inv(cfg, Exec(cfg, w, StepToken(r, fault))) && Extends(w, Exec(cfg, w, StepToken(r, fault)))
  {
    var s := w.token[r];
    if s.TSending? && !fault && Consumable(w.db.codes, s.loaded.id, s.asOf) {
      ConsumeExec(cfg, w, r);
    } else {
      InvCodesPast(cfg, w);
      assert TokenOk(cfg, w, r, s);
      TokenStepOk(cfg, w, r, fault, s);
      var next := TokenStep(cfg, w.db, w.now, fault, s).1;
      QuietTokenExec(cfg, w, r, fault);
      TokenMoves(cfg, w, r, next);
    }
  }

  lemma ConsumeExec(cfg: Config, w: World, r: nat)
    requires Inv(cfg, w) && r in w.token && w.token[r].TSending?
    requires Consumable(w.db.codes, w.token[r].loaded.id, w.token[r].asOf)
    ensures Inv(cfg, Exec(cfg, w, StepToken(r, false))) && Extends(w, Exec(cfg, w, StepToken(r, false)))
  {
    var w' := Exec(cfg, w, StepToken(r, false));
    var s := w.token[r];
    var id, u := s.loaded.id, Use(s.loaded, s.asOf, s.stamp);
    ConsumingExec(cfg, w, r);
    ConsumeExtends(cfg, w, w', r, u);
    ConsumedOk(cfg, w, w', r, u);
    ConsumeInv(cfg, w, w', r, u);
  }

  lemma ConsumingExec(cfg: Config, w: World, r: nat)
    requires r in w.token && w.token[r].TSending?
    requires Consumable(w.db.codes, w.token[r].loaded.id, w.token[r].asOf)
    ensures var s, codes := w.token[r], w.db.codes;
            var id := s.loaded.id;
            Exec(cfg, w, StepToken(r, false))
            == w.(db := w.db.(codes := codes[id := codes[id].(consumedAt := Some(s.stamp))]),
                  token := w.token[r := AfterConsume(cfg, s.input, Use(s.loaded, s.asOf, s.stamp))],
                  step := w.step + 1, uses := w.uses[id := Mark(r, w.step)])
  {
    var id := w.token[r].loaded.id;
    assert w.db.codes[id := w.db.codes[id].(consumedAt := Some(w.token[r].stamp))][id] != w.db.codes[id];
  }

  lemma ConsumedOk(cfg: Config, w: World, w': World, r: nat, u: Use)
    requires Inv(cfg, w) && r in w.token && w.token[r] == TSending(w.token[r].input, u.loaded, u.asOf, u.stamp)
    requires Extends(w, w') && r in w'.token && w'.token[r] == AfterConsume(cfg, w.token[r].input, u)
    requires Consumable(w.db.codes, u.loaded.id, u.asOf)
    requires w'.db.codes[u.loaded.id].consumedAt == Some(u.stamp)
    requires u.loaded.id in w'.uses && w'.uses[u.loaded.id] == Mark(r, w.step) && w'.step == w.step + 1
    ensures TokenOk(cfg, w', r, w'.token[r]) && UsedOk(w', u.loaded.id)
  {
    assert TokenOk(cfg, w, r, w.token[r]);
    LoadedMonotone(cfg, w, w', w.token[r].input, u.loaded);
    AfterConsumeOk(cfg, w', r, w.token[r].input, u);
    assert IssueOk(cfg, w, u.loaded.id);
  }

  lemma ConsumeInv(cfg: Config, w: World, w': World, r: nat, u: Use)
    requires Inv(cfg, w) && r in w.token && Extends(w, w') && Consumable(w.db.codes, u.loaded.id, u.asOf)
    requires var codes := w.db.codes;
             w' == w.(db := w.db.(codes := codes[u.loaded.id := codes[u.loaded.id].(consumedAt := Some(u.stamp))]),
                      token := w.token[r := w'.token[r]], step := w.step + 1,
                      uses := w.uses[u.loaded.id := Mark(r, w.step)])
    requires TokenOk(cfg, w', r, w'.token[r]) && UsedOk(w', u.loaded.id)
    ensures Inv(cfg, w')
  {
    ConsumeDbOk(cfg, w, w', u);
    ConsumeCodes(cfg, w, w', r, u);
    AuthorizesLast(cfg, w, w');
    ConsumeTokens(cfg, w, w', r);
  }

  lemma ConsumeCodes(cfg: Config, w: World, w': World, r: nat, u: Use)
    requires IssuesOk(cfg, w) && UsesOk(w) && Extends(w, w') && u.loaded.id < |w.db.codes|
    requires w'.db.codes == w.db.codes[u.loaded.id := w.db.codes[u.loaded.id].(consumedAt := Some(u.stamp))]
    requires w'.issues == w.issues && w'.uses == w.uses[u.loaded.id := Mark(r, w.step)] && UsedOk(w', u.loaded.id)
    ensures IssuesOk(cfg, w') && UsesOk(w')
  {
    IssuesLast(cfg, w, w');
    UsesLast(w, w');
  }

  lemma ConsumeTokens(cfg: Config, w: World, w': World, r: nat)
    requires TokensOk(cfg, w) && Extends(w, w') && r in w'.token && TokenOk(cfg, w', r, w'.token[r])
    requires w'.token == w.token[r := w'.token[r]]
    ensures TokensOk(cfg, w')
  {
    TokensLast(cfg, w, w');
  }

  lemma ConsumeDbOk(cfg: Config, w: World, w': World, u: Use)
    requires DbOk(cfg, w) && u.loaded.id < |w.db.codes| && w'.now == w.now
    requires var codes := w.db.codes;
             w'.db == w.db.(codes := codes[u.loaded.id := codes[u.loaded.id].(consumedAt := Some(u.stamp))])
    ensures DbOk(cfg, w')
  {
  }

  lemma ConsumeExtends(cfg: Config, w: World, w': World, r: nat, u: Use)
    requires UsesOk(w) && r in w.token && w.token[r].TSending? && u.loaded == w.token[r].loaded
    requires Consumable(w.db.codes, u.loaded.id, u.asOf)
    requires var codes := w.db.codes;
             w' == w.(db := w.db.(codes := codes[u.loaded.id := codes[u.loaded.id].(consumedAt := Some(u.stamp))]),
                      token := w.token[r := AfterConsume(cfg, w.token[r].input, u)],
                      step := w.step + 1, uses := w.uses[u.loaded.id := Mark(r, w.step)])
    ensures Extends(w, w')
  {
    assert u.loaded.id !in w.uses;
    ConsumedEvolves(w.db.codes, u.loaded.id, u.stamp);
    assert DbExtends(w.db, w'.db);
  }

  lemma ConsumedEvolves(codes: seq<Code>, id: nat, stamp: int)
    requires id < |codes| && codes[id].consumedAt == None
    ensures forall c :: 0 <= c < |codes| ==> Evolves(codes[c], codes[id := codes[id].(consumedAt := Some(stamp))][c])
  {
  }

  /** Every action of the system keeps the invariant and only extends the state. */
  lemma ExecKeeps(cfg: Config, w: World, a: Action)
    requires Inv(cfg, w)
    ensures Inv(cfg, Exec(cfg, w, a)) && Extends(w, Exec(cfg, w, a))
  {
    match a
    case StepAuthorize(r, fault) =>
      if r in w.authorize {
        AuthorizeExec(cfg, w, r, fault);
      } else {
        BeginKeeps(cfg, w, a);
      }
    case StepToken(r, fault) =>
      if r in w.token {
        TokenExec(cfg, w, r, fault);
      } else {
        BeginKeeps(cfg, w, a);
      }
    case BeginAuthorize(_, _) => BeginKeeps(cfg, w, a);
    case BeginToken(_, _) => BeginKeeps(cfg, w, a);
    case _ => TableActionKeeps(cfg, w, a);
  }

  lemma {:induction false} RunKeeps(cfg: Config, w: World, actions: seq<Action>)
    requires Inv(cfg, w)
    ensures Inv(cfg, Run(cfg, w, actions)) && Extends(w, Run(cfg, w, actions))
  {
    if actions != [] {
      var front := actions[..|actions| - 1];
      RunKeeps(cfg, w, front);
      ExecKeeps(cfg, Run(cfg, w, front), actions[|actions| - 1]);
      ExtendsTransitive(w, Run(cfg, w, front), Run(cfg, w, actions));
    }
  }
}
