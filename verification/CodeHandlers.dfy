/**
  The two endpoints as they are written, run without interruption: each handler
  is proved to be the sequence of its steps, so that what holds of all runs
  holds of it.
*/
module CodeHandlers {
  import opened Prelude
  import opened Models
  import opened CodeFlow
  import Text
  import Oauth
  import Registration
  import Sessions

  /** What the k-th step of a request meets: the clock, and whether its statement fails. */
  datatype Moment = Moment(now: int, fault: bool)

  type Script = nat -> Moment

  // A request that is never interrupted

  function TokenRank(s: TokenState): nat {
    match s
    case TStart(_) => 8
    case TClientRead(_, _, _) => 7
    case TCodeRead(_, _) => 6
    case TFresh(_, _) => 5
    case TTimed(_, _, _) => 4
    case TSending(_, _, _, _) => 3
    case TVerified(_, _, _) => 2
    case TIdentified(_, _, _, _) => 1
    case TDone(_, _, _) => 0
  }

  lemma AuthenticatingDrops(cfg: Config, db: Db, m: Moment, s: TokenState)
    requires s.TStart?
    ensures TokenRank(TokenStep(cfg, db, m.now, m.fault, s).1) < TokenRank(s)
  {
  }

  lemma LoadingDrops(cfg: Config, db: Db, m: Moment, s: TokenState)
    requires s.TClientRead?
    ensures TokenRank(TokenStep(cfg, db, m.now, m.fault, s).1) < TokenRank(s)
  {
  }

  lemma SendingDrops(cfg: Config, db: Db, m: Moment, s: TokenState)
    requires s.TSending?
    ensures TokenRank(TokenStep(cfg, db, m.now, m.fault, s).1) < TokenRank(s)
  {
  }

  lemma ClockStepsDrop(cfg: Config, db: Db, m: Moment, s: TokenState)
    requires s.TCodeRead? || s.TFresh? || s.TTimed?
    ensures TokenRank(TokenStep(cfg, db, m.now, m.fault, s).1) < TokenRank(s)
  {
  }

  lemma VerifiedDrops(cfg: Config, db: Db, m: Moment, s: TokenState)
    requires s.TVerified?
    ensures TokenRank(TokenStep(cfg, db, m.now, m.fault, s).1) < TokenRank(s)
  {
  }

  lemma IdentifiedDrops(cfg: Config, db: Db, m: Moment, s: TokenState)
    requires s.TIdentified?
    ensures TokenRank(TokenStep(cfg, db, m.now, m.fault, s).1) < TokenRank(s)
  {
    LastStepEnds(cfg, db, m.now, m.fault, s.input, s.use, s.accessToken, s.user);
  }

  lemma LastStepEnds(cfg: Config, db: Db, now: int, fault: bool, input: TokenInput, use: Use, accessToken: string, user: User)
    ensures TokenStep(cfg, db, now, fault, TIdentified(input, use, accessToken, user)).1.TDone?
  {
  }

  lemma TokenRankDrops(cfg: Config, db: Db, m: Moment, s: TokenState)
    requires !s.TDone?
    ensures TokenRank(TokenStep(cfg, db, m.now, m.fault, s).1) < TokenRank(s)
  {
    if s.TStart? {
      AuthenticatingDrops(cfg, db, m, s);
    } else if s.TClientRead? {
      LoadingDrops(cfg, db, m, s);
    } else if s.TSending? {
      SendingDrops(cfg, db, m, s);
    } else if s.TVerified? {
      VerifiedDrops(cfg, db, m, s);
    } else if s.TIdentified? {
      IdentifiedDrops(cfg, db, m, s);
    } else {
      ClockStepsDrop(cfg, db, m, s);
    }
  }

  function TokenSolo(cfg: Config, db: Db, s: TokenState, script: Script, k: nat): (Db, TokenState)
    decreases TokenRank(s)
  {
    if s.TDone? then (db, s)
    else
      var (db', s') := TokenStep(cfg, db, script(k).now, script(k).fault, s);
      TokenRankDrops(cfg, db, script(k), s);
      TokenSolo(cfg, db', s', script, k + 1)
  }

  function AuthorizeRank(s: AuthorizeState): nat {
    match s
    case AStart(_) => 8
    case ASessionRead(_, _, _, _) => 7
    case ASessionChecked(_, _) => 6
    case AHandler(_, _) => 5
    case AClientRead(_, _, _, _) => 4
    case APrompt(_, _) => 3
    case AReady(_) => 2
    case AInsert(_, _) => 1
    case ADone(_, _, _) => 0
  }

  lemma AuthorizeRankDrops(cfg: Config, db: Db, m: Moment, s: AuthorizeState)
    requires !s.ADone?
    ensures AuthorizeRank(AuthorizeStep(cfg, db, m.now, m.fault, s).1) < AuthorizeRank(s)
  {
  }

  function AuthorizeSolo(cfg: Config, db: Db, s: AuthorizeState, script: Script, k: nat): (Db, AuthorizeState)
    decreases AuthorizeRank(s)
  {
    if s.ADone? then (db, s)
    else
      var (db', s') := AuthorizeStep(cfg, db, script(k).now, script(k).fault, s);
      AuthorizeRankDrops(cfg, db, script(k), s);
      AuthorizeSolo(cfg, db', s', script, k + 1)
  }

  /** The clock does not go back along the script, which starts no earlier than `now`. */
  ghost predicate Forward(script: Script, k: nat, now: int) {
    now <= script(k).now && forall i, j :: k <= i <= j ==> script(i).now <= script(j).now
  }

  /** Some run of the system from `w` takes a token request to this result. */
  ghost predicate TokenReaches(cfg: Config, w: World, r: nat, result: (Db, TokenState)) {
    exists actions: seq<Action> :: TokenAfter(cfg, w, r, actions, result)
  }

  ghost predicate TokenAfter(cfg: Config, w: World, r: nat, actions: seq<Action>, result: (Db, TokenState)) {
    var w' := Run(cfg, w, actions);
    r in w'.token && (w'.db, w'.token[r]) == result
  }

  lemma TokenReachesFrom(cfg: Config, w: World, first: seq<Action>, r: nat, result: (Db, TokenState))
    requires TokenReaches(cfg, Run(cfg, w, first), r, result)
    ensures TokenReaches(cfg, w, r, result)
  {
    var rest :| TokenAfter(cfg, Run(cfg, w, first), r, rest, result);
    RunConcat(cfg, w, first, rest);
    assert TokenAfter(cfg, w, r, first + rest, result);
  }

  /** One step at a given time is two actions: the clock, then the step. */
  lemma TokenStepIsRun(cfg: Config, w: World, r: nat, m: Moment)
    requires r in w.token && w.now <= m.now
    ensures var u := Run(cfg, w, [Tick(m.now - w.now), StepToken(r, m.fault)]);
            u.now == m.now && r in u.token
            && (u.db, u.token[r]) == TokenStep(cfg, w.db, m.now, m.fault, w.token[r])
  {
    var tick, step := Tick(m.now - w.now), StepToken(r, m.fault);
    RunTwo(cfg, w, tick, step);
    var v := Exec(cfg, w, tick);
    assert v.db == w.db && v.token == w.token && v.now == m.now;
  }

  lemma TokenSoloStep(cfg: Config, w: World, r: nat, script: Script, k: nat) returns (two: seq<Action>)
    requires r in w.token && !w.token[r].TDone? && w.now <= script(k).now
    ensures var u := Run(cfg, w, two);
            u.now == script(k).now && r in u.token && TokenRank(u.token[r]) < TokenRank(w.token[r])
            && TokenSolo(cfg, u.db, u.token[r], script, k + 1) == TokenSolo(cfg, w.db, w.token[r], script, k)
  {
    two := [Tick(script(k).now - w.now), StepToken(r, script(k).fault)];
    TokenStepIsRun(cfg, w, r, script(k));
    TokenRankDrops(cfg, w.db, script(k), w.token[r]);
    TokenSoloNext(cfg, w.db, w.token[r], script, k);
  }

  /** An uninterrupted token request is a run of the system: ticks and its own steps. */
  lemma {:induction false} TokenSoloIsRun(cfg: Config, w: World, r: nat, script: Script, k: nat)
    requires r in w.token && Forward(script, k, w.now)
    ensures TokenReaches(cfg, w, r, TokenSolo(cfg, w.db, w.token[r], script, k))
    decreases TokenRank(w.token[r])
  {
    var result := TokenSolo(cfg, w.db, w.token[r], script, k);
    if w.token[r].TDone? {
      assert TokenAfter(cfg, w, r, [], result);
    } else {
      var two := TokenSoloStep(cfg, w, r, script, k);
      var u := Run(cfg, w, two);
      TokenSoloIsRun(cfg, u, r, script, k + 1);
      TokenReachesFrom(cfg, w, two, r, result);
    }
  }

  lemma TokenSoloNext(cfg: Config, db: Db, s: TokenState, script: Script, k: nat)
    requires !s.TDone?
    ensures var (db', s') := TokenStep(cfg, db, script(k).now, script(k).fault, s);
            TokenSolo(cfg, db, s, script, k) == TokenSolo(cfg, db', s', script, k + 1)
  {
  }

  ghost predicate AuthorizeReaches(cfg: Config, w: World, r: nat, result: (Db, AuthorizeState)) {
    exists actions: seq<Action> :: AuthorizeAfter(cfg, w, r, actions, result)
  }

  ghost predicate AuthorizeAfter(cfg: Config, w: World, r: nat, actions: seq<Action>, result: (Db, AuthorizeState)) {
    var w' := Run(cfg, w, actions);
    r in w'.authorize && (w'.db, w'.authorize[r]) == result
  }

  lemma AuthorizeReachesFrom(cfg: Config, w: World, first: seq<Action>, r: nat, result: (Db, AuthorizeState))
    requires AuthorizeReaches(cfg, Run(cfg, w, first), r, result)
    ensures AuthorizeReaches(cfg, w, r, result)
  {
    var rest :| AuthorizeAfter(cfg, Run(cfg, w, first), r, rest, result);
    RunConcat(cfg, w, first, rest);
    assert AuthorizeAfter(cfg, w, r, first + rest, result);
  }

  lemma AuthorizeStepIsRun(cfg: Config, w: World, r: nat, m: Moment)
    requires r in w.authorize && w.now <= m.now
    ensures var u := Run(cfg, w, [Tick(m.now - w.now), StepAuthorize(r, m.fault)]);
            u.now == m.now && r in u.authorize
            && (u.db, u.authorize[r]) == AuthorizeStep(cfg, w.db, m.now, m.fault, w.authorize[r])
  {
    var tick, step := Tick(m.now - w.now), StepAuthorize(r, m.fault);
    RunTwo(cfg, w, tick, step);
    var v := Exec(cfg, w, tick);
    assert v.db == w.db && v.authorize == w.authorize && v.now == m.now;
  }

  lemma AuthorizeSoloStep(cfg: Config, w: World, r: nat, script: Script, k: nat) returns (two: seq<Action>)
    requires r in w.authorize && !w.authorize[r].ADone? && w.now <= script(k).now
    ensures var u := Run(cfg, w, two);
            u.now == script(k).now && r in u.authorize && AuthorizeRank(u.authorize[r]) < AuthorizeRank(w.authorize[r])
            && AuthorizeSolo(cfg, u.db, u.authorize[r], script, k + 1) == AuthorizeSolo(cfg, w.db, w.authorize[r], script, k)
  {
    two := [Tick(script(k).now - w.now), StepAuthorize(r, script(k).fault)];
    AuthorizeStepIsRun(cfg, w, r, script(k));
    AuthorizeRankDrops(cfg, w.db, script(k), w.authorize[r]);
    AuthorizeSoloNext(cfg, w.db, w.authorize[r], script, k);
  }

  /** The same for an uninterrupted authorization request. */
  lemma {:induction false} AuthorizeSoloIsRun(cfg: Config, w: World, r: nat, script: Script, k: nat)
    requires r in w.authorize && Forward(script, k, w.now)
    ensures AuthorizeReaches(cfg, w, r, AuthorizeSolo(cfg, w.db, w.authorize[r], script, k))
    decreases AuthorizeRank(w.authorize[r])
  {
    var result := AuthorizeSolo(cfg, w.db, w.authorize[r], script, k);
    if w.authorize[r].ADone? {
      assert AuthorizeAfter(cfg, w, r, [], result);
    } else {
      var two := AuthorizeSoloStep(cfg, w, r, script, k);
      var u := Run(cfg, w, two);
      AuthorizeSoloIsRun(cfg, u, r, script, k + 1);
      AuthorizeReachesFrom(cfg, w, two, r, result);
    }
  }

  lemma AuthorizeSoloNext(cfg: Config, db: Db, s: AuthorizeState, script: Script, k: nat)
    requires !s.ADone?
    ensures var (db', s') := AuthorizeStep(cfg, db, script(k).now, script(k).fault, s);
            AuthorizeSolo(cfg, db, s, script, k) == AuthorizeSolo(cfg, db', s', script, k + 1)
  {
  }

  // The server

  lemma HandlerStep(cfg: Config, db: Db, m: Moment, input: AuthorizeInput, signIn: Option<SignIn>)
    ensures AuthorizeStep(cfg, db, m.now, m.fault, AHandler(input, signIn)) == (db, LookUpClient(cfg, db, m.fault, input, signIn))
  {
  }

  class App {
    const cfg: Config
    var registry: Registration.Registry
    var users: seq<User>
    var sessions: Sessions.Store
    var codes: seq<Code>
    ghost var history: seq<Sessions.Event>
    ghost var appTables: seq<seq<Application>>

    ghost function Tables(): Db
      reads this
    {
      Db(registry, users, sessions, codes, history, appTables)
    }

    constructor (cfg: Config)
      ensures this.cfg == cfg && Tables() == EMPTY_DB
    {
      this.cfg := cfg;
      registry, users, sessions, codes := Registration.Registry([], []), [], Sessions.EMPTY, [];
      history, appTables := [], [[]];
    }

    // Repository statements

    method CreateCode(code: Code) returns (created: bool)
      modifies this`codes
      ensures created <==> FindCode(old(codes), code.codeHash) == None
      ensures codes == if created then old(codes) + [code] else old(codes)
    {
      created := FindCode(codes, code.codeHash) == None;
      if created {
        codes := codes + [code];
      }
    }

    method Consume(id: nat, asOf: int, stamp: int) returns (consumed: bool)
      modifies this`codes
      ensures consumed <==> Consumable(old(codes), id, asOf)
      ensures codes == ConsumeRow(old(codes), id, asOf, stamp)
    {
      consumed := id < |codes| && codes[id].consumedAt == None && codes[id].expiresAt > asOf;
      if consumed {
        codes := codes[id := codes[id].(consumedAt := Some(stamp))];
      }
    }

    // Token endpoint

    method TokenHandler(input: TokenInput, script: Script) returns (outcome: TokenOutcome)
      modifies this`codes
      ensures var (db, s) := TokenSolo(cfg, old(Tables()), TStart(input), script, 0);
              Tables() == db && s.TDone? && s.outcome == outcome
    {
      ghost var db, start := Tables(), TStart(input);
      if input.contentType != "" && !Text.HasPrefix(input.contentType, "application/x-www-form-urlencoded") {
        return Rejected(400, Oauth.InvalidRequest);
      }
      if !input.formParses {
        return Rejected(400, Oauth.InvalidRequest);
      }
      if input.grantType == "" {
        return Rejected(400, Oauth.InvalidRequest);
      }
      if input.grantType != "authorization_code" {
        return Rejected(400, Oauth.UnsupportedGrantType);
      }
      var clientId := input.clientId;
      if clientId == "" && input.basic.Some? {
        clientId := input.basic.value.clientId;
      }
      if input.code == "" || input.redirectURI == "" || input.codeVerifier == "" || clientId == "" {
        return Rejected(400, Oauth.InvalidRequest);
      }

      if script(0).fault {
        return Rejected(500, Oauth.ServerError);
      }
      var found := Registration.FindClient(registry.clients, clientId);
      if found == None {
        return Rejected(401, Oauth.InvalidClient);
      }
      var client := registry.clients[found.value];
      if !Authenticated(cfg, input, client) {
        return Rejected(401, Oauth.InvalidClient);
      }
      ghost var s1 := TClientRead(input, found.value, client);
      assert TokenSolo(cfg, db, start, script, 0) == TokenSolo(cfg, db, s1, script, 1);

      outcome := ExchangeCode(input, found.value, client, script);
    }

    /** The handler from the lookup of the code on. */
    method ExchangeCode(input: TokenInput, clientRow: nat, client: Client, script: Script)
      returns (outcome: TokenOutcome)
      modifies this`codes
      ensures var (db, s) := TokenSolo(cfg, old(Tables()), TClientRead(input, clientRow, client), script, 1);
              Tables() == db && s.TDone? && s.outcome == outcome
    {
      ghost var db, s1 := Tables(), TClientRead(input, clientRow, client);
      if script(1).fault {
        return Rejected(500, Oauth.ServerError);
      }
      var id := FindCode(codes, cfg.sha(input.code));
      if id == None {
        return Rejected(400, Oauth.InvalidGrant);
      }
      var stored := codes[id.value];
      if stored.clientRow != clientRow {
        return Rejected(400, Oauth.InvalidGrant);
      }
      if stored.consumedAt.Some? {
        return Rejected(400, Oauth.InvalidGrant);
      }
      ghost var loaded := Loaded(clientRow, client, id.value, stored);
      assert TokenSolo(cfg, db, s1, script, 1) == TokenSolo(cfg, db, TCodeRead(input, loaded), script, 2);
      TokenSoloNext(cfg, db, TCodeRead(input, loaded), script, 2);
      if script(2).now > stored.expiresAt {
        return Rejected(400, Oauth.InvalidGrant);
      }

      var asOf, stamp := script(3).now, script(4).now;
      ghost var s4, s5 := TTimed(input, loaded, asOf), TSending(input, loaded, asOf, stamp);
      assert TokenSolo(cfg, db, TFresh(input, loaded), script, 3) == TokenSolo(cfg, db, s4, script, 4);
      assert TokenSolo(cfg, db, s4, script, 4) == TokenSolo(cfg, db, s5, script, 5);
      ghost var use := Use(loaded, asOf, stamp);
      TokenSoloNext(cfg, db, s5, script, 5);
      if script(5).fault {
        return Rejected(400, Oauth.InvalidGrant);
      }
      var consumed := Consume(id.value, asOf, stamp);
      if !consumed {
        return Rejected(400, Oauth.InvalidGrant);
      }
      assert TokenSolo(cfg, db, s5, script, 5) == TokenSolo(cfg, Tables(), AfterConsume(cfg, input, use), script, 6);

      outcome := Respond(input, Loaded(clientRow, client, id.value, stored), asOf, stamp, script);
    }

    /** The parameters of an ID token, then its claims. */
    method BuildClaims(loaded: Loaded, user: User, now: int) returns (claims: Claims)
      ensures claims == IssueClaims(cfg, now, loaded, user)
    {
      var stored := loaded.code;
      var nonce := "";
      if stored.nonce.Some? {
        nonce := stored.nonce.value;
      }
      var email := "";
      if "email" in Text.Fields(stored.scope) {
        email := user.email;
      }
      claims := Claims(cfg.issuer, user.subject, loaded.clientRow.clientId,
                       Unix(now + TokenLifetime(cfg.idTokenTtl)), Unix(now), Unix(stored.createdAt), nonce, email);
    }

    /** The checks after consumption, and the response. */
    method Respond(input: TokenInput, loaded: Loaded, ghost asOf: int, ghost stamp: int, script: Script)
      returns (outcome: TokenOutcome)
      ensures var (db, s) := TokenSolo(cfg, Tables(), AfterConsume(cfg, input, Use(loaded, asOf, stamp)), script, 6);
              Tables() == db && s.TDone? && s.outcome == outcome
    {
      var stored := loaded.code;
      ghost var use := Use(loaded, asOf, stamp);
      if stored.redirectURI != input.redirectURI {
        return Rejected(400, Oauth.InvalidGrant);
      }
      if !Oauth.VerifyPKCE(cfg.sha, stored.codeChallenge, input.codeVerifier, stored.codeChallengeMethod) {
        return Rejected(400, Oauth.InvalidGrant);
      }
      if input.random == None {
        return Rejected(500, Oauth.ServerError);
      }
      var accessToken := Oauth.FromRandom(input.random.value);
      var response := TokenResponse(accessToken, ExpiresIn(cfg), None);
      if "openid" in Text.Fields(stored.scope) {
        if script(6).fault || stored.userRow >= |users| {
          return Rejected(500, Oauth.ServerError);
        }
        var user := users[stored.userRow];
        ghost var s7 := TIdentified(input, use, accessToken, user);
        assert TokenSolo(cfg, Tables(), TVerified(input, use, accessToken), script, 6) == TokenSolo(cfg, Tables(), s7, script, 7);
        TokenSoloNext(cfg, Tables(), s7, script, 7);
        if script(7).fault {
          return Rejected(500, Oauth.ServerError);
        }
        var claims := BuildClaims(loaded, user, script(7).now);
        response := response.(idToken := Some(claims));
      }
      return Granted(response);
    }

    // Authorization endpoint

    /** The session middleware: the cookie's user, or nobody. `used` counts the steps taken. */
    method Middleware(input: AuthorizeInput, script: Script)
      returns (user: Option<nat>, ghost signIn: Option<SignIn>, used: nat)
      ensures AuthorizeSolo(cfg, Tables(), AStart(input), script, 0)
              == AuthorizeSolo(cfg, Tables(), AHandler(input, signIn), script, used)
      ensures user == if signIn.Some? then Some(signIn.value.session.owner) else None
    {
      ghost var db := Tables();
      user, signIn := None, None;
      if input.cookie == None || script(0).fault {
        return None, None, 1;
      }
      var token := input.cookie.value;
      var hash := cfg.sha(token);
      if hash !in sessions.rows || sessions.rows[hash].revokedAt.Some? {
        return None, None, 1;
      }
      var session := sessions.rows[hash];
      ghost var s1 := ASessionRead(input, token, session, |history|);
      assert AuthorizeSolo(cfg, db, AStart(input), script, 0) == AuthorizeSolo(cfg, db, s1, script, 1);
      if script(1).now > session.expiresAt {
        return None, None, 2;
      }
      ghost var checked := SignIn(token, session, |history|, script(1).now);
      assert AuthorizeSolo(cfg, db, s1, script, 1) == AuthorizeSolo(cfg, db, ASessionChecked(input, checked), script, 2);
      if script(2).fault || session.owner >= |users| {
        return None, None, 3;
      }
      return Some(session.owner), Some(checked), 3;
    }

    method RedirectAuthorizeError(input: AuthorizeInput, error: Oauth.ErrorCode) returns (outcome: AuthorizeOutcome)
      ensures RedirectOrPage(cfg, input, error) == ADone(input, outcome, None)
    {
      if cfg.parse(input.req.redirectURI) == None {
        return Page(400, error);
      }
      return RedirectError(input.req.redirectURI, error, input.req.state);
    }

    method AuthorizeHandler(input: AuthorizeInput, script: Script) returns (outcome: AuthorizeOutcome)
      modifies this`codes
      ensures var (db, s) := AuthorizeSolo(cfg, old(Tables()), AStart(input), script, 0);
              Tables() == db && s.ADone? && s.outcome == outcome
    {
      var user, signIn, used := Middleware(input, script);
      outcome := HandleAuthorize(input, user, signIn, script, used);
    }

    /** The handler behind the middleware. */
    method HandleAuthorize(input: AuthorizeInput, user: Option<nat>, ghost signIn: Option<SignIn>, script: Script, k: nat)
      returns (outcome: AuthorizeOutcome)
      requires user == if signIn.Some? then Some(signIn.value.session.owner) else None
      modifies this`codes
      ensures var (db, s) := AuthorizeSolo(cfg, old(Tables()), AHandler(input, signIn), script, k);
              Tables() == db && s.ADone? && s.outcome == outcome
    {
      var req := input.req;
      ghost var db, s0 := Tables(), AHandler(input, signIn);
      AuthorizeSoloNext(cfg, db, s0, script, k);
      HandlerStep(cfg, db, script(k), input, signIn);
      if req.clientId == "" {
        return Page(400, Oauth.InvalidRequest);
      }
      if req.redirectURI == "" {
        return Page(400, Oauth.InvalidRequest);
      }
      if script(k).fault {
        return Page(500, Oauth.ServerError);
      }
      var found := Registration.FindClient(registry.clients, req.clientId);
      if found == None {
        return Page(400, Oauth.InvalidClient);
      }
      var client := registry.clients[found.value];
      if !Oauth.IsRedirectURIAllowed(client, req.redirectURI) {
        return Page(400, Oauth.InvalidRequest);
      }
      var invalid := req.Validate();
      if invalid.Some? {
        outcome := RedirectAuthorizeError(input, invalid.value);
        return;
      }
      outcome := PromptOrIssue(input, found.value, client, user, signIn, script, k + 1);
    }

    /** The handler from the lookup of the application on. */
    method PromptOrIssue(input: AuthorizeInput, clientRow: nat, client: Client, user: Option<nat>,
                         ghost signIn: Option<SignIn>, script: Script, k: nat)
      returns (outcome: AuthorizeOutcome)
      requires user == if signIn.Some? then Some(signIn.value.session.owner) else None
      modifies this`codes
      ensures var (db, s) := AuthorizeSolo(cfg, old(Tables()), AClientRead(input, signIn, clientRow, client), script, k);
              Tables() == db && s.ADone? && s.outcome == outcome
    {
      ghost var db, s1 := Tables(), AClientRead(input, signIn, clientRow, client);
      if script(k).fault || client.applicationId >= |registry.apps| {
        outcome := RedirectAuthorizeError(input, Oauth.ServerError);
        return;
      }
      var app := registry.apps[client.applicationId];
      if !Oauth.ValidateRequestedScopes(app, input.req.scope) {
        outcome := RedirectAuthorizeError(input, Oauth.InvalidScope);
        return;
      }
      if user == None {
        var admitted := Admitted(clientRow, client, app);
        assert AuthorizeSolo(cfg, db, s1, script, k) == AuthorizeSolo(cfg, db, APrompt(input, admitted), script, k + 1);
        AuthorizeSoloNext(cfg, db, APrompt(input, admitted), script, k + 1);
        if script(k + 1).fault {
          return Page(500, Oauth.ServerError);
        }
        return Prompt(admitted);
      }
      if input.random == None {
        outcome := RedirectAuthorizeError(input, Oauth.ServerError);
        return;
      }
      var rawCode := Oauth.FromRandom(input.random.value);
      ghost var g := Grant(input, signIn.value, clientRow, client, app, rawCode);
      assert AuthorizeSolo(cfg, db, s1, script, k) == AuthorizeSolo(cfg, db, AReady(g), script, k + 1);
      outcome := IssueCode(input, clientRow, user.value, rawCode, g, script, k + 1);
    }

    /** Stores a code bound to the request and redirects with it. */
    method IssueCode(input: AuthorizeInput, clientRow: nat, user: nat, rawCode: string, ghost g: Grant,
                     script: Script, k: nat)
      returns (outcome: AuthorizeOutcome)
      requires g.input == input && g.client == clientRow && g.signIn.session.owner == user && g.rawCode == rawCode
      modifies this`codes
      ensures var (db, s) := AuthorizeSolo(cfg, old(Tables()), AReady(g), script, k);
              Tables() == db && s.ADone? && s.outcome == outcome
    {
      var req := input.req;
      ghost var db := Tables();
      var expiresAt := script(k).now + Oauth.AUTHORIZATION_CODE_TTL;
      assert AuthorizeSolo(cfg, db, AReady(g), script, k) == AuthorizeSolo(cfg, db, AInsert(g, expiresAt), script, k + 1);
      AuthorizeSoloNext(cfg, db, AInsert(g, expiresAt), script, k + 1);
      if script(k + 1).fault {
        outcome := RedirectAuthorizeError(input, Oauth.ServerError);
        return;
      }
      var nonce := None;
      if req.nonce != "" {
        nonce := Some(req.nonce);
      }
      var created := CreateCode(Code(cfg.sha(rawCode), clientRow, user, req.redirectURI, req.scope, nonce,
                                     req.codeChallenge, req.codeChallengeMethod, expiresAt, script(k + 1).now, None));
      if !created {
        outcome := RedirectAuthorizeError(input, Oauth.ServerError);
        return;
      }
      if cfg.parse(req.redirectURI) == None {
        return Page(400, Oauth.InvalidRequest);
      }
      return RedirectCode(req.redirectURI, rawCode, req.state);
    }
  }
}
