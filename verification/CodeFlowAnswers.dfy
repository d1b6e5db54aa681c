/**
  What the two endpoints answer to a request that nothing interrupts and whose
  statements do not fail: exactly when it succeeds, with what, and how it is
  refused otherwise.
*/
module CodeFlowAnswers {
  import opened Prelude
  import opened Models
  import opened CodeFlow
  import opened CodeFlowResults
  import opened CodeHandlers
  import Base64
  import Oauth
  import Registration
  import Sessions
  import Text

  ghost predicate NoFaults(script: Script) {
    forall k :: !script(k).fault
  }

  // The tables

  predicate CodeOk(db: Db, code: Code) {
    code.codeChallengeMethod == "S256" && code.userRow < |db.users|
  }

  /** Well-formed clients and applications, unique hashes, and codes for S256 and for users there are. */
  ghost predicate TablesOk(cfg: Config, db: Db) {
    && Registration.Wellformed(cfg.parse, db.registry)
    && (forall i, j :: 0 <= i < j < |db.codes| ==> db.codes[i].codeHash != db.codes[j].codeHash)
    && (forall code <- db.codes :: CodeOk(db, code))
  }

  lemma ReachedTables(cfg: Config, start: int, actions: seq<Action>)
    ensures TablesOk(cfg, Reached(cfg, start, actions).db)
  {
    ReachedInv(cfg, start, actions);
    var db := Reached(cfg, start, actions).db;
    forall code <- db.codes ensures CodeOk(db, code) {
      var c: nat :| c < |db.codes| && db.codes[c] == code;
      StoredCodesAreProper(cfg, start, actions, c);
      StoredAsAsked(cfg, start, actions, c);
    }
  }

  lemma ClientFound(cfg: Config, db: Db, c: nat)
    requires TablesOk(cfg, db) && c < |db.registry.clients|
    ensures Registration.FindClient(db.registry.clients, db.registry.clients[c].clientId) == Some(c)
    ensures Registration.ClientOk(cfg.parse, db.registry, db.registry.clients[c])
  {
  }

  lemma CodeFound(cfg: Config, db: Db, id: nat)
    requires TablesOk(cfg, db) && id < |db.codes|
    ensures FindCode(db.codes, db.codes[id].codeHash) == Some(id) && CodeOk(db, db.codes[id])
  {
  }

  // Token requests

  /** A form that parses; a request without a content type counts. */
  predicate IsForm(input: TokenInput) {
    (input.contentType == "" || Text.HasPrefix(input.contentType, "application/x-www-form-urlencoded")) && input.formParses
  }

  /** Code, redirect URI and verifier, and a client id in the form or in the header. */
  predicate IsComplete(input: TokenInput) {
    && input.code != "" && input.redirectURI != "" && input.codeVerifier != ""
    && (input.clientId != "" || (input.basic.Some? && input.basic.value.clientId != ""))
  }

  /** A complete request of client c, with its credentials. */
  predicate Asks(cfg: Config, db: Db, input: TokenInput, c: nat) {
    && IsForm(input) && input.grantType == "authorization_code" && IsComplete(input)
    && c < |db.registry.clients| && Presents(input, db.registry.clients[c].clientId)
    && HasCredentials(cfg.sha, input, db.registry.clients[c])
  }

  /** It presents the code at id, its own client's, not yet consumed, and before its expiry by both checks. */
  predicate Takes(cfg: Config, db: Db, input: TokenInput, script: Script, c: nat, id: nat) {
    && Asks(cfg, db, input, c) && id < |db.codes|
    && var code := db.codes[id];
       && code.codeHash == cfg.sha(input.code) && code.clientRow == c && code.consumedAt == None
       && script(2).now <= code.expiresAt && script(3).now < code.expiresAt
  }

  /** The redirect URI of the code, and the verifier of its challenge. */
  predicate Proves(cfg: Config, input: TokenInput, code: Code) {
    && code.redirectURI == input.redirectURI
    && 43 <= Text.ByteLen(input.codeVerifier) <= 128
    && code.codeChallenge == Base64.Encode(Base64.Url, cfg.sha(input.codeVerifier))
  }

  lemma AskingAuthenticates(cfg: Config, db: Db, input: TokenInput, c: nat)
    requires TablesOk(cfg, db) && Asks(cfg, db, input, c)
    ensures AuthenticateClient(cfg, db, false, input) == TClientRead(input, c, db.registry.clients[c])
  {
    ClientFound(cfg, db, c);
    AuthenticatedExactly(cfg, input, db.registry.clients[c]);
  }

  /** How a request is refused that does not ask as one of the clients. */
  predicate IsRefusal(input: TokenInput, status: nat, error: Oauth.ErrorCode) {
    if !IsForm(input) || input.grantType == "" then status == 400 && error == Oauth.InvalidRequest
    else if input.grantType != "authorization_code" then status == 400 && error == Oauth.UnsupportedGrantType
    else if !IsComplete(input) then status == 400 && error == Oauth.InvalidRequest
    else status == 401 && error == Oauth.InvalidClient
  }

  lemma OthersAreTurnedAway(cfg: Config, db: Db, input: TokenInput)
    requires TablesOk(cfg, db) && forall c: nat :: !Asks(cfg, db, input, c)
    ensures var s := AuthenticateClient(cfg, db, false, input);
            s.TDone? && s.outcome.Rejected? && s.spent == None && IsRefusal(input, s.outcome.status, s.outcome.error)
  {
    var found := Registration.FindClient(db.registry.clients, PresentedClientId(input));
    if IsForm(input) && IsComplete(input) && found.Some? {
      ClientFound(cfg, db, found.value);
      AuthenticatedExactly(cfg, input, db.registry.clients[found.value]);
      assert !Asks(cfg, db, input, found.value);
    }
  }

  function LoadedAt(db: Db, c: nat, id: nat): Loaded
    requires c < |db.registry.clients| && id < |db.codes|
  {
    Loaded(c, db.registry.clients[c], id, db.codes[id])
  }

  /** The tables once the code at id is consumed, at this reading. */
  function Taken(db: Db, id: nat, stamp: int): Db
    requires id < |db.codes|
  {
    db.(codes := db.codes[id := db.codes[id].(consumedAt := Some(stamp))])
  }

  lemma FirstStep(cfg: Config, db: Db, input: TokenInput, script: Script)
    requires NoFaults(script)
    ensures TokenSolo(cfg, db, TStart(input), script, 0)
            == TokenSolo(cfg, db, AuthenticateClient(cfg, db, false, input), script, 1)
  {
    TokenSoloNext(cfg, db, TStart(input), script, 0);
  }

  lemma SecondStep(cfg: Config, db: Db, input: TokenInput, c: nat, row: Client, script: Script)
    requires NoFaults(script)
    ensures TokenSolo(cfg, db, TClientRead(input, c, row), script, 1)
            == TokenSolo(cfg, db, LoadCode(cfg, db, false, input, c, row), script, 2)
  {
    TokenSoloNext(cfg, db, TClientRead(input, c, row), script, 1);
  }

  /** The freshness check and the two readings. */
  lemma ClockSteps(cfg: Config, db: Db, input: TokenInput, l: Loaded, script: Script)
    requires script(2).now <= l.code.expiresAt
    ensures TokenSolo(cfg, db, TCodeRead(input, l), script, 2)
            == TokenSolo(cfg, db, TSending(input, l, script(3).now, script(4).now), script, 5)
  {
    TokenSoloNext(cfg, db, TCodeRead(input, l), script, 2);
    TokenSoloNext(cfg, db, TFresh(input, l), script, 3);
    TokenSoloNext(cfg, db, TTimed(input, l, script(3).now), script, 4);
  }

  lemma ConsumeStep(cfg: Config, db: Db, input: TokenInput, l: Loaded, asOf: int, stamp: int, script: Script)
    requires NoFaults(script)
    ensures var (db', s') := CodeFlow.Consume(cfg, db, false, input, Use(l, asOf, stamp));
            TokenSolo(cfg, db, TSending(input, l, asOf, stamp), script, 5) == TokenSolo(cfg, db', s', script, 6)
  {
    TokenSoloNext(cfg, db, TSending(input, l, asOf, stamp), script, 5);
  }

  /** The way of a request that takes its code. */
  lemma TakesItsCode(cfg: Config, db: Db, input: TokenInput, script: Script, c: nat, id: nat)
    requires TablesOk(cfg, db) && NoFaults(script) && Takes(cfg, db, input, script, c, id)
    ensures TokenSolo(cfg, db, TStart(input), script, 0)
            == TokenSolo(cfg, Taken(db, id, script(4).now),
                         AfterConsume(cfg, input, Use(LoadedAt(db, c, id), script(3).now, script(4).now)), script, 6)
  {
    var l := LoadedAt(db, c, id);
    FirstStep(cfg, db, input, script);
    AskingAuthenticates(cfg, db, input, c);
    SecondStep(cfg, db, input, c, db.registry.clients[c], script);
    CodeFound(cfg, db, id);
    assert LoadCode(cfg, db, false, input, c, db.registry.clients[c]) == TCodeRead(input, l);
    ClockSteps(cfg, db, input, l, script);
    ConsumeStep(cfg, db, input, l, script(3).now, script(4).now, script);
  }

  lemma DoneIsDone(cfg: Config, db: Db, s: TokenState, script: Script, k: nat)
    requires s.TDone?
    ensures TokenSolo(cfg, db, s, script, k) == (db, s)
  {
  }

  /** A client that presents no code it may take is refused, and the tables stay. */
  lemma TakesNothing(cfg: Config, db: Db, input: TokenInput, script: Script, c: nat)
    requires TablesOk(cfg, db) && NoFaults(script) && Asks(cfg, db, input, c)
    requires forall id: nat :: !Takes(cfg, db, input, script, c, id)
    ensures TokenSolo(cfg, db, TStart(input), script, 0) == (db, Reject(input, 400, Oauth.InvalidGrant))
  {
    FirstStep(cfg, db, input, script);
    AskingAuthenticates(cfg, db, input, c);
    SecondStep(cfg, db, input, c, db.registry.clients[c], script);
    var s := LoadCode(cfg, db, false, input, c, db.registry.clients[c]);
    if s.TDone? {
      DoneIsDone(cfg, db, s, script, 2);
    } else {
      assert !Takes(cfg, db, input, script, c, s.loaded.id);
      ComesTooLate(cfg, db, input, s.loaded, script);
    }
  }

  lemma ComesTooLate(cfg: Config, db: Db, input: TokenInput, l: Loaded, script: Script)
    requires NoFaults(script) && l.id < |db.codes| && db.codes[l.id] == l.code
    requires !(script(2).now <= l.code.expiresAt && script(3).now < l.code.expiresAt)
    ensures TokenSolo(cfg, db, TCodeRead(input, l), script, 2) == (db, Reject(input, 400, Oauth.InvalidGrant))
  {
    if script(2).now <= l.code.expiresAt {
      ClockSteps(cfg, db, input, l, script);
      ConsumeStep(cfg, db, input, l, script(3).now, script(4).now, script);
    } else {
      TokenSoloNext(cfg, db, TCodeRead(input, l), script, 2);
    }
  }

  // The answer

  /** Ten minutes unless a positive lifetime is configured. */
  function Lifetime(cfg: Config): int {
    if cfg.idTokenTtl > 0 then cfg.idTokenTtl else 600 * SECOND
  }

  /** The claims about this user, in whole seconds of the epoch. */
  predicate IsClaims(cfg: Config, claims: Claims, user: User, clientId: string, code: Code, now: int) {
    && claims.iss == cfg.issuer && claims.sub == user.subject && claims.aud == clientId
    && claims.iat == now / 1_000_000_000 && claims.exp == (now + Lifetime(cfg)) / 1_000_000_000
    && claims.authTime == code.createdAt / 1_000_000_000
    && claims.nonce == (if code.nonce.Some? then code.nonce.value else "")
    && claims.email == (if "email" in Text.Fields(code.scope) then user.email else "")
  }

  /** A new access token, and an ID token exactly when `openid` was granted. */
  predicate IsResponse(cfg: Config, db: Db, input: TokenInput, l: Loaded, now: int, response: TokenResponse) {
    && input.random.Some? && response.accessToken == Base64.Encode(Base64.Url, input.random.value)
    && response.expiresIn == Lifetime(cfg) / 1_000_000_000
    && (response.idToken.Some? <==> "openid" in Text.Fields(l.code.scope))
    && (response.idToken.Some? ==>
          && l.code.userRow < |db.users|
          && IsClaims(cfg, response.idToken.value, db.users[l.code.userRow], l.clientRow.clientId, l.code, now))
  }

  lemma Responds(cfg: Config, db: Db, input: TokenInput, use: Use, script: Script)
    requires NoFaults(script) && Proves(cfg, input, use.loaded.code) && input.random.Some?
    requires CodeOk(db, use.loaded.code)
    ensures var (db', s) := TokenSolo(cfg, db, AfterConsume(cfg, input, use), script, 6);
            && db' == db && s.TDone? && s.outcome.Granted?
            && IsResponse(cfg, db, input, use.loaded, script(7).now, s.outcome.response)
  {
    var code := use.loaded.code;
    Oauth.VerifyPKCEExact(cfg.sha, code.codeChallenge, input.codeVerifier);
    if "openid" in Text.Fields(code.scope) {
      var accessToken := Oauth.FromRandom(input.random.value);
      TokenSoloNext(cfg, db, TVerified(input, use, accessToken), script, 6);
      TokenSoloNext(cfg, db, TIdentified(input, use, accessToken, db.users[code.userRow]), script, 7);
    }
  }

  lemma RespondsWithAnError(cfg: Config, db: Db, input: TokenInput, use: Use, script: Script)
    requires CodeOk(db, use.loaded.code) && !(Proves(cfg, input, use.loaded.code) && input.random.Some?)
    ensures var (db', s) := TokenSolo(cfg, db, AfterConsume(cfg, input, use), script, 6);
            && db' == db && s.TDone?
            && s.outcome == if Proves(cfg, input, use.loaded.code) then Rejected(500, Oauth.ServerError)
                            else Rejected(400, Oauth.InvalidGrant)
  {
    Oauth.VerifyPKCEExact(cfg.sha, use.loaded.code.codeChallenge, input.codeVerifier);
    DoneIsDone(cfg, db, AfterConsume(cfg, input, use), script, 6);
  }

  /** It takes its code, proves itself for it, and the random source works. */
  predicate Redeems(cfg: Config, db: Db, input: TokenInput, script: Script, c: nat, id: nat) {
    Takes(cfg, db, input, script, c, id) && Proves(cfg, input, db.codes[id]) && input.random.Some?
  }

  /** The right client with the right code and verifier gets its tokens, and the code is consumed. */
  lemma RightRequestsAreGranted(cfg: Config, start: int, actions: seq<Action>, input: TokenInput, script: Script, c: nat, id: nat)
    requires NoFaults(script) && Redeems(cfg, Reached(cfg, start, actions).db, input, script, c, id)
    ensures var db := Reached(cfg, start, actions).db;
            var (db', s) := TokenSolo(cfg, db, TStart(input), script, 0);
            && db' == db.(codes := db.codes[id := db.codes[id].(consumedAt := Some(script(4).now))])
            && s.TDone? && s.outcome.Granted?
            && IsResponse(cfg, db, input, LoadedAt(db, c, id), script(7).now, s.outcome.response)
  {
    ReachedTables(cfg, start, actions);
    RedeemsExchanges(cfg, Reached(cfg, start, actions).db, input, script, c, id);
  }

  lemma RedeemsExchanges(cfg: Config, db: Db, input: TokenInput, script: Script, c: nat, id: nat)
    requires TablesOk(cfg, db) && NoFaults(script) && Redeems(cfg, db, input, script, c, id)
    ensures var (db', s) := TokenSolo(cfg, db, TStart(input), script, 0);
            && db' == Taken(db, id, script(4).now) && s.TDone? && s.outcome.Granted?
            && IsResponse(cfg, db, input, LoadedAt(db, c, id), script(7).now, s.outcome.response)
  {
    TakesItsCode(cfg, db, input, script, c, id);
    CodeFound(cfg, db, id);
    Responds(cfg, Taken(db, id, script(4).now), input, Use(LoadedAt(db, c, id), script(3).now, script(4).now), script);
  }

  /**
    How every other request is refused: by what it sent, as a client that is not
    there or not authenticated, for a code it may not take; or, its code consumed,
    for what it did not prove.
  */
  ghost predicate IsRefused(cfg: Config, db: Db, input: TokenInput, script: Script, result: (Db, TokenState)) {
    && result.1.TDone? && result.1.outcome.Rejected?
    && ((forall c: nat :: !Asks(cfg, db, input, c)) ==>
          result.0 == db && IsRefusal(input, result.1.outcome.status, result.1.outcome.error))
    && ((exists c: nat :: Asks(cfg, db, input, c)) && (forall c: nat, id: nat :: !Takes(cfg, db, input, script, c, id)) ==>
          result.0 == db && result.1.outcome == Rejected(400, Oauth.InvalidGrant))
    && (forall c: nat, id: nat :: Takes(cfg, db, input, script, c, id) ==>
          && result.0 == Taken(db, id, script(4).now)
          && result.1.outcome == if Proves(cfg, input, db.codes[id]) then Rejected(500, Oauth.ServerError)
                                 else Rejected(400, Oauth.InvalidGrant))
  }

  lemma OthersAreRefused(cfg: Config, db: Db, input: TokenInput, script: Script)
    requires TablesOk(cfg, db) && NoFaults(script)
    requires forall c: nat, id: nat :: !Redeems(cfg, db, input, script, c, id)
    ensures IsRefused(cfg, db, input, script, TokenSolo(cfg, db, TStart(input), script, 0))
  {
    if c: nat, id: nat :| Takes(cfg, db, input, script, c, id) {
      OneCodeTaken(cfg, db, input, script, c, id);
      TakesItsCode(cfg, db, input, script, c, id);
      assert !Redeems(cfg, db, input, script, c, id);
      RespondsWithAnError(cfg, Taken(db, id, script(4).now), input, Use(LoadedAt(db, c, id), script(3).now, script(4).now), script);
    } else if c: nat :| Asks(cfg, db, input, c) {
      TakesNothing(cfg, db, input, script, c);
    } else {
      FirstStep(cfg, db, input, script);
      OthersAreTurnedAway(cfg, db, input);
      DoneIsDone(cfg, db, AuthenticateClient(cfg, db, false, input), script, 1);
    }
  }

  lemma OneCodeTaken(cfg: Config, db: Db, input: TokenInput, script: Script, c: nat, id: nat)
    requires TablesOk(cfg, db) && Takes(cfg, db, input, script, c, id)
    ensures CodeOk(db, db.codes[id])
    ensures forall d: nat, other: nat :: Takes(cfg, db, input, script, d, other) ==> d == c && other == id
  {
    CodeFound(cfg, db, id);
  }

  /** A lone request is granted exactly when it redeems a code; the code of another request stays as it is. */
  lemma TokenGrantedExactly(cfg: Config, start: int, actions: seq<Action>, input: TokenInput, script: Script)
    requires NoFaults(script)
    ensures var db := Reached(cfg, start, actions).db;
            var result := TokenSolo(cfg, db, TStart(input), script, 0);
            && result.1.TDone?
            && (result.1.outcome.Granted? <==> exists c: nat, id: nat :: Redeems(cfg, db, input, script, c, id))
            && (result.1.outcome.Rejected? ==> IsRefused(cfg, db, input, script, result))
  {
    var db := Reached(cfg, start, actions).db;
    ReachedTables(cfg, start, actions);
    if c: nat, id: nat :| Redeems(cfg, db, input, script, c, id) {
      RedeemsExchanges(cfg, db, input, script, c, id);
    } else {
      OthersAreRefused(cfg, db, input, script);
    }
  }

  // Authorization requests

  /** Client c with a redirect URI registered for it. */
  predicate Names(db: Db, req: Oauth.AuthorizeRequest, c: nat) {
    && req.clientId != "" && req.redirectURI != ""
    && c < |db.registry.clients| && db.registry.clients[c].clientId == req.clientId
    && req.redirectURI in db.registry.clients[c].redirectURIs
  }

  function AppOf(db: Db, c: nat): Application
    requires c < |db.registry.clients| && db.registry.clients[c].applicationId < |db.registry.apps|
  {
    db.registry.apps[db.registry.clients[c].applicationId]
  }

  predicate HasApp(db: Db, c: nat) {
    c < |db.registry.clients| && db.registry.clients[c].applicationId < |db.registry.apps|
  }

  predicate AllowsScopes(db: Db, req: Oauth.AuthorizeRequest, c: nat)
    requires HasApp(db, c)
  {
    forall scope <- Text.Fields(req.scope) :: scope in AppOf(db, c).allowedScopes
  }

  /** A proper request of client c, for scopes its application allows. */
  predicate MayAsk(db: Db, req: Oauth.AuthorizeRequest, c: nat) {
    Names(db, req, c) && Oauth.IsProper(req) && HasApp(db, c) && AllowsScopes(db, req, c)
  }

  /** The error a named client is redirected with before it is known who signs in. */
  function AskError(req: Oauth.AuthorizeRequest): Oauth.ErrorCode {
    if req.responseType != "code" then Oauth.UnsupportedResponseType
    else if !Oauth.IsProper(req) then Oauth.InvalidRequest
    else Oauth.InvalidScope
  }

  lemma NamedParses(cfg: Config, db: Db, req: Oauth.AuthorizeRequest, c: nat)
    requires TablesOk(cfg, db) && Names(db, req, c)
    ensures Registration.FindClient(db.registry.clients, req.clientId) == Some(c)
    ensures cfg.parse(req.redirectURI).Some? && HasApp(db, c)
  {
    ClientFound(cfg, db, c);
  }

  lemma NamedIsRead(cfg: Config, db: Db, input: AuthorizeInput, signIn: Option<SignIn>, c: nat)
    requires TablesOk(cfg, db) && Names(db, input.req, c)
    ensures LookUpClient(cfg, db, false, input, signIn) ==
            if Oauth.IsProper(input.req) then AClientRead(input, signIn, c, db.registry.clients[c])
            else ADone(input, RedirectError(input.req.redirectURI, AskError(input.req), input.req.state), None)
  {
    NamedParses(cfg, db, input.req, c);
    Oauth.ValidatesExactly(input.req);
  }

  /** Without a known client and a URI of it nobody is redirected. */
  lemma StrangersSeeAPage(cfg: Config, db: Db, input: AuthorizeInput, signIn: Option<SignIn>)
    requires TablesOk(cfg, db) && forall c: nat :: !Names(db, input.req, c)
    ensures var s := LookUpClient(cfg, db, false, input, signIn);
            var isUnknown := input.req.clientId != "" && input.req.redirectURI != ""
                             && forall c <- db.registry.clients :: c.clientId != input.req.clientId;
            s == ADone(input, Page(400, if isUnknown then Oauth.InvalidClient else Oauth.InvalidRequest), None)
  {
    var found := Registration.FindClient(db.registry.clients, input.req.clientId);
    if found.Some? {
      assert db.registry.clients[found.value] in db.registry.clients;
      assert !Names(db, input.req, found.value);
    }
  }

  lemma HandlerStepsOn(cfg: Config, db: Db, input: AuthorizeInput, signIn: Option<SignIn>, script: Script, k: nat)
    requires NoFaults(script)
    ensures AuthorizeSolo(cfg, db, AHandler(input, signIn), script, k)
            == AuthorizeSolo(cfg, db, LookUpClient(cfg, db, false, input, signIn), script, k + 1)
  {
    HandlerStep(cfg, db, script(k), input, signIn);
    AuthorizeSoloNext(cfg, db, AHandler(input, signIn), script, k);
  }

  lemma AppStepsOn(cfg: Config, db: Db, s: AuthorizeState, script: Script, k: nat)
    requires NoFaults(script) && s.AClientRead?
    ensures AuthorizeSolo(cfg, db, s, script, k) == AuthorizeSolo(cfg, db, LookUpApp(cfg, db, false, s), script, k + 1)
  {
    AuthorizeSoloNext(cfg, db, s, script, k);
  }

  lemma EndedStays(cfg: Config, db: Db, s: AuthorizeState, script: Script, k: nat)
    requires s.ADone?
    ensures AuthorizeSolo(cfg, db, s, script, k) == (db, s)
  {
  }

  /** The answer to a request that may not be asked. */
  ghost predicate IsTurnedDown(db: Db, input: AuthorizeInput, outcome: AuthorizeOutcome) {
    var req := input.req;
    if exists c: nat :: Names(db, req, c) then outcome == RedirectError(req.redirectURI, AskError(req), req.state)
    else if req.clientId != "" && req.redirectURI != "" && forall c <- db.registry.clients :: c.clientId != req.clientId
    then outcome == Page(400, Oauth.InvalidClient)
    else outcome == Page(400, Oauth.InvalidRequest)
  }

  lemma OneClientNamed(cfg: Config, db: Db, req: Oauth.AuthorizeRequest, c: nat)
    requires TablesOk(cfg, db) && Names(db, req, c)
    ensures forall d: nat :: Names(db, req, d) ==> d == c
  {
  }

  lemma ScopesRefused(cfg: Config, db: Db, input: AuthorizeInput, signIn: Option<SignIn>, c: nat)
    requires HasApp(db, c) && !AllowsScopes(db, input.req, c) && Oauth.IsProper(input.req)
    requires cfg.parse(input.req.redirectURI).Some?
    ensures LookUpApp(cfg, db, false, AClientRead(input, signIn, c, db.registry.clients[c]))
            == ADone(input, RedirectError(input.req.redirectURI, AskError(input.req), input.req.state), None)
  {
  }

  lemma OthersAreTurnedDown(cfg: Config, db: Db, input: AuthorizeInput, signIn: Option<SignIn>, script: Script, k: nat)
    requires TablesOk(cfg, db) && NoFaults(script) && forall c: nat :: !MayAsk(db, input.req, c)
    ensures var (db', s) := AuthorizeSolo(cfg, db, AHandler(input, signIn), script, k);
            db' == db && s.ADone? && s.issued == None && IsTurnedDown(db, input, s.outcome)
  {
    HandlerStepsOn(cfg, db, input, signIn, script, k);
    var s := LookUpClient(cfg, db, false, input, signIn);
    if c: nat :| Names(db, input.req, c) {
      NamedParses(cfg, db, input.req, c);
      NamedIsRead(cfg, db, input, signIn, c);
      assert !MayAsk(db, input.req, c);
      OneClientNamed(cfg, db, input.req, c);
      if Oauth.IsProper(input.req) {
        AppStepsOn(cfg, db, s, script, k + 1);
        ScopesRefused(cfg, db, input, signIn, c);
        EndedStays(cfg, db, LookUpApp(cfg, db, false, s), script, k + 2);
      } else {
        EndedStays(cfg, db, s, script, k + 1);
      }
    } else {
      StrangersSeeAPage(cfg, db, input, signIn);
      EndedStays(cfg, db, s, script, k + 1);
    }
  }

  /** A request that may be asked gets to its application. */
  lemma AskedReachesApp(cfg: Config, db: Db, input: AuthorizeInput, signIn: Option<SignIn>, script: Script, k: nat, c: nat)
    requires TablesOk(cfg, db) && NoFaults(script) && MayAsk(db, input.req, c)
    ensures AuthorizeSolo(cfg, db, AHandler(input, signIn), script, k)
            == AuthorizeSolo(cfg, db, AfterScopes(cfg, input, signIn, c, db.registry.clients[c], AppOf(db, c)), script, k + 2)
  {
    HandlerStepsOn(cfg, db, input, signIn, script, k);
    NamedParses(cfg, db, input.req, c);
    NamedIsRead(cfg, db, input, signIn, c);
    AppStepsOn(cfg, db, AClientRead(input, signIn, c, db.registry.clients[c]), script, k + 1);
  }

  /** Where a request stands whose scopes are allowed. */
  function AfterScopes(cfg: Config, input: AuthorizeInput, signIn: Option<SignIn>, c: nat, row: Client, app: Application)
    : AuthorizeState
  {
    if signIn == None then APrompt(input, Admitted(c, row, app))
    else if input.random == None then RedirectOrPage(cfg, input, Oauth.ServerError)
    else AReady(Grant(input, signIn.value, c, row, app, Oauth.FromRandom(input.random.value)))
  }

  lemma NobodyIsPrompted(cfg: Config, db: Db, input: AuthorizeInput, script: Script, k: nat, c: nat)
    requires TablesOk(cfg, db) && NoFaults(script) && MayAsk(db, input.req, c)
    ensures AuthorizeSolo(cfg, db, AHandler(input, None), script, k)
            == (db, ADone(input, Prompt(Admitted(c, db.registry.clients[c], AppOf(db, c))), None))
  {
    AskedReachesApp(cfg, db, input, None, script, k, c);
    AuthorizeSoloNext(cfg, db, APrompt(input, Admitted(c, db.registry.clients[c], AppOf(db, c))), script, k + 2);
  }

  /** The row stored for a request of user `owner`, with the two readings of its insertion. */
  predicate IsCodeFor(cfg: Config, code: Code, req: Oauth.AuthorizeRequest, raw: string, c: nat, owner: nat, issuedAt: int,
                      createdAt: int) {
    && code.codeHash == cfg.sha(raw) && code.clientRow == c && code.userRow == owner
    && code.redirectURI == req.redirectURI && code.scope == req.scope
    && code.nonce == (if req.nonce == "" then None else Some(req.nonce))
    && code.codeChallenge == req.codeChallenge && code.codeChallengeMethod == "S256"
    && code.expiresAt == issuedAt + 60 * SECOND && code.createdAt == createdAt && code.consumedAt == None
  }

  /** The random source works and the code is a new one. */
  predicate CanIssue(cfg: Config, db: Db, input: AuthorizeInput) {
    && input.random.Some?
    && forall code <- db.codes :: code.codeHash != cfg.sha(Base64.Encode(Base64.Url, input.random.value))
  }

  /** A code is stored and sent, or, when there is none, the error. */
  predicate IsIssued(cfg: Config, db: Db, input: AuthorizeInput, c: nat, owner: nat, issuedAt: int, createdAt: int,
                     result: (Db, AuthorizeState)) {
    && result.1.ADone?
    && if CanIssue(cfg, db, input) then
         var raw := Base64.Encode(Base64.Url, input.random.value);
         && result.1.outcome == RedirectCode(input.req.redirectURI, raw, input.req.state)
         && |result.0.codes| == |db.codes| + 1 && result.0 == db.(codes := db.codes + [result.0.codes[|db.codes|]])
         && IsCodeFor(cfg, result.0.codes[|db.codes|], input.req, raw, c, owner, issuedAt, createdAt)
       else result.0 == db && result.1.outcome == RedirectError(input.req.redirectURI, Oauth.ServerError, input.req.state)
  }

  lemma SignedInGetsCode(cfg: Config, db: Db, input: AuthorizeInput, signIn: SignIn, script: Script, k: nat, c: nat)
    requires TablesOk(cfg, db) && NoFaults(script) && MayAsk(db, input.req, c)
    ensures IsIssued(cfg, db, input, c, signIn.session.owner, script(k + 2).now, script(k + 3).now,
                     AuthorizeSolo(cfg, db, AHandler(input, Some(signIn)), script, k))
  {
    NamedParses(cfg, db, input.req, c);
    AskedReachesApp(cfg, db, input, Some(signIn), script, k, c);
    if input.random == None {
      EndedStays(cfg, db, RedirectOrPage(cfg, input, Oauth.ServerError), script, k + 2);
    } else {
      var g := Grant(input, signIn, c, db.registry.clients[c], AppOf(db, c), Oauth.FromRandom(input.random.value));
      ReadyGetsCode(cfg, db, g, script, k + 2);
    }
  }

  /** The expiry's reading, then the insertion. */
  lemma ReadyGetsCode(cfg: Config, db: Db, g: Grant, script: Script, k: nat)
    requires NoFaults(script) && cfg.parse(g.input.req.redirectURI).Some? && Oauth.IsProper(g.input.req)
    requires g.input.random.Some? && g.rawCode == Oauth.FromRandom(g.input.random.value)
    ensures IsIssued(cfg, db, g.input, g.client, g.signIn.session.owner, script(k).now, script(k + 1).now,
                     AuthorizeSolo(cfg, db, AReady(g), script, k))
  {
    var expiresAt := script(k).now + Oauth.AUTHORIZATION_CODE_TTL;
    AuthorizeSoloNext(cfg, db, AReady(g), script, k);
    AuthorizeSoloNext(cfg, db, AInsert(g, expiresAt), script, k + 1);
    Inserts(cfg, db, script(k + 1).now, g, expiresAt);
    var (db', s) := InsertCode(cfg, db, script(k + 1).now, false, g, expiresAt);
    EndedStays(cfg, db', s, script, k + 2);
  }

  lemma Inserts(cfg: Config, db: Db, now: int, g: Grant, expiresAt: int)
    requires cfg.parse(g.input.req.redirectURI).Some? && Oauth.IsProper(g.input.req)
    requires g.input.random.Some? && g.rawCode == Oauth.FromRandom(g.input.random.value)
    ensures IsIssued(cfg, db, g.input, g.client, g.signIn.session.owner, expiresAt - 60 * SECOND, now,
                     InsertCode(cfg, db, now, false, g, expiresAt))
  {
    var found := FindCode(db.codes, cfg.sha(g.rawCode));
    if found.Some? {
      assert db.codes[found.value] in db.codes;
    }
  }

  // Who is signed in

  /** The create event at i made a session of the request's cookie that is live at this reading, for a user there is. */
  predicate LiveFor(cfg: Config, db: Db, input: AuthorizeInput, at: int, i: nat) {
    && input.cookie.Some? && Sessions.LiveAt(cfg.sha, db.history, i, input.cookie.value, at)
    && db.history[i].owner < |db.users|
  }

  /** The session table represents its history, whose readings are not after this one. */
  ghost predicate SessionsOk(cfg: Config, db: Db, now: int) {
    Sessions.Represents(cfg.sha, db.sessions, db.history) && Sessions.Until(db.history, now)
  }

  lemma LiveRow(sha: Digest, s: Sessions.Store, h: seq<Sessions.Event>, i: nat, token: string, now: int)
    requires Sessions.Represents(sha, s, h) && Sessions.Until(h, now) && Sessions.LiveAt(sha, h, i, token, now)
    ensures sha(token) in s.rows && Sessions.RowOf(h, i, s.rows[sha(token)])
  {
    assert !Sessions.Dead(h, i);
  }

  lemma MiddlewareFinds(cfg: Config, db: Db, input: AuthorizeInput, script: Script, i: nat) returns (signIn: SignIn)
    requires NoFaults(script) && SessionsOk(cfg, db, script(1).now) && LiveFor(cfg, db, input, script(1).now, i)
    ensures signIn.session.owner == db.history[i].owner
    ensures AuthorizeSolo(cfg, db, AStart(input), script, 0)
            == AuthorizeSolo(cfg, db, AHandler(input, Some(signIn)), script, 3)
  {
    var token := input.cookie.value;
    LiveRow(cfg.sha, db.sessions, db.history, i, token, script(1).now);
    var row := db.sessions.rows[cfg.sha(token)];
    signIn := SignIn(token, row, |db.history|, script(1).now);
    AuthorizeSoloNext(cfg, db, AStart(input), script, 0);
    AuthorizeSoloNext(cfg, db, ASessionRead(input, token, row, |db.history|), script, 1);
    AuthorizeSoloNext(cfg, db, ASessionChecked(input, signIn), script, 2);
  }

  lemma MiddlewareFindsNobody(cfg: Config, db: Db, input: AuthorizeInput, script: Script) returns (used: nat)
    requires NoFaults(script) && SessionsOk(cfg, db, script(1).now)
    requires forall i: nat :: !LiveFor(cfg, db, input, script(1).now, i)
    ensures AuthorizeSolo(cfg, db, AStart(input), script, 0) == AuthorizeSolo(cfg, db, AHandler(input, None), script, used)
  {
    AuthorizeSoloNext(cfg, db, AStart(input), script, 0);
    used := 1;
    var s := AuthorizeStep(cfg, db, script(0).now, false, AStart(input)).1;
    if s.ASessionRead? {
      used := 2;
      AuthorizeSoloNext(cfg, db, s, script, 1);
      if script(1).now <= s.session.expiresAt {
        used := 3;
        OwnerIsGone(cfg, db, input, script(1).now);
        AuthorizeSoloNext(cfg, db, ASessionChecked(input, SignIn(s.cookie, s.session, s.events, script(1).now)), script, 2);
      }
    }
  }

  lemma OwnerIsGone(cfg: Config, db: Db, input: AuthorizeInput, now: int)
    requires SessionsOk(cfg, db, now) && input.cookie.Some? && forall i: nat :: !LiveFor(cfg, db, input, now, i)
    requires Sessions.ValidateToken(cfg.sha, db.sessions, input.cookie.value, now).Ok?
    ensures db.sessions.rows[cfg.sha(input.cookie.value)].owner >= |db.users|
  {
    var token := input.cookie.value;
    Sessions.RepresentsValidates(cfg.sha, db.sessions, db.history, token, now);
    var i: nat :| Sessions.LiveAt(cfg.sha, db.history, i, token, now)
                  && Sessions.RowOf(db.history, i, db.sessions.rows[cfg.sha(token)]);
    assert !LiveFor(cfg, db, input, now, i);
  }

  // The answer

  /**
    A request that may not be asked is turned down; one that may is shown the prompt
    when nobody is signed in, and otherwise gets a code for the user who is.
  */
  ghost predicate IsAnswered(cfg: Config, db: Db, input: AuthorizeInput, script: Script, result: (Db, AuthorizeState)) {
    && result.1.ADone?
    && ((forall c: nat :: !MayAsk(db, input.req, c)) ==> result.0 == db && IsTurnedDown(db, input, result.1.outcome))
    && (forall c: nat :: MayAsk(db, input.req, c) && (forall i: nat :: !LiveFor(cfg, db, input, script(1).now, i)) ==>
          result.0 == db && result.1.outcome == Prompt(Admitted(c, db.registry.clients[c], AppOf(db, c))))
    && (forall c: nat, i: nat :: MayAsk(db, input.req, c) && LiveFor(cfg, db, input, script(1).now, i) ==>
          IsIssued(cfg, db, input, c, db.history[i].owner, script(5).now, script(6).now, result))
  }

  lemma RequestIsAnswered(cfg: Config, db: Db, input: AuthorizeInput, script: Script)
    requires TablesOk(cfg, db) && NoFaults(script) && SessionsOk(cfg, db, script(1).now)
    ensures IsAnswered(cfg, db, input, script, AuthorizeSolo(cfg, db, AStart(input), script, 0))
  {
    if i: nat :| LiveFor(cfg, db, input, script(1).now, i) {
      SignedInIsAnswered(cfg, db, input, script, i);
    } else {
      NobodyIsAnswered(cfg, db, input, script);
    }
  }

  lemma SignedInIsAnswered(cfg: Config, db: Db, input: AuthorizeInput, script: Script, i: nat)
    requires TablesOk(cfg, db) && NoFaults(script) && SessionsOk(cfg, db, script(1).now)
    requires LiveFor(cfg, db, input, script(1).now, i)
    ensures IsAnswered(cfg, db, input, script, AuthorizeSolo(cfg, db, AStart(input), script, 0))
  {
    var signIn := MiddlewareFinds(cfg, db, input, script, i);
    if c: nat :| MayAsk(db, input.req, c) {
      SignedInGetsCode(cfg, db, input, signIn, script, 3, c);
      CodeIsTheAnswer(cfg, db, input, script, c, i, AuthorizeSolo(cfg, db, AStart(input), script, 0));
    } else {
      OthersAreTurnedDown(cfg, db, input, Some(signIn), script, 3);
    }
  }

  lemma CodeIsTheAnswer(cfg: Config, db: Db, input: AuthorizeInput, script: Script, c: nat, i: nat, result: (Db, AuthorizeState))
    requires TablesOk(cfg, db) && SessionsOk(cfg, db, script(1).now)
    requires MayAsk(db, input.req, c) && LiveFor(cfg, db, input, script(1).now, i)
    requires IsIssued(cfg, db, input, c, db.history[i].owner, script(5).now, script(6).now, result)
    ensures IsAnswered(cfg, db, input, script, result)
  {
    OneClientNamed(cfg, db, input.req, c);
    OneOwner(cfg, db, input, script(1).now, i);
    forall d: nat, j: nat | MayAsk(db, input.req, d) && LiveFor(cfg, db, input, script(1).now, j)
      ensures d == c && db.history[j].owner == db.history[i].owner
    {
    }
  }

  lemma OneOwner(cfg: Config, db: Db, input: AuthorizeInput, now: int, i: nat)
    requires SessionsOk(cfg, db, now) && LiveFor(cfg, db, input, now, i)
    ensures forall j: nat :: LiveFor(cfg, db, input, now, j) ==> db.history[j].owner == db.history[i].owner
  {
    LiveRow(cfg.sha, db.sessions, db.history, i, input.cookie.value, now);
    forall j: nat | LiveFor(cfg, db, input, now, j) ensures db.history[j].owner == db.history[i].owner {
      LiveRow(cfg.sha, db.sessions, db.history, j, input.cookie.value, now);
    }
  }

  lemma NobodyIsAnswered(cfg: Config, db: Db, input: AuthorizeInput, script: Script)
    requires TablesOk(cfg, db) && NoFaults(script) && SessionsOk(cfg, db, script(1).now)
    requires forall i: nat :: !LiveFor(cfg, db, input, script(1).now, i)
    ensures IsAnswered(cfg, db, input, script, AuthorizeSolo(cfg, db, AStart(input), script, 0))
  {
    var used := MiddlewareFindsNobody(cfg, db, input, script);
    if c: nat :| MayAsk(db, input.req, c) {
      OneClientNamed(cfg, db, input.req, c);
      NobodyIsPrompted(cfg, db, input, script, used, c);
    } else {
      OthersAreTurnedDown(cfg, db, input, None, script, used);
    }
  }

  lemma ReachedSessions(cfg: Config, start: int, actions: seq<Action>, now: int)
    requires Reached(cfg, start, actions).now <= now
    ensures SessionsOk(cfg, Reached(cfg, start, actions).db, now)
  {
    ReachedInv(cfg, start, actions);
  }

  /** What a lone request is answered, and what it stores, in every case. */
  lemma LoneRequestsAreAnswered(cfg: Config, start: int, actions: seq<Action>, input: AuthorizeInput, script: Script)
    requires NoFaults(script) && Forward(script, 0, Reached(cfg, start, actions).now)
    ensures var db := Reached(cfg, start, actions).db;
            IsAnswered(cfg, db, input, script, AuthorizeSolo(cfg, db, AStart(input), script, 0))
  {
    assert script(0).now <= script(1).now;
    ReachedTables(cfg, start, actions);
    ReachedSessions(cfg, start, actions, script(1).now);
    RequestIsAnswered(cfg, Reached(cfg, start, actions).db, input, script);
  }

  /** In particular, who gets a code and who sees the prompt. */
  lemma CodeIssuedExactly(cfg: Config, start: int, actions: seq<Action>, input: AuthorizeInput, script: Script)
    requires NoFaults(script) && Forward(script, 0, Reached(cfg, start, actions).now)
    ensures var db := Reached(cfg, start, actions).db;
            var s := AuthorizeSolo(cfg, db, AStart(input), script, 0).1;
            && s.ADone?
            && (s.outcome.RedirectCode? <==>
                  && (exists c: nat :: MayAsk(db, input.req, c))
                  && (exists i: nat :: LiveFor(cfg, db, input, script(1).now, i))
                  && CanIssue(cfg, db, input))
            && (s.outcome.Prompt? <==>
                  && (exists c: nat :: MayAsk(db, input.req, c))
                  && (forall i: nat :: !LiveFor(cfg, db, input, script(1).now, i)))
  {
    LoneRequestsAreAnswered(cfg, start, actions, input, script);
    var db := Reached(cfg, start, actions).db;
    WhoIsAnswered(cfg, db, input, script, AuthorizeSolo(cfg, db, AStart(input), script, 0));
  }

  lemma WhoIsAnswered(cfg: Config, db: Db, input: AuthorizeInput, script: Script, result: (Db, AuthorizeState))
    requires IsAnswered(cfg, db, input, script, result)
    ensures var asks := exists c: nat :: MayAsk(db, input.req, c);
            var live := exists i: nat :: LiveFor(cfg, db, input, script(1).now, i);
            && (result.1.outcome.RedirectCode? <==> asks && live && CanIssue(cfg, db, input))
            && (result.1.outcome.Prompt? <==> asks && !live)
  {
    if c: nat :| MayAsk(db, input.req, c) {
      if i: nat :| LiveFor(cfg, db, input, script(1).now, i) {
        assert IsIssued(cfg, db, input, c, db.history[i].owner, script(5).now, script(6).now, result);
      }
    }
  }
}
