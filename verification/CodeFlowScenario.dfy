/** Runs from the empty system in which the two guarantees of `CodeFlowExact` fail. */
module CodeFlowScenario {
  import opened Prelude
  import opened Models
  import opened CodeFlow
  import opened CodeFlowResults
  import Base64
  import Forms
  import Oauth
  import Registration
  import Sessions
  import Text

  /** The rows of one application, its client and a user, a session of that user, and one request made with it. */
  datatype Scenario = Scenario(
    app: Application,
    client: Client,
    user: User,
    cookie: string,
    ttl: nat,
    req: Oauth.AuthorizeRequest,
    codeRandom: Bytes)

  predicate IsServed(cfg: Config, s: Scenario) {
    && s.client.applicationId == 0 && s.client.clientId == s.req.clientId != ""
    && s.req.redirectURI in s.client.redirectURIs && s.req.redirectURI != "" && cfg.parse(s.req.redirectURI).Some?
    && s.req.Validate() == None
    && Oauth.ValidateRequestedScopes(s.app, s.req.scope)
  }

  /** The action registers the scenario's application and client. */
  predicate Registers(cfg: Config, register: Action, s: Scenario) {
    register.RegisterApp?
    && DbAfter(cfg, Initial(0), register) == WithRegistry(EMPTY_DB, Some(Registration.Registry([s.app], [s.client])))
  }

  function Tables(cfg: Config, start: int, s: Scenario): Db {
    Db(Registration.Registry([s.app], [s.client]), [s.user],
       Sessions.Store(map[cfg.sha(s.cookie) := SessionOf(start, s)], 1),
       [], [Sessions.Created(start, s.cookie, 0, s.ttl)], [[], [s.app]])
  }

  function SessionOf(start: int, s: Scenario): Sessions.Session {
    Sessions.Session(0, 0, start + s.ttl, None)
  }

  function SignInOf(start: int, s: Scenario): SignIn {
    SignIn(s.cookie, SessionOf(start, s), 1, start)
  }

  predicate IsInputOf(s: Scenario, input: AuthorizeInput) {
    input.req == s.req && input.cookie == Some(s.cookie) && input.random == Some(s.codeRandom)
  }

  /** The grant that the request works towards. */
  function GrantFor(start: int, s: Scenario, input: AuthorizeInput): Grant {
    Grant(input, SignInOf(start, s), 0, s.client, s.app, Oauth.FromRandom(s.codeRandom))
  }

  // Setting up

  lemma Then(cfg: Config, start: int, actions: seq<Action>, a: Action, w: World, next: World)
    requires Reached(cfg, start, actions) == w && Exec(cfg, w, a) == next
    ensures Reached(cfg, start, actions + [a]) == next
  {
    assert (actions + [a])[..|actions|] == actions;
  }

  lemma ExecRegister(cfg: Config, start: int, register: Action, s: Scenario)
    requires Registers(cfg, register, s)
    ensures Exec(cfg, Initial(start), register)
            == Initial(start).(db := EMPTY_DB.(registry := Registration.Registry([s.app], [s.client]), appTables := [[], [s.app]]),
                               step := 1)
  {
    assert [[]] + [[s.app]] == [[], [s.app]];
  }

  lemma ExecAddUser(cfg: Config, w: World, user: User)
    ensures Exec(cfg, w, AddUser(user)) == w.(db := w.db.(users := w.db.users + [user]), step := w.step + 1)
  {
  }

  lemma ExecCreate(cfg: Config, w: World, s: Scenario)
    requires w.db.sessions == Sessions.EMPTY
    ensures var event := Sessions.Created(w.now, s.cookie, 0, s.ttl);
            Exec(cfg, w, ChangeSessions(event))
            == w.(db := w.db.(sessions := Sessions.Store(map[cfg.sha(s.cookie) := SessionOf(w.now, s)], 1),
                              history := w.db.history + [event]),
                  step := w.step + 1)
  {
  }

  /** Registration, a user, a session. */
  lemma SetUp(cfg: Config, start: int, register: Action, s: Scenario) returns (actions: seq<Action>)
    requires Registers(cfg, register, s)
    ensures Reached(cfg, start, actions) == Initial(start).(db := Tables(cfg, start, s), step := 3)
  {
    var add, event := AddUser(s.user), Sessions.Created(start, s.cookie, 0, s.ttl);
    var w0 := Initial(start);
    var w1 := w0.(db := EMPTY_DB.(registry := Registration.Registry([s.app], [s.client]), appTables := [[], [s.app]]), step := 1);
    var w2 := w1.(db := w1.db.(users := [s.user]), step := 2);
    ExecRegister(cfg, start, register, s);
    Then(cfg, start, [], register, w0, w1);
    ExecAddUser(cfg, w1, s.user);
    assert [] + [s.user] == [s.user];
    Then(cfg, start, [] + [register], add, w1, w2);
    ExecCreate(cfg, w2, s);
    assert [] + [event] == [event];
    actions := [] + [register] + [add];
    Then(cfg, start, actions, ChangeSessions(event), w2, w0.(db := Tables(cfg, start, s), step := 3));
    actions := actions + [ChangeSessions(event)];
  }

  // The request

  /** Everything is set up, and request 0 is the only one and stands at `st`. */
  predicate StandsAt(cfg: Config, start: int, s: Scenario, actions: seq<Action>, st: AuthorizeState) {
    var w := Reached(cfg, start, actions);
    && w.db == Tables(cfg, start, s) && w.now == start
    && w.token == map[] && w.issues == [] && w.authorize == map[0 := st]
  }

  /** Its next step leaves the tables alone. */
  lemma Walk(cfg: Config, start: int, s: Scenario, actions: seq<Action>, st: AuthorizeState, next: AuthorizeState)
    requires StandsAt(cfg, start, s, actions, st)
    requires AuthorizeStep(cfg, Tables(cfg, start, s), start, false, st) == (Tables(cfg, start, s), next)
    ensures StandsAt(cfg, start, s, actions + [StepAuthorize(0, false)], next)
  {
    assert (actions + [StepAuthorize(0, false)])[..|actions|] == actions;
    assert map[0 := st][0 := next] == map[0 := next];
  }

  lemma SignsIn(cfg: Config, start: int, s: Scenario, input: AuthorizeInput)
    requires IsInputOf(s, input)
    ensures var db := Tables(cfg, start, s);
            && AuthorizeStep(cfg, db, start, false, AStart(input)) == (db, ASessionRead(input, s.cookie, SessionOf(start, s), 1))
            && AuthorizeStep(cfg, db, start, false, ASessionRead(input, s.cookie, SessionOf(start, s), 1))
               == (db, ASessionChecked(input, SignInOf(start, s)))
            && AuthorizeStep(cfg, db, start, false, ASessionChecked(input, SignInOf(start, s)))
               == (db, AHandler(input, Some(SignInOf(start, s))))
  {
  }

  lemma LooksUp(cfg: Config, start: int, s: Scenario, input: AuthorizeInput)
    requires IsServed(cfg, s) && IsInputOf(s, input)
    ensures var db, read := Tables(cfg, start, s), AClientRead(input, Some(SignInOf(start, s)), 0, s.client);
            && AuthorizeStep(cfg, db, start, false, AHandler(input, Some(SignInOf(start, s)))) == (db, read)
            && AuthorizeStep(cfg, db, start, false, read) == (db, AReady(GrantFor(start, s, input)))
  {
    assert [s.client][0].clientId == s.req.clientId;
    assert Registration.FindClient([s.client], s.req.clientId) == Some(0);
  }

  lemma WalksIn(cfg: Config, start: int, s: Scenario, first: seq<Action>, input: AuthorizeInput) returns (actions: seq<Action>)
    requires IsInputOf(s, input) && StandsAt(cfg, start, s, first, AStart(input))
    ensures StandsAt(cfg, start, s, actions, AHandler(input, Some(SignInOf(start, s))))
  {
    var step, signIn := [StepAuthorize(0, false)], SignInOf(start, s);
    SignsIn(cfg, start, s, input);
    var read := ASessionRead(input, s.cookie, SessionOf(start, s), 1);
    Walk(cfg, start, s, first, AStart(input), read);
    Walk(cfg, start, s, first + step, read, ASessionChecked(input, signIn));
    Walk(cfg, start, s, first + step + step, ASessionChecked(input, signIn), AHandler(input, Some(signIn)));
    actions := first + step + step + step;
  }

  lemma WalksOn(cfg: Config, start: int, s: Scenario, first: seq<Action>, input: AuthorizeInput) returns (actions: seq<Action>)
    requires IsServed(cfg, s) && IsInputOf(s, input)
    requires StandsAt(cfg, start, s, first, AHandler(input, Some(SignInOf(start, s))))
    ensures StandsAt(cfg, start, s, actions, AInsert(GrantFor(start, s, input), start + Oauth.AUTHORIZATION_CODE_TTL))
  {
    var step, signIn, g := [StepAuthorize(0, false)], SignInOf(start, s), GrantFor(start, s, input);
    LooksUp(cfg, start, s, input);
    var read := AClientRead(input, Some(signIn), 0, s.client);
    Walk(cfg, start, s, first, AHandler(input, Some(signIn)), read);
    WalksToInsert(cfg, start, s, first + step, read, g);
    actions := first + step + step + step;
  }

  lemma WalksToInsert(cfg: Config, start: int, s: Scenario, first: seq<Action>, read: AuthorizeState, g: Grant)
    requires StandsAt(cfg, start, s, first, read) && read.AClientRead?
    requires AuthorizeStep(cfg, Tables(cfg, start, s), start, false, read) == (Tables(cfg, start, s), AReady(g))
    ensures var step := [StepAuthorize(0, false)];
            StandsAt(cfg, start, s, first + step + step, AInsert(g, start + Oauth.AUTHORIZATION_CODE_TTL))
  {
    Walk(cfg, start, s, first, read, AReady(g));
    TakesReading(cfg, Tables(cfg, start, s), start, g);
    Walk(cfg, start, s, first + [StepAuthorize(0, false)], AReady(g), AInsert(g, start + Oauth.AUTHORIZATION_CODE_TTL));
  }

  lemma TakesReading(cfg: Config, db: Db, now: int, g: Grant)
    ensures AuthorizeStep(cfg, db, now, false, AReady(g)) == (db, AInsert(g, now + Oauth.AUTHORIZATION_CODE_TTL))
  {
  }

  lemma ComesIn(cfg: Config, start: int, s: Scenario, first: seq<Action>) returns (actions: seq<Action>, input: AuthorizeInput)
    requires Reached(cfg, start, first) == Initial(start).(db := Tables(cfg, start, s), step := 3)
    ensures IsInputOf(s, input) && StandsAt(cfg, start, s, actions, AStart(input))
  {
    var w := Reached(cfg, start, first);
    var begin := BeginAuthorize(0, AuthorizeInput(s.req, Some(s.cookie), Some(s.codeRandom), ArrivalAt(w)));
    input := begin.authorizeInput;
    actions := first + [begin];
    assert actions[..|first|] == first;
  }

  /** The request of the scenario, about to insert its code. */
  lemma ToInsert(cfg: Config, start: int, register: Action, s: Scenario) returns (actions: seq<Action>, input: AuthorizeInput)
    requires Registers(cfg, register, s) && IsServed(cfg, s)
    ensures IsInputOf(s, input)
    ensures StandsAt(cfg, start, s, actions, AInsert(GrantFor(start, s, input), start + Oauth.AUTHORIZATION_CODE_TTL))
  {
    actions := SetUp(cfg, start, register, s);
    actions, input := ComesIn(cfg, start, s, actions);
    actions := WalksIn(cfg, start, s, actions, input);
    actions := WalksOn(cfg, start, s, actions, input);
  }

  lemma RunSnoc(cfg: Config, start: int, actions: seq<Action>, a: Action)
    ensures Reached(cfg, start, actions + [a]) == Exec(cfg, Reached(cfg, start, actions), a)
  {
    assert (actions + [a])[..|actions|] == actions;
  }

  // An edit between the checks and the insertion

  lemma ExecUpdate(cfg: Config, w: World, edit: Registration.AppInput)
    requires 0 < |w.db.registry.apps| && Registration.AcceptableApp(edit)
    ensures var w' := Exec(cfg, w, UpdateApp(0, edit));
            && w'.db.registry.apps == w.db.registry.apps[0 := Registration.AppRow(edit)]
            && w'.db.codes == w.db.codes && w'.authorize == w.authorize && w'.now == w.now
  {
  }

  lemma ExecInsert(cfg: Config, w: World, g: Grant, expiresAt: int)
    requires w.db.codes == [] && 0 in w.authorize && w.authorize[0] == AInsert(g, expiresAt)
    ensures var w' := Exec(cfg, w, StepAuthorize(0, false));
            && w'.db == w.db.(codes := [CodeRow(cfg, g, expiresAt, w.now)])
            && w'.now == w.now && w'.token == w.token
  {
    assert [] + [CodeRow(cfg, g, expiresAt, w.now)] == [CodeRow(cfg, g, expiresAt, w.now)];
  }

  /** A stored code with a scope its application does not allow, in a state reached from the start. */
  lemma NarrowedScopesAreReached(cfg: Config, start: int, register: Action, s: Scenario, edit: Registration.AppInput)
    returns (actions: seq<Action>)
    requires Registers(cfg, register, s) && IsServed(cfg, s) && Registration.AcceptableApp(edit)
    requires !Oauth.ValidateRequestedScopes(Registration.AppRow(edit), s.req.scope)
    ensures var db := Reached(cfg, start, actions).db;
            && |db.codes| == 1 && db.codes[0].clientRow == 0 && db.registry.clients == [s.client]
            && s.client.applicationId == 0 < |db.registry.apps|
            && !Oauth.ValidateRequestedScopes(db.registry.apps[0], db.codes[0].scope)
  {
    var first, input := ToInsert(cfg, start, register, s);
    var g := GrantFor(start, s, input);
    RunSnoc(cfg, start, first, UpdateApp(0, edit));
    ExecUpdate(cfg, Reached(cfg, start, first), edit);
    var w := Reached(cfg, start, first + [UpdateApp(0, edit)]);
    RunSnoc(cfg, start, first + [UpdateApp(0, edit)], StepAuthorize(0, false));
    ExecInsert(cfg, w, g, start + Oauth.AUTHORIZATION_CODE_TTL);
    KeepsClients(cfg, Reached(cfg, start, first), UpdateApp(0, edit));
    actions := first + [UpdateApp(0, edit)] + [StepAuthorize(0, false)];
  }

  lemma KeepsClients(cfg: Config, w: World, a: Action)
    requires a.UpdateApp?
    ensures Exec(cfg, w, a).db.registry.clients == w.db.registry.clients
  {
  }

  // A slow exchange

  /** An exchange of the scenario's code by its client. */
  predicate AsksForCode(cfg: Config, s: Scenario, t: TokenInput) {
    && FormContent(t.contentType) && t.formParses && t.grantType == "authorization_code" && !Incomplete(t)
    && PresentedClientId(t) == s.client.clientId && Authenticated(cfg, t, s.client)
    && t.code == Oauth.FromRandom(s.codeRandom)
  }

  /** The code is stored, and token request 0 is the only one and stands at `st`. */
  predicate ExchangesAt(cfg: Config, start: int, s: Scenario, code: Code, actions: seq<Action>, now: int, st: TokenState) {
    var w := Reached(cfg, start, actions);
    && w.db == Tables(cfg, start, s).(codes := [code]) && w.now == now && w.token == map[0 := st]
  }

  lemma Exchange(cfg: Config, start: int, s: Scenario, code: Code, actions: seq<Action>, now: int, st: TokenState, next: TokenState)
    requires ExchangesAt(cfg, start, s, code, actions, now, st)
    requires var db := Tables(cfg, start, s).(codes := [code]);
             TokenStep(cfg, db, now, false, st) == (db, next)
    ensures ExchangesAt(cfg, start, s, code, actions + [StepToken(0, false)], now, next)
  {
    RunSnoc(cfg, start, actions, StepToken(0, false));
    ExecQuiet(cfg, Reached(cfg, start, actions), st, (Tables(cfg, start, s).(codes := [code]), next));
  }

  lemma ExecQuiet(cfg: Config, w: World, st: TokenState, result: (Db, TokenState))
    requires w.token == map[0 := st] && TokenStep(cfg, w.db, w.now, false, st) == result
    ensures var w' := Exec(cfg, w, StepToken(0, false));
            w'.db == result.0 && w'.now == w.now && w'.token == map[0 := result.1]
  {
    ExecTokenStep(cfg, w, 0);
    OneRequest(st, result.1);
  }

  lemma OneRequest(st: TokenState, next: TokenState)
    ensures map[0 := st][0 := next] == map[0 := next]
  {
  }

  lemma ExecTokenStep(cfg: Config, w: World, r: nat)
    requires r in w.token
    ensures var w', result := Exec(cfg, w, StepToken(r, false)), TokenStep(cfg, w.db, w.now, false, w.token[r]);
            w'.db == result.0 && w'.now == w.now && w'.token == w.token[r := result.1]
  {
  }

  lemma Waits(cfg: Config, start: int, s: Scenario, code: Code, actions: seq<Action>, now: int, st: TokenState, duration: nat)
    requires ExchangesAt(cfg, start, s, code, actions, now, st)
    ensures ExchangesAt(cfg, start, s, code, actions + [Tick(duration)], now + duration, st)
  {
    RunSnoc(cfg, start, actions, Tick(duration));
  }

  /** The code is inserted, and 59 seconds later its exchange comes in. */
  lemma Inserts(cfg: Config, start: int, register: Action, s: Scenario, t: TokenInput)
    returns (actions: seq<Action>, code: Code, input: TokenInput)
    requires Registers(cfg, register, s) && IsServed(cfg, s)
    ensures code.codeHash == cfg.sha(Oauth.FromRandom(s.codeRandom)) && code.clientRow == 0
    ensures code.consumedAt == None && code.expiresAt == start + 60 * SECOND
    ensures input == t.(arrival := input.arrival)
    ensures ExchangesAt(cfg, start, s, code, actions, start + 59 * SECOND, TStart(input))
  {
    var first, asked := ToInsert(cfg, start, register, s);
    var g := GrantFor(start, s, asked);
    code := CodeRow(cfg, g, start + Oauth.AUTHORIZATION_CODE_TTL, start);
    RunSnoc(cfg, start, first, StepAuthorize(0, false));
    ExecInsert(cfg, Reached(cfg, start, first), g, start + Oauth.AUTHORIZATION_CODE_TTL);
    actions := first + [StepAuthorize(0, false)];
    input := t.(arrival := ArrivalAt(Reached(cfg, start, actions)));
    RunSnoc(cfg, start, actions, BeginToken(0, t));
    actions := actions + [BeginToken(0, t)];
    assert ExchangesAt(cfg, start, s, code, actions, start, TStart(input));
    Waits(cfg, start, s, code, actions, start, TStart(input), 59 * SECOND);
    actions := actions + [Tick(59 * SECOND)];
  }

  lemma LoadsCode(cfg: Config, start: int, s: Scenario, code: Code, t: TokenInput, now: int)
    requires AsksForCode(cfg, s, t) && code.codeHash == cfg.sha(t.code) && code.clientRow == 0
    requires code.consumedAt == None && now <= code.expiresAt
    ensures var db, loaded := Tables(cfg, start, s).(codes := [code]), Loaded(0, s.client, 0, code);
            && TokenStep(cfg, db, now, false, TStart(t)) == (db, TClientRead(t, 0, s.client))
            && TokenStep(cfg, db, now, false, TClientRead(t, 0, s.client)) == (db, TCodeRead(t, loaded))
            && TokenStep(cfg, db, now, false, TCodeRead(t, loaded)) == (db, TFresh(t, loaded))
  {
    assert [s.client][0].clientId == PresentedClientId(t);
    assert Registration.FindClient([s.client], PresentedClientId(t)) == Some(0);
    assert [code][0].codeHash == cfg.sha(t.code);
    assert FindCode([code], cfg.sha(t.code)) == Some(0);
  }

  /** The exchange checks the clock and takes its first reading, all in one second. */
  lemma ReadsClock(cfg: Config, start: int, s: Scenario, code: Code, t: TokenInput, first: seq<Action>, now: int)
    returns (actions: seq<Action>)
    requires AsksForCode(cfg, s, t) && code.codeHash == cfg.sha(t.code) && code.clientRow == 0
    requires code.consumedAt == None && now <= code.expiresAt
    requires ExchangesAt(cfg, start, s, code, first, now, TStart(t))
    ensures ExchangesAt(cfg, start, s, code, actions, now, TTimed(t, Loaded(0, s.client, 0, code), now))
  {
    var step, loaded := [StepToken(0, false)], Loaded(0, s.client, 0, code);
    LoadsCode(cfg, start, s, code, t, now);
    Exchange(cfg, start, s, code, first, now, TStart(t), TClientRead(t, 0, s.client));
    Exchange(cfg, start, s, code, first + step, now, TClientRead(t, 0, s.client), TCodeRead(t, loaded));
    Exchange(cfg, start, s, code, first + step + step, now, TCodeRead(t, loaded), TFresh(t, loaded));
    Exchange(cfg, start, s, code, first + step + step + step, now, TFresh(t, loaded), TTimed(t, loaded, now));
    actions := first + step + step + step + step;
  }

  lemma ExecConsume(cfg: Config, w: World, input: TokenInput, loaded: Loaded, asOf: int, stamp: int)
    requires 0 in w.token && w.token[0] == TSending(input, loaded, asOf, stamp) && Consumable(w.db.codes, loaded.id, asOf)
    ensures Exec(cfg, w, StepToken(0, false)).db.codes == ConsumeRow(w.db.codes, loaded.id, asOf, stamp)
  {
  }

  /** Two seconds later it takes its second reading, and then consumes. */
  lemma ConsumesLate(cfg: Config, start: int, s: Scenario, code: Code, t: TokenInput, first: seq<Action>, now: int)
    returns (actions: seq<Action>)
    requires code.consumedAt == None && now < code.expiresAt
    requires ExchangesAt(cfg, start, s, code, first, now, TTimed(t, Loaded(0, s.client, 0, code), now))
    ensures Reached(cfg, start, actions).db.codes == [code.(consumedAt := Some(now + 2 * SECOND))]
  {
    var late, loaded := now + 2 * SECOND, Loaded(0, s.client, 0, code);
    var step := [StepToken(0, false)];
    Waits(cfg, start, s, code, first, now, TTimed(t, loaded, now), 2 * SECOND);
    var waited := first + [Tick(2 * SECOND)];
    Exchange(cfg, start, s, code, waited, late, TTimed(t, loaded, now), TSending(t, loaded, now, late));
    RunSnoc(cfg, start, waited + step, StepToken(0, false));
    ExecConsume(cfg, Reached(cfg, start, waited + step), t, loaded, now, late);
    actions := waited + step + step;
  }

  /** A code whose stored consumption is a second past its expiry, in a state reached from the start. */
  lemma LateStampIsReached(cfg: Config, start: int, register: Action, s: Scenario, t: TokenInput) returns (actions: seq<Action>)
    requires Registers(cfg, register, s) && IsServed(cfg, s) && AsksForCode(cfg, s, t)
    ensures var codes := Reached(cfg, start, actions).db.codes;
            |codes| == 1 && codes[0].expiresAt == start + 60 * SECOND && codes[0].consumedAt == Some(start + 61 * SECOND)
  {
    var first, code, input := Inserts(cfg, start, register, s, t);
    var now := start + 59 * SECOND;
    CameIn(cfg, s, t, input);
    actions := ExchangesLate(cfg, start, s, code, input, first, now);
  }

  lemma CameIn(cfg: Config, s: Scenario, t: TokenInput, input: TokenInput)
    requires AsksForCode(cfg, s, t) && input == t.(arrival := input.arrival)
    ensures AsksForCode(cfg, s, input) && input.code == Oauth.FromRandom(s.codeRandom)
  {
  }

  /** A request that has just come in, a second before the expiry, consumes the code a second past it. */
  lemma ExchangesLate(cfg: Config, start: int, s: Scenario, code: Code, t: TokenInput, first: seq<Action>, now: int)
    returns (actions: seq<Action>)
    requires AsksForCode(cfg, s, t) && code.codeHash == cfg.sha(t.code) && code.clientRow == 0
    requires code.consumedAt == None && now < code.expiresAt
    requires ExchangesAt(cfg, start, s, code, first, now, TStart(t))
    ensures Reached(cfg, start, actions).db.codes == [code.(consumedAt := Some(now + 2 * SECOND))]
  {
    actions := ReadsClock(cfg, start, s, code, t, first, now);
    actions := ConsumesLate(cfg, start, s, code, t, actions, now);
  }

  // Such scenarios exist

  /** Every URI parses, as an absolute one. */
  function DemoConfig(sha: Digest): Config {
    Config(sha, (s: string) => Some(ParsedUrl(true, "https", "h", "h", "", "")), "i", 0)
  }

  function DemoApp(): Registration.AppInput {
    Registration.AppInput("a", "", true, ["openid"])
  }

  /** The edit that takes the scope away. */
  function DemoEdit(): Registration.AppInput {
    Registration.AppInput("a", "", true, [])
  }

  function DemoClient(): Registration.ClientInput {
    Registration.ClientInput("public", ["u"], [], [], "local", "")
  }

  function DemoRegister(): Action {
    RegisterApp(DemoApp(), DemoClient(), [0], [])
  }

  /** `random` is the code's buffer and the verifier's. */
  function DemoRequest(sha: Digest, random: Bytes): Oauth.AuthorizeRequest {
    Oauth.AuthorizeRequest("00", "u", "code", "s", "openid", "n",
                           Oauth.PKCEChallenge(sha, Oauth.FromRandom(random)), "S256")
  }

  function DemoScenario(sha: Digest, random: Bytes): Scenario {
    var client := Registration.ClientRow(sha, DemoClient(), [0], "").(applicationId := 0);
    Scenario(Registration.AppRow(DemoApp()), client, User("s", "e"), "t", 60 * SECOND, DemoRequest(sha, random), random)
  }

  function DemoExchange(random: Bytes): TokenInput {
    var text := Oauth.FromRandom(random);
    TokenInput("", true, "authorization_code", text, "u", text, "00", "", None, None, Arrival(0, 0, 0, 0))
  }

  lemma DemoScopes()
    ensures Registration.AppRow(DemoApp()).allowedScopes == ["openid"]
    ensures Registration.AcceptableApp(DemoApp()) && Text.Fields("openid") == ["openid"]
  {
    assert Forms.InNormalForm(["openid"]);
    Forms.NormalFormIsNamed(["openid"]);
    Text.FieldsOfWord("openid", "");
    assert "openid" + "" == "openid";
    Text.TrimSpaceFixes("a");
  }

  lemma DemoEditNarrows()
    ensures Registration.AcceptableApp(DemoEdit()) && Registration.AppRow(DemoEdit()).allowedScopes == []
  {
    Text.TrimSpaceFixes("a");
    assert Forms.AllFields([]) == [];
  }

  lemma DemoWords()
    ensures Registration.NormalWord("public") == "public" && Registration.NormalWord("local") == "local"
  {
    Text.TrimSpaceFixes("public");
    Text.TrimSpaceFixes("local");
  }

  lemma DemoLists()
    ensures Forms.AllFields(["u"]) == ["u"] && Forms.AllFields([]) == []
  {
    Forms.AllFieldsOfWords(["u"]);
  }

  lemma DemoURIs(sha: Digest)
    ensures Registration.AllURIsValid(DemoConfig(sha).parse, ["u"])
  {
    Text.TrimSpaceFixes("u");
  }

  lemma DemoClientIsAcceptable(sha: Digest)
    ensures Registration.Acceptable(DemoConfig(sha).parse, DemoClient())
  {
    DemoWords();
    DemoLists();
    DemoURIs(sha);
  }

  lemma DemoId()
    ensures Registration.Hex([0]) == "00"
  {
    assert Registration.HexDigit(0) == '0';
  }

  lemma PublicRow(sha: Digest, input: Registration.ClientInput, randomId: Bytes)
    requires Registration.NormalWord(input.clientType) == "public"
    ensures var client := Registration.ClientRow(sha, input, randomId, "");
            client.tokenEndpointAuthMethod == "none" && client.secretHash == []
  {
  }

  lemma DemoClientRow(sha: Digest, random: Bytes)
    ensures var client := DemoScenario(sha, random).client;
            && client.applicationId == 0 && client.clientId == "00" && client.redirectURIs == ["u"]
            && client.tokenEndpointAuthMethod == "none" && client.secretHash == []
  {
    DemoWords();
    DemoLists();
    DemoId();
    PublicRow(sha, DemoClient(), [0]);
  }

  lemma DemoAppIsAcceptable()
    ensures Registration.AcceptableApp(DemoApp())
  {
    DemoScopes();
  }

  /** The row that is registered is the scenario's. */
  lemma DemoIsInsertable(sha: Digest, random: Bytes)
    ensures var row := Registration.ClientRow(sha, DemoClient(), [0], Registration.SecretFor(DemoClient(), [])).(applicationId := 0);
            row == DemoScenario(sha, random).client && Registration.Insertable([], row)
  {
    DemoWords();
    DemoClientRow(sha, random);
  }

  lemma DemoRegisters(sha: Digest, random: Bytes)
    ensures Registers(DemoConfig(sha), DemoRegister(), DemoScenario(sha, random))
  {
    DemoAppIsAcceptable();
    DemoClientIsAcceptable(sha);
    DemoIsInsertable(sha, random);
    var s := DemoScenario(sha, random);
    assert [] + [s.app] == [s.app] && [] + [s.client] == [s.client];
  }

  lemma DemoRequestValidates(sha: Digest, random: Bytes)
    ensures DemoRequest(sha, random).Validate() == None
  {
    Oauth.ComputedChallengeValidates(sha, DemoRequest(sha, random), Oauth.FromRandom(random));
  }

  lemma DemoScopesAllowed(sha: Digest, random: Bytes)
    ensures Oauth.ValidateRequestedScopes(DemoScenario(sha, random).app, DemoRequest(sha, random).scope)
  {
    DemoScopes();
  }

  lemma DemoIsServed(sha: Digest, random: Bytes)
    ensures IsServed(DemoConfig(sha), DemoScenario(sha, random))
  {
    DemoClientRow(sha, random);
    DemoRequestValidates(sha, random);
    DemoScopesAllowed(sha, random);
  }

  lemma DemoAsks(sha: Digest, random: Bytes)
    requires |random| == 32
    ensures AsksForCode(DemoConfig(sha), DemoScenario(sha, random), DemoExchange(random))
  {
    DemoClientRow(sha, random);
    Base64.EncodeLength(Base64.Url, random);
  }

  /** With any digest, and from any time, the first guarantee fails in some run. */
  lemma ScopesCanBeNarrowed(sha: Digest, start: int, random: Bytes) returns (actions: seq<Action>)
    requires |random| == 32
    ensures var db := Reached(DemoConfig(sha), start, actions).db;
            && |db.codes| == 1 && db.codes[0].clientRow < |db.registry.clients|
            && db.registry.clients[db.codes[0].clientRow].applicationId == 0 < |db.registry.apps|
            && !Oauth.ValidateRequestedScopes(db.registry.apps[0], db.codes[0].scope)
  {
    var s := DemoScenario(sha, random);
    DemoRegisters(sha, random);
    DemoIsServed(sha, random);
    DemoEditNarrows();
    DemoScopes();
    assert "openid" in Text.Fields(s.req.scope);
    actions := NarrowedScopesAreReached(DemoConfig(sha), start, DemoRegister(), s, DemoEdit());
  }

  /** And so does the second. */
  lemma StampsCanBeLate(sha: Digest, start: int, random: Bytes) returns (actions: seq<Action>)
    requires |random| == 32
    ensures var codes := Reached(DemoConfig(sha), start, actions).db.codes;
            |codes| == 1 && codes[0].consumedAt.Some? && codes[0].expiresAt < codes[0].consumedAt.value
  {
    DemoRegisters(sha, random);
    DemoIsServed(sha, random);
    DemoAsks(sha, random);
    actions := LateStampIsReached(DemoConfig(sha), start, DemoRegister(), DemoScenario(sha, random), DemoExchange(random));
  }
}
