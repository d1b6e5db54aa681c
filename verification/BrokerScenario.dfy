/** A run from the empty system in which a sign-in ends for another application than the one that was prompted. */
module BrokerScenario {
  import opened Prelude
  import opened Models
  import opened Upstream
  import opened Broker
  import opened BrokerHistory
  import opened BrokerProvenance
  import opened BrokerResults
  import opened BrokerTargets
  import opened UpstreamHandlers
  import Base64
  import CodeFlow
  import Decimal
  import Demo = CodeFlowScenario
  import Flow = CodeFlowInvariant
  import FlowResults = CodeFlowResults
  import Oauth
  import Provisioning
  import Query
  import Registration
  import Sessions
  import Text

  /** Every URI parses, plain text unescapes to itself, and the codec is one of JSON. */
  ghost predicate IsUsual(s: Settings) {
    && s.cfg == Demo.DemoConfig(s.cfg.sha)
    && IsJson(s) && Query.FixesPlain(s.unescape) && forall t :: s.parses(t)
  }

  // Two applications with a client each

  function ClientOf(s: Settings, i: byte): Client {
    Registration.ClientRow(s.cfg.sha, Demo.DemoClient(), [i], "").(applicationId := i)
  }

  function App(): Application {
    Registration.AppRow(Demo.DemoApp())
  }

  function TwoClients(s: Settings): Registration.Registry {
    Registration.Registry([App(), App()], [ClientOf(s, 0), ClientOf(s, 1)])
  }

  function Register(i: byte): CodeFlow.Action {
    CodeFlow.RegisterApp(Demo.DemoApp(), Demo.DemoClient(), [i], [])
  }

  lemma ClientIs(s: Settings, i: byte)
    ensures var client := ClientOf(s, i);
            && client.applicationId == i && client.clientId == Registration.Hex([i]) && client.redirectURIs == ["u"]
            && client.tokenEndpointAuthMethod == "none"
            && Registration.SecretFor(Demo.DemoClient(), []) == ""
  {
    Demo.DemoWords();
    Demo.DemoLists();
    Demo.PublicRow(s.cfg.sha, Demo.DemoClient(), [i]);
  }

  lemma Ids()
    ensures Registration.Hex([0]) == "00" && Registration.Hex([1]) == "01"
  {
    assert Registration.HexDigit(0) == '0' && Registration.HexDigit(1) == '1';
    HexOf(0);
    HexOf(1);
  }

  lemma HexOf(i: byte)
    ensures Registration.Hex([i]) == [Registration.HexDigit(i / 16), Registration.HexDigit(i % 16)]
  {
    assert [i][1..] == [];
  }

  lemma FirstRegisters(s: Settings)
    requires IsUsual(s)
    ensures Registration.AfterRegisterApp(s.cfg.parse, s.cfg.sha, Registration.Registry([], []), Demo.DemoApp(),
                                          Demo.DemoClient(), [0], [])
            == Some(Registration.Registry([App()], [ClientOf(s, 0)]))
  {
    Demo.DemoAppIsAcceptable();
    Demo.DemoClientIsAcceptable(s.cfg.sha);
    ClientIs(s, 0);
    assert [] + [App()] == [App()] && [] + [ClientOf(s, 0)] == [ClientOf(s, 0)];
  }

  lemma FindOfTwo(c: Client, d: Client)
    requires c.clientId != d.clientId
    ensures Registration.FindClient([c], d.clientId) == None
    ensures Registration.FindClient([c, d], c.clientId) == Some(0)
    ensures Registration.FindClient([c, d], d.clientId) == Some(1)
  {
    assert [c, d][0] == c && [c, d][1] == d && [c][0] == c;
  }

  lemma SecondRegisters(s: Settings)
    requires IsUsual(s)
    ensures Registration.AfterRegisterApp(s.cfg.parse, s.cfg.sha, Registration.Registry([App()], [ClientOf(s, 0)]),
                                          Demo.DemoApp(), Demo.DemoClient(), [1], [])
            == Some(TwoClients(s))
  {
    Demo.DemoAppIsAcceptable();
    Demo.DemoClientIsAcceptable(s.cfg.sha);
    ClientIs(s, 0);
    ClientIs(s, 1);
    Ids();
    FindOfTwo(ClientOf(s, 0), ClientOf(s, 1));
    assert [App()] + [App()] == [App(), App()];
    assert [ClientOf(s, 0)] + [ClientOf(s, 1)] == [ClientOf(s, 0), ClientOf(s, 1)];
  }

  lemma FindClients(s: Settings)
    ensures var clients := TwoClients(s).clients;
            Registration.FindClient(clients, "00") == Some(0) && Registration.FindClient(clients, "01") == Some(1)
  {
    ClientIs(s, 0);
    ClientIs(s, 1);
    Ids();
    FindOfTwo(ClientOf(s, 0), ClientOf(s, 1));
  }

  // The request, and the target it comes in

  /** A complete request of the second client. */
  function Request(s: Settings, random: Random): Oauth.AuthorizeRequest {
    Oauth.AuthorizeRequest("01", "u", "code", "s", "openid", "n",
                           Oauth.PKCEChallenge(s.cfg.sha, Oauth.FromRandom(random)), "S256")
  }

  /** It names the first client once it is stored. */
  function TargetOf(s: Settings, random: Random): Target {
    MisleadingTarget("00", Request(s, random))
  }

  lemma AlphabetIsPlain(x: string)
    requires Base64.AllInAlphabet(Base64.Url, x)
    ensures Query.IsPlain(x)
  {
  }

  lemma RequestIsPlain(s: Settings, random: Random)
    ensures IsPlainRequest(Request(s, random)) && Query.IsPlain("00")
  {
    var verifier := Oauth.FromRandom(random);
    Oauth.ChallengeLength(s.cfg.sha, verifier);
    AlphabetIsPlain(Oauth.PKCEChallenge(s.cfg.sha, verifier));
  }

  lemma TargetReads(s: Settings, random: Random)
    requires IsUsual(s)
    ensures var t := TargetOf(s, random);
            && t.Valid() && ParseRequest(s, t) == Request(s, random) && StoredClientId(s, t.Uri()) == "00"
            && Text.HasPrefix(t.Uri(), RETURN_PREFIX)
  {
    RequestIsPlain(s, random);
    StoredIdMayDiffer(s, "00", Request(s, random));
    var t := TargetOf(s, random);
    assert t.Uri()[..|RETURN_PREFIX|] == "/authorize" + "?";
  }

  lemma RequestIsServed(s: Settings, random: Random)
    ensures Request(s, random).Validate() == None
    ensures Oauth.ValidateRequestedScopes(App(), Request(s, random).scope)
  {
    Oauth.ComputedChallengeValidates(s.cfg.sha, Request(s, random), Oauth.FromRandom(random));
    Demo.DemoScopes();
  }

  // Up to the prompt

  lemma Snoc(s: Settings, start: int, actions: seq<Action>, a: Action)
    ensures Reached(s, start, actions + [a]) == Exec(s, Reached(s, start, actions), a)
  {
    assert (actions + [a])[..|actions|] == actions;
  }

  /** The provider is enabled for the first application alone. */
  function Enabled(): Providers {
    map[ProviderKey(0, "github") := Provider("c", [], true)]
  }

  /** Both applications are there, and nobody has tried to sign in. */
  predicate IsSetUp(s: Settings, now: int, w: World) {
    && w.core.db.registry == TwoClients(s) && w.core.db.sessions == Sessions.EMPTY && w.core.now == now
    && w.tables == [map[], Enabled()]
    && w.starts == map[] && w.callbacks == map[] && w.provisioning == Provisioning.EMPTY
  }

  predicate IsUntouched(w: World) {
    w.core.authorize == map[] && w.targets == map[] && w.prompts == map[] && w.box == Box(map[], {})
  }

  lemma CoreRegisters(s: Settings, core: CodeFlow.World, a: CodeFlow.Action, registry: Registration.Registry)
    requires a.RegisterApp?
    requires Registration.AfterRegisterApp(s.cfg.parse, s.cfg.sha, core.db.registry, a.app, a.client, a.randomId, a.randomSecret)
             == Some(registry)
    ensures var next := CodeFlow.Exec(s.cfg, core, a);
            && next.db.registry == registry && next.db.sessions == core.db.sessions
            && next.now == core.now && next.authorize == core.authorize
  {
  }

  lemma SetUp(s: Settings, start: int) returns (actions: seq<Action>)
    requires IsUsual(s)
    ensures IsSetUp(s, start, Reached(s, start, actions)) && IsUntouched(Reached(s, start, actions))
  {
    var first, second := System(Register(0)), System(Register(1));
    var w := Initial(start);
    FirstRegisters(s);
    CoreRegisters(s, w.core, Register(0), Registration.Registry([App()], [ClientOf(s, 0)]));
    SystemExec(s, w, Register(0));
    var u := Exec(s, w, first);
    SecondRegisters(s);
    CoreRegisters(s, u.core, Register(1), TwoClients(s));
    SystemExec(s, u, Register(1));
    var v := Exec(s, u, second);
    Snoc(s, start, [], first);
    Snoc(s, start, [] + [first], second);
    Snoc(s, start, [] + [first] + [second], ChangeProviders(Enabled()));
    EnablesProvider(s, v);
    actions := [] + [first] + [second] + [ChangeProviders(Enabled())];
  }

  lemma EnablesProvider(s: Settings, w: World)
    requires w.tables == [map[]]
    ensures var w' := Exec(s, w, ChangeProviders(Enabled()));
            w' == w.(tables := [map[], Enabled()], step := w.step + 1)
  {
    assert [map[]] + [Enabled()] == [map[], Enabled()];
  }

  /** Request 0 is the only one, came in the target of the scenario and stands at `st`. */
  predicate AsksAt(s: Settings, t: Target, now: int, w: World, st: CodeFlow.AuthorizeState) {
    && IsSetUp(s, now, w)
    && w.core.authorize == map[0 := st] && w.targets == map[0 := t]
    && w.prompts == map[] && w.box == Box(map[], {})
  }

  lemma ComesIn(s: Settings, random: Random, now: int, w: World) returns (input: CodeFlow.AuthorizeInput)
    requires IsUsual(s) && IsSetUp(s, now, w) && IsUntouched(w)
    ensures input.req == Request(s, random) && input.cookie == None
    ensures AsksAt(s, TargetOf(s, random), now, Exec(s, w, Authorize(0, TargetOf(s, random), None, None)), CodeFlow.AStart(input))
  {
    TargetReads(s, random);
    var a := Authorize(0, TargetOf(s, random), None, None);
    input := Arriving(s, w, a).authorizeInput;
    AuthorizeExec(s, w, a);
    BeginAuthorizeStep(s, w.core, 0, input);
    Arrived(s, w.core, input);
  }

  lemma Arrived(s: Settings, core: CodeFlow.World, input: CodeFlow.AuthorizeInput)
    requires core.authorize == map[]
    ensures var next := CodeFlow.Exec(s.cfg, core, CodeFlow.BeginAuthorize(0, input));
            next.now == core.now && next.db == core.db
  {
  }

  /** Its next step leaves the tables alone. */
  lemma Walk(s: Settings, t: Target, now: int, w: World, st: CodeFlow.AuthorizeState, next: CodeFlow.AuthorizeState)
    requires AsksAt(s, t, now, w, st) && !st.APrompt?
    requires CodeFlow.AuthorizeStep(s.cfg, w.core.db, now, false, st) == (w.core.db, next)
    ensures AsksAt(s, t, now, Exec(s, w, System(CodeFlow.StepAuthorize(0, false))), next)
  {
    SystemExec(s, w, CodeFlow.StepAuthorize(0, false));
    CoreWalks(s, w.core, st, next);
  }

  lemma CoreWalks(s: Settings, core: CodeFlow.World, st: CodeFlow.AuthorizeState, next: CodeFlow.AuthorizeState)
    requires core.authorize == map[0 := st]
    requires CodeFlow.AuthorizeStep(s.cfg, core.db, core.now, false, st) == (core.db, next)
    ensures var after := CodeFlow.Exec(s.cfg, core, CodeFlow.StepAuthorize(0, false));
            after.db == core.db && after.now == core.now && after.authorize == map[0 := next]
  {
    Flow.QuietAuthorizeExec(s.cfg, core, 0, false);
    assert map[0 := st][0 := next] == map[0 := next];
  }

  /** The client of the request. */
  function AdmittedFor(s: Settings): CodeFlow.Admitted {
    CodeFlow.Admitted(1, ClientOf(s, 1), App())
  }

  /** Without a session the request goes on to the prompt. */
  lemma GoesToPrompt(s: Settings, random: Random, db: CodeFlow.Db, now: int, input: CodeFlow.AuthorizeInput)
    requires db.registry == TwoClients(s) && input.req == Request(s, random) && input.cookie == None
    ensures CodeFlow.AuthorizeStep(s.cfg, db, now, false, CodeFlow.AStart(input)) == (db, CodeFlow.AHandler(input, None))
    ensures CodeFlow.AuthorizeStep(s.cfg, db, now, false, CodeFlow.AHandler(input, None))
            == (db, CodeFlow.AClientRead(input, None, 1, ClientOf(s, 1)))
    ensures CodeFlow.AuthorizeStep(s.cfg, db, now, false, CodeFlow.AClientRead(input, None, 1, ClientOf(s, 1)))
            == (db, CodeFlow.APrompt(input, AdmittedFor(s)))
  {
    FindClients(s);
    ClientIs(s, 1);
    RequestIsServed(s, random);
    ReadsClient(s, db, now, input, 1);
    ReadsApp(s, db, now, input, 1, ClientOf(s, 1));
  }

  lemma ReadsClient(s: Settings, db: CodeFlow.Db, now: int, input: CodeFlow.AuthorizeInput, i: nat)
    requires input.cookie == None && input.req.clientId != "" && input.req.redirectURI != "" && input.req.Validate() == None
    requires Registration.FindClient(db.registry.clients, input.req.clientId) == Some(i)
    requires input.req.redirectURI in db.registry.clients[i].redirectURIs
    ensures CodeFlow.AuthorizeStep(s.cfg, db, now, false, CodeFlow.AStart(input)) == (db, CodeFlow.AHandler(input, None))
    ensures CodeFlow.AuthorizeStep(s.cfg, db, now, false, CodeFlow.AHandler(input, None))
            == (db, CodeFlow.AClientRead(input, None, i, db.registry.clients[i]))
  {
  }

  lemma ReadsApp(s: Settings, db: CodeFlow.Db, now: int, input: CodeFlow.AuthorizeInput, i: nat, row: Client)
    requires row.applicationId < |db.registry.apps|
    requires Oauth.ValidateRequestedScopes(db.registry.apps[row.applicationId], input.req.scope)
    ensures CodeFlow.AuthorizeStep(s.cfg, db, now, false, CodeFlow.AClientRead(input, None, i, row))
            == (db, CodeFlow.APrompt(input, CodeFlow.Admitted(i, row, db.registry.apps[row.applicationId])))
  {
  }

  lemma WalksToPrompt(s: Settings, random: Random, start: int, first: seq<Action>, input: CodeFlow.AuthorizeInput)
    returns (actions: seq<Action>)
    requires input.req == Request(s, random) && input.cookie == None
    requires AsksAt(s, TargetOf(s, random), start, Reached(s, start, first), CodeFlow.AStart(input))
    ensures AsksAt(s, TargetOf(s, random), start, Reached(s, start, actions), CodeFlow.APrompt(input, AdmittedFor(s)))
  {
    var step := System(CodeFlow.StepAuthorize(0, false));
    var w := Reached(s, start, first);
    GoesToPrompt(s, random, w.core.db, start, input);
    Walk(s, TargetOf(s, random), start, w, CodeFlow.AStart(input), CodeFlow.AHandler(input, None));
    Snoc(s, start, first, step);
    var u := Exec(s, w, step);
    GoesToPrompt(s, random, u.core.db, start, input);
    var read := CodeFlow.AClientRead(input, None, 1, ClientOf(s, 1));
    Walk(s, TargetOf(s, random), start, u, CodeFlow.AHandler(input, None), read);
    Snoc(s, start, first + [step], step);
    var v := Exec(s, u, step);
    GoesToPrompt(s, random, v.core.db, start, input);
    Walk(s, TargetOf(s, random), start, v, read, CodeFlow.APrompt(input, AdmittedFor(s)));
    Snoc(s, start, first + [step] + [step], step);
    actions := first + [step] + [step] + [step];
  }

  /** The prompt is rendered, with the target sealed in the browser's cookie. */
  predicate IsPrompted(s: Settings, t: Target, now: int, w: World) {
    IsSetUp(s, now, w) && w.box == Box(map[[0] := t.Uri()], {[0]})
  }

  lemma CorePrompts(s: Settings, core: CodeFlow.World, input: CodeFlow.AuthorizeInput, a: CodeFlow.Admitted)
    requires core.authorize == map[0 := CodeFlow.APrompt(input, a)]
    ensures var after := CodeFlow.Exec(s.cfg, core, CodeFlow.StepAuthorize(0, false));
            after.db == core.db && after.now == core.now
  {
    CoreWalks(s, core, CodeFlow.APrompt(input, a), CodeFlow.ADone(input, CodeFlow.Prompt(a), None));
  }

  lemma FirstGiven(text: string)
    ensures Box(map[], {}).Give([0], text) == Box(map[[0] := text], {[0]})
  {
  }

  lemma Prompts(s: Settings, t: Target, now: int, w: World, input: CodeFlow.AuthorizeInput, a: CodeFlow.Admitted)
    requires AsksAt(s, t, now, w, CodeFlow.APrompt(input, a))
    ensures IsPrompted(s, t, now, Exec(s, w, Prompt(0, false, Some([0]))))
  {
    PromptCases(s, w, Prompt(0, false, Some([0])));
    CorePrompts(s, w.core, input, a);
    FirstGiven(t.Uri());
  }

  lemma PromptIsReached(s: Settings, random: Random, start: int) returns (actions: seq<Action>)
    requires IsUsual(s)
    ensures IsPrompted(s, TargetOf(s, random), start, Reached(s, start, actions))
  {
    actions := SetUp(s, start);
    var come := Authorize(0, TargetOf(s, random), None, None);
    var input := ComesIn(s, random, start, Reached(s, start, actions));
    Snoc(s, start, actions, come);
    actions := WalksToPrompt(s, random, start, actions + [come], input);
    Prompts(s, TargetOf(s, random), start, Reached(s, start, actions), input, AdmittedFor(s));
    Snoc(s, start, actions, Prompt(0, false, Some([0])));
    actions := actions + [Prompt(0, false, Some([0]))];
  }

  // The start

  function NoFaults(): Faults {
    (n: nat) => false
  }

  function Cookie(cipher: Bytes): Option<string> {
    Some(Base64.Encode(Base64.Url, cipher))
  }

  lemma CookieOpens(box: Box, cipher: Bytes)
    requires cipher in box.sealed && cipher in box.given
    ensures box.MayPresent(Cookie(cipher)) && box.Open(Cookie(cipher).value) == Some(box.sealed[cipher])
  {
    Base64.RoundTrip(Base64.Url, cipher);
  }

  lemma Supported()
    ensures Text.ToLower("github") == "github" && IsSupported("github") && !UsesPKCE("github")
  {
  }

  lemma StartOpens(s: Settings, box: Box, here: Moment, cipher: Bytes)
    requires cipher in box.sealed && cipher in box.given
    requires Text.HasPrefix(box.sealed[cipher], RETURN_PREFIX) && s.parses(box.sealed[cipher])
    ensures BeginStart(s, box, here, "github", Cookie(cipher)) == SOpened(Attempt("github", box.sealed[cipher], here))
  {
    Supported();
    CookieOpens(box, cipher);
  }

  lemma StartChooses(s: Settings, registry: Registration.Registry, p: Numbered, a: Attempt, i: nat)
    requires Registration.FindClient(registry.clients, StoredClientId(s, a.returnTo)) == Some(i)
    requires registry.clients[i].applicationId < |registry.apps|
    requires IsEnabled(p.table, registry.clients[i].applicationId, a.provider)
    ensures StartAlone(s, registry, p, SOpened(a), NoFaults()) == SChosen(Chosen(a, i, registry.clients[i], p.at))
  {
  }

  lemma StartSeals(s: Settings, box: Box, when: Moment, c: Chosen, random: Random, cipher: Bytes)
    requires !UsesPKCE(c.attempt.provider)
    ensures Seal(s, box, when, SChosen(c), Randoms(Some(random), None), Some(cipher)).0
            == box.Give(cipher, s.marshal(StartPayload(s, when.now, c, random, "")))
  {
  }

  /** The payload of a start with this target. */
  function PayloadOf(to: string, random: Random, now: int): Payload {
    Payload("github", Oauth.FromRandom(random), 0, to, "", CodeFlow.Unix(now + AUTHORIZE_REQUEST_TTL))
  }

  /** The start has been redirected, with its payload sealed in the browser's cookie. */
  predicate IsSent(s: Settings, to: string, random: Random, now: int, w: World) {
    && w.core.db.registry == TwoClients(s) && w.core.db.sessions == Sessions.EMPTY && w.core.now == now
    && w.tables == [map[], Enabled()] && w.callbacks == map[] && w.provisioning == Provisioning.EMPTY
    && [1] in w.box.sealed && [1] in w.box.given && w.box.sealed[[1]] == s.marshal(PayloadOf(to, random, now))
  }

  function Starting(random: Random): seq<Action> {
    [Start(0, "github", Cookie([0]))] + Statements(0, NoFaults()) + [Redirect(0, Randoms(Some(random), None), Some([1]))]
  }

  /** The start reads the first client in this target. */
  predicate IsMisread(s: Settings, t: Target) {
    Text.HasPrefix(t.Uri(), RETURN_PREFIX) && StoredClientId(s, t.Uri()) == "00"
  }

  /** The box after the whole start. */
  function StartedBox(s: Settings, w: World, random: Random): Box
    requires w.tables != []
  {
    var begun := BeginStart(s, w.box, Here(w), "github", Cookie([0]));
    var alone := StartAlone(s, w.core.db.registry, CurrentNumbered(w), begun, NoFaults());
    Seal(s, w.box, Here(w).(step := w.step + 4), alone, Randoms(Some(random), None), Some([1])).0
  }

  /** What it has chosen before it seals. */
  function ChosenBy(s: Settings, w: World, to: string): Chosen
    requires w.tables != []
  {
    Chosen(Attempt("github", to, Here(w)), 0, ClientOf(s, 0), CurrentNumbered(w).at)
  }

  lemma StartChoosesFirst(s: Settings, w: World, to: string)
    requires [0] in w.box.sealed && [0] in w.box.given && w.box.sealed[[0]] == to
    requires Text.HasPrefix(to, RETURN_PREFIX) && s.parses(to) && StoredClientId(s, to) == "00"
    requires w.core.db.registry == TwoClients(s) && w.tables == [map[], Enabled()]
    ensures StartAlone(s, w.core.db.registry, CurrentNumbered(w), BeginStart(s, w.box, Here(w), "github", Cookie([0])), NoFaults())
            == SChosen(ChosenBy(s, w, to))
  {
    FindClients(s);
    ClientIs(s, 0);
    StartOpens(s, w.box, Here(w), [0]);
    StartChooses(s, w.core.db.registry, CurrentNumbered(w), Attempt("github", to, Here(w)), 0);
  }

  lemma StartIs(s: Settings, w: World, to: string, random: Random)
    requires [0] in w.box.sealed && [0] in w.box.given && w.box.sealed[[0]] == to
    requires Text.HasPrefix(to, RETURN_PREFIX) && s.parses(to) && StoredClientId(s, to) == "00"
    requires w.core.db.registry == TwoClients(s) && w.tables == [map[], Enabled()]
    ensures StartedBox(s, w, random) == w.box.Give([1], s.marshal(PayloadOf(to, random, w.core.now)))
  {
    StartChoosesFirst(s, w, to);
    ClientIs(s, 0);
    SealsChosen(s, w, ChosenBy(s, w, to), random);
  }

  lemma SealsChosen(s: Settings, w: World, c: Chosen, random: Random)
    requires w.tables != [] && c.attempt.provider == "github" && c.clientRow.applicationId == 0
    requires StartAlone(s, w.core.db.registry, CurrentNumbered(w), BeginStart(s, w.box, Here(w), "github", Cookie([0])), NoFaults())
             == SChosen(c)
    ensures StartedBox(s, w, random) == w.box.Give([1], s.marshal(PayloadOf(c.attempt.returnTo, random, w.core.now)))
  {
    SealsFor(s, w.box, Here(w).(step := w.step + 4), c, random);
  }

  lemma SealsFor(s: Settings, box: Box, when: Moment, c: Chosen, random: Random)
    requires c.attempt.provider == "github" && c.clientRow.applicationId == 0
    ensures Seal(s, box, when, SChosen(c), Randoms(Some(random), None), Some([1])).0
            == box.Give([1], s.marshal(PayloadOf(c.attempt.returnTo, random, when.now)))
  {
    Supported();
    StartSeals(s, box, when, c, random, [1]);
    assert StartPayload(s, when.now, c, random, "") == PayloadOf(c.attempt.returnTo, random, when.now);
  }

  lemma StartRuns(s: Settings, t: Target, random: Random, now: int, w: World)
    requires IsUsual(s) && IsPrompted(s, t, now, w) && IsMisread(s, t)
    ensures IsSent(s, t.Uri(), random, now, Run(s, w, Starting(random)))
  {
    PromptedIsReady(s, t, now, w);
    StartingRuns(s, w, random);
    Sent(s, t, random, now, w, Run(s, w, Starting(random)));
  }

  /** The browser has the first cookie, and the second one is not yet sealed. */
  predicate IsReady(w: World) {
    && w.tables != [] && w.starts == map[]
    && w.box.MayPresent(Cookie([0])) && [1] !in w.box.sealed
  }

  lemma PromptedIsReady(s: Settings, t: Target, now: int, w: World)
    requires IsPrompted(s, t, now, w)
    ensures IsReady(w)
  {
    CookieOpens(w.box, [0]);
  }

  lemma StartingRuns(s: Settings, w: World, random: Random)
    requires IsReady(w)
    ensures MovesStarts(w, Run(s, w, Starting(random))) && Run(s, w, Starting(random)).box == StartedBox(s, w, random)
  {
    StartIsRun(s, w, 0, "github", Cookie([0]), Randoms(Some(random), None), Some([1]), NoFaults());
  }

  lemma Sent(s: Settings, t: Target, random: Random, now: int, w: World, w': World)
    requires IsUsual(s) && IsPrompted(s, t, now, w) && IsMisread(s, t)
    requires MovesStarts(w, w') && w'.box == StartedBox(s, w, random)
    ensures IsSent(s, t.Uri(), random, now, w')
  {
    StartIs(s, w, t.Uri(), random);
  }

  // The callback

  function Answer(): Identity {
    Identity("github", "1", "", false, "")
  }

  function Coming(random: Random): CallbackInput {
    CallbackInput("github", "", "c", Oauth.FromRandom(random), Cookie([1]))
  }

  lemma CallbackOpens(s: Settings, box: Box, here: Moment, to: string, random: Random, now: int)
    requires IsJson(s) && Text.HasPrefix(to, RETURN_PREFIX) && here.now == now
    requires [1] in box.sealed && [1] in box.given && box.sealed[[1]] == s.marshal(PayloadOf(to, random, now))
    ensures BeginCallback(s, box, here, Coming(random)) == COpened(Begun(Coming(random), here, PayloadOf(to, random, now)))
  {
    Supported();
    CookieOpens(box, [1]);
    Base64.EncodeLength(Base64.Url, random);
    assert s.unmarshal(s.marshal(PayloadOf(to, random, now))) == Some(PayloadOf(to, random, now));
  }

  lemma CallbackGoesOn(accounts: Provisioning.Accounts, p: Numbered, begun: Begun, id: Identity, random: Option<Bytes>)
    requires IsEnabled(p.table, begun.payload.applicationId, begun.payload.provider) && id.provider == begun.payload.provider
    ensures CallbackAlone(accounts, p, COpened(begun), NoFaults(), Some(id), random, NoFaults())
            == ProvisionAlone(accounts, CProvisioning(Allowed(begun, p.at), id), random, NoFaults())
  {
  }

  /** The first identity to come, vouching for no address, gets the first user. */
  lemma FirstUser(id: Identity, random: Bytes)
    requires !id.emailVerified
    ensures var st := Provisioning.Alone(Provisioning.EMPTY.accounts, Provisioning.Start(Provisioning.Input(id, Some(random))),
                                         NoFaults(), 0).1;
            st.Finished? && st.outcome.Provisioned? && st.outcome.user == 0
  {
    var input, a := Provisioning.Input(id, Some(random)), Provisioning.EMPTY.accounts;
    Provisioning.Continues(a, Provisioning.Start(input), NoFaults(), 0);
    Provisioning.Continues(a, Provisioning.Creating(input), NoFaults(), 1);
  }

  /** The accounts and the callback before its session. */
  function Accepting(s: Settings, w: World, random: Random): (Provisioning.Accounts, CallbackState)
    requires w.tables != []
  {
    AcceptedAs(s, w, Coming(random), NoFaults(), Some(Answer()), Some(random), NoFaults())
  }

  lemma CallbackIs(s: Settings, w: World, to: string, random: Random)
    requires IsJson(s) && IsSent(s, to, random, w.core.now, w) && Text.HasPrefix(to, RETURN_PREFIX)
    ensures var c := Accepting(s, w, random).1;
            c.CProvisioned? && c.allowed.begun.payload == PayloadOf(to, random, w.core.now)
  {
    CallbackOpens(s, w.box, Here(w), to, random, w.core.now);
    CallbackProvisions(CurrentNumbered(w), Begun(Coming(random), Here(w), PayloadOf(to, random, w.core.now)), random);
  }

  lemma CallbackProvisions(p: Numbered, begun: Begun, random: Bytes)
    requires IsEnabled(p.table, begun.payload.applicationId, begun.payload.provider) && begun.payload.provider == "github"
    ensures var c := CallbackAlone(Provisioning.EMPTY.accounts, p, COpened(begun), NoFaults(), Some(Answer()), Some(random),
                                   NoFaults()).1;
            c.CProvisioned? && c.allowed.begun == begun
  {
    CallbackGoesOn(Provisioning.EMPTY.accounts, p, begun, Answer(), Some(random));
    FirstUser(Answer(), random);
  }

  /** No callback has come in, and the browser can present the second cookie. */
  predicate IsAwaited(w: World) {
    && w.tables != [] && w.callbacks == map[] && w.provisioning.requests == map[]
    && w.core.db.sessions == Sessions.EMPTY && w.box.MayPresent(Cookie([1]))
  }

  lemma SentIsAwaited(s: Settings, to: string, random: Random, now: int, w: World)
    requires IsSent(s, to, random, now, w)
    ensures IsAwaited(w)
  {
    CookieOpens(w.box, [1]);
  }

  lemma ComingRuns(s: Settings, w: World, random: Random) returns (actions: seq<Action>)
    requires IsAwaited(w)
    ensures Finishes(s, w, Run(s, w, actions), 0, 0, Some("t"), Accepting(s, w, random))
  {
    var middle := CallbackIsRun(s, w, 0, Coming(random), NoFaults(), Some(Answer()), Some(random), NoFaults(), 0, Some("t"));
    actions := Exchanging(0, Coming(random), NoFaults(), Some(Answer()), Some(random)) + middle + Finishing(0, 0, Some("t"));
  }

  lemma FirstSession(s: Settings, w: World, w': World, result: (Provisioning.Accounts, CallbackState))
    requires w.core.db.sessions == Sessions.EMPTY && result.1.CProvisioned?
    requires Finishes(s, w, w', 0, 0, Some("t"), result)
    ensures 0 in w'.callbacks && w'.callbacks[0].CSignedIn?
    ensures w'.callbacks[0].to == result.1.allowed.begun.payload.returnTo
  {
  }

  lemma CallbackRuns(s: Settings, to: string, random: Random, now: int, w: World) returns (actions: seq<Action>)
    requires IsJson(s) && IsSent(s, to, random, now, w) && Text.HasPrefix(to, RETURN_PREFIX)
    ensures var w' := Run(s, w, actions);
            0 in w'.callbacks && w'.callbacks[0].CSignedIn? && w'.callbacks[0].to == to
  {
    SentIsAwaited(s, to, random, now, w);
    actions := ComingRuns(s, w, random);
    CallbackIs(s, w, to, random);
    FirstSession(s, w, Run(s, w, actions), Accepting(s, w, random));
  }

  // The whole run

  lemma UriDetermines(t: Target, u: Target)
    requires t.Valid() && u.Valid() && t.Uri() == u.Uri()
    ensures t == u
  {
    Text.SplitConcat(t.path, '?', t.rawQuery);
    Text.SplitConcat(u.path, '?', u.rawQuery);
    assert t.Uri() == t.path + ['?'] + t.rawQuery && u.Uri() == u.path + ['?'] + u.rawQuery;
    assert Text.Split(t.Uri(), '?')[0] == t.path && Text.Split(u.Uri(), '?')[0] == u.path;
    assert t.rawQuery == t.Uri()[|t.path| + 1..] && u.rawQuery == u.Uri()[|u.path| + 1..];
  }

  /** Whoever it came from, the sign-in ran for another application than the one that was prompted. */
  ghost predicate IsMisdirected(s: Settings, w: World, c: nat) {
    && c in w.callbacks && w.callbacks[c].CSignedIn?
    && (exists p: nat, r: nat :: ComesFrom(s, w, c, p, r))
    && forall p: nat, r: nat :: ComesFrom(s, w, c, p, r) ==>
         w.callbacks[c].signedIn.allowed.begun.payload.applicationId != w.core.authorize[p].outcome.admitted.clientRow.applicationId
  }

  lemma RegistryStays(s: Settings, start: int, first: seq<Action>, more: seq<Action>)
    requires IsJson(s)
    ensures Reached(s, start, first).core.db.registry.clients <= Reached(s, start, first + more).core.db.registry.clients
  {
    assert (first + more)[..|first|] == first;
    RunExtends(s, start, first + more, |first|);
  }

  lemma NotOne(registry: Registration.Registry, x: string, y: string, i: nat, j: nat)
    requires Registration.FindClient(registry.clients, x) == Some(i) && Registration.FindClient(registry.clients, y) == Some(j)
    requires registry.clients[i].applicationId != registry.clients[j].applicationId
    ensures !SameApplication(registry, x, y)
  {
  }

  lemma StillThere(s: Settings, core: CodeFlow.World, i: byte)
    requires Flow.DbOk(s.cfg, core) && i < |core.db.registry.clients| && core.db.registry.clients[i] == ClientOf(s, i)
    ensures Registration.FindClient(core.db.registry.clients, Registration.Hex([i])) == Some(i)
    ensures core.db.registry.clients[i].applicationId == i
  {
    ClientIs(s, i);
    FlowResults.OneClientPerId(s.cfg, core, i);
  }

  lemma NotOneApplication(s: Settings, core: CodeFlow.World)
    requires Flow.DbOk(s.cfg, core) && TwoClients(s).clients <= core.db.registry.clients
    ensures !SameApplication(core.db.registry, "00", "01")
  {
    var clients := TwoClients(s).clients;
    assert core.db.registry.clients[0] == clients[0] && core.db.registry.clients[1] == clients[1];
    StillThere(s, core, 0);
    StillThere(s, core, 1);
    Ids();
    NotOne(core.db.registry, "00", "01", 0, 1);
  }

  lemma Misdirects(s: Settings, start: int, actions: seq<Action>, random: Random)
    requires IsUsual(s)
    requires var w := Reached(s, start, actions);
             && 0 in w.callbacks && w.callbacks[0].CSignedIn? && w.callbacks[0].to == TargetOf(s, random).Uri()
             && TwoClients(s).clients <= w.core.db.registry.clients
    ensures IsMisdirected(s, Reached(s, start, actions), 0)
  {
    var w, t := Reached(s, start, actions), TargetOf(s, random);
    SignInHasProvenance(s, start, actions, 0);
    RegistryTells(s, start, actions);
    TargetReads(s, random);
    StoredIdIsRequested(s, t);
    forall p: nat, r: nat | ComesFrom(s, w, 0, p, r)
      ensures w.callbacks[0].signedIn.allowed.begun.payload.applicationId
              != w.core.authorize[p].outcome.admitted.clientRow.applicationId
    {
      UriDetermines(w.targets[p], t);
      SignInIsForThePromptedClient(s, start, actions, 0, p, r);
    }
  }

  lemma RegistryTells(s: Settings, start: int, actions: seq<Action>)
    requires IsJson(s) && TwoClients(s).clients <= Reached(s, start, actions).core.db.registry.clients
    ensures !SameApplication(Reached(s, start, actions).core.db.registry, "00", "01")
  {
    RunKeeps(s, start, actions);
    NotOneApplication(s, Reached(s, start, actions).core);
  }

  /** From the empty system, with any digest and any such codec, a run ends with a misdirected sign-in. */
  lemma ApplicationsCanDiffer(s: Settings, start: int, random: Random) returns (actions: seq<Action>)
    requires IsUsual(s)
    ensures IsMisdirected(s, Reached(s, start, actions), 0)
  {
    var t := TargetOf(s, random);
    TargetReads(s, random);
    var first := PromptIsReached(s, random, start);
    StartRuns(s, t, random, start, Reached(s, start, first));
    RunConcat(s, Initial(start), first, Starting(random));
    var sent := first + Starting(random);
    var more := CallbackRuns(s, t.Uri(), random, start, Reached(s, start, sent));
    RunConcat(s, Initial(start), sent, more);
    actions := sent + more;
    RegistryStays(s, start, sent, more);
    Misdirects(s, start, actions, random);
  }

  // Such settings exist

  /** A text that tells where it ends. */
  function Quote(x: string): string {
    if x == "" then "0" else ['1', x[0]] + Quote(x[1..])
  }

  lemma {:induction false} QuoteEnds(x: string, y: string, u: string, v: string)
    requires Quote(x) + u == Quote(y) + v
    ensures x == y && u == v
  {
    assert (Quote(x) + u)[0] == Quote(x)[0] && (Quote(y) + v)[0] == Quote(y)[0];
    if x == "" || y == "" {
      assert u == (Quote(x) + u)[1..] && v == (Quote(y) + v)[1..];
    } else {
      assert (Quote(x) + u)[1] == x[0] && (Quote(y) + v)[1] == y[0];
      assert (Quote(x) + u)[2..] == Quote(x[1..]) + u && (Quote(y) + v)[2..] == Quote(y[1..]) + v;
      QuoteEnds(x[1..], y[1..], u, v);
    }
  }

  function Number(n: int): string {
    if n < 0 then "-" + Decimal.Print(-n) else "+" + Decimal.Print(n)
  }

  lemma NumberTells(m: int, n: int)
    requires Number(m) == Number(n)
    ensures m == n
  {
    var x, y := if m < 0 then -m else m, if n < 0 then -n else n;
    Decimal.PrintValue(x);
    Decimal.PrintValue(y);
    assert Number(m)[0] == Number(n)[0] && Number(m)[1..] == Decimal.Print(x) && Number(n)[1..] == Decimal.Print(y);
  }

  function Marshal(p: Payload): string {
    "{" + (Quote(p.provider) + (Quote(p.state) + (Quote(Number(p.applicationId)) + (Quote(p.returnTo)
        + (Quote(p.verifier) + (Quote(Number(p.expiresAt)) + ""))))))
  }

  lemma MarshalTells(p: Payload, q: Payload)
    requires Marshal(p) == Marshal(q)
    ensures p == q
  {
    var x5, y5 := Quote(Number(p.expiresAt)) + "", Quote(Number(q.expiresAt)) + "";
    var x4, y4 := Quote(p.verifier) + x5, Quote(q.verifier) + y5;
    var x3, y3 := Quote(p.returnTo) + x4, Quote(q.returnTo) + y4;
    var x2, y2 := Quote(Number(p.applicationId)) + x3, Quote(Number(q.applicationId)) + y3;
    var x1, y1 := Quote(p.state) + x2, Quote(q.state) + y2;
    assert Marshal(p)[1..] == Quote(p.provider) + x1 && Marshal(q)[1..] == Quote(q.provider) + y1;
    QuoteEnds(p.provider, q.provider, x1, y1);
    QuoteEnds(p.state, q.state, x2, y2);
    QuoteEnds(Number(p.applicationId), Number(q.applicationId), x3, y3);
    QuoteEnds(p.returnTo, q.returnTo, x4, y4);
    QuoteEnds(p.verifier, q.verifier, x5, y5);
    QuoteEnds(Number(p.expiresAt), Number(q.expiresAt), "", "");
    NumberTells(p.applicationId, q.applicationId);
    NumberTells(p.expiresAt, q.expiresAt);
  }

  ghost function Unmarshal(text: string): (r: Option<Payload>)
    ensures r.Some? ==> Marshal(r.value) == text
    ensures r.None? ==> forall p :: Marshal(p) != text
  {
    if exists p :: Marshal(p) == text then
      var p :| Marshal(p) == text;
      Some(p)
    else None
  }

  lemma UsualSettingsExist(sha: Digest) returns (s: Settings)
    ensures IsUsual(s) && s.cfg.sha == sha
  {
    s := Settings(Demo.DemoConfig(sha), 3600 * SECOND, (x: string) => Some(x), (t: string) => true, Marshal,
                  (t: string) => Unmarshal(t));
    forall p: Payload ensures s.unmarshal(s.marshal(p)) == Some(p) && Text.HasPrefix(s.marshal(p), "{") {
      UnmarshalsBack(p);
    }
    forall t: string | Text.HasPrefix(t, "/") ensures s.unmarshal(t) == None {
      UnmarshalsNoTarget(t);
    }
  }

  lemma UnmarshalsBack(p: Payload)
    ensures Unmarshal(Marshal(p)) == Some(p) && Text.HasPrefix(Marshal(p), "{")
  {
    MarshalTells(p, Unmarshal(Marshal(p)).value);
  }

  lemma UnmarshalsNoTarget(t: string)
    requires Text.HasPrefix(t, "/")
    ensures Unmarshal(t) == None
  {
    forall p: Payload ensures Marshal(p) != t {
      assert Marshal(p)[0] == '{' && t[0] == '/';
    }
  }
}
