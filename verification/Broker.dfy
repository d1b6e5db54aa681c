/**
  Brokered sign-in: the authorization prompt, the start and the callback of a
  sign-in at an upstream provider. State passes from one to the next only in
  sealed cookies. The steps run on top of the code flow's system.
*/
module Broker {
  import opened Prelude
  import opened Models
  import CodeFlow
  import Base64
  import Oauth
  import Provisioning
  import Query
  import Registration
  import Sessions
  import Text
  import opened Upstream

  const AUTHORIZE_REQUEST_TTL: int := 600 * SECOND

  const RETURN_PREFIX := "/authorize?"

  /** `upstreamState`. */
  datatype Payload = Payload(
    provider: string, state: string, applicationId: nat, returnTo: string, verifier: string, expiresAt: int)

  /** `parses` says whether `url.Parse` accepts a stored target; the codec is the JSON one. */
  datatype Settings = Settings(
    cfg: CodeFlow.Config,
    sessionTtl: int,
    unescape: Query.Unescape,
    parses: string -> bool,
    marshal: Payload -> string,
    unmarshal: string -> Option<Payload>)

  /** What is used of JSON: decoding undoes encoding, and an object starts with a brace. */
  ghost predicate IsJson(s: Settings) {
    && (forall p :: s.unmarshal(s.marshal(p)) == Some(p))
    && (forall p :: Text.HasPrefix(s.marshal(p), "{"))
    && (forall t :: Text.HasPrefix(t, "/") ==> s.unmarshal(t) == None)
  }

  // Request targets

  /** The path is escaped, so it holds neither a question mark nor a hash. */
  datatype Target = Target(path: string, rawQuery: string) {
    predicate Valid() {
      Text.HasPrefix(path, "/") && '?' !in path && '#' !in path
    }

    /** `RequestURI()` of a target with a query. */
    function Uri(): string {
      path + "?" + rawQuery
    }
  }

  function ParseRequest(s: Settings, t: Target): Oauth.AuthorizeRequest {
    Oauth.AuthorizeRequest(
      Query.Get(s.unescape, t.rawQuery, "client_id"),
      Query.Get(s.unescape, t.rawQuery, "redirect_uri"),
      Query.Get(s.unescape, t.rawQuery, "response_type"),
      Query.Get(s.unescape, t.rawQuery, "state"),
      Query.Get(s.unescape, t.rawQuery, "scope"),
      Query.Get(s.unescape, t.rawQuery, "nonce"),
      Query.Get(s.unescape, t.rawQuery, "code_challenge"),
      Query.Get(s.unescape, t.rawQuery, "code_challenge_method"))
  }

  /** The client id the start handler reads from a stored target. */
  function StoredClientId(s: Settings, returnTo: string): string {
    Query.Get(s.unescape, Query.QueryOf(Query.BeforeFragment(returnTo)), "client_id")
  }

  // The sealed cookies

  /**
    An ideal box: a ciphertext opens to what was sealed in it and to nothing else.
    `given` holds the ciphertexts handed to browsers, as cookie values.
  */
  datatype Box = Box(sealed: map<Bytes, string>, given: set<Bytes>) {
    function Give(cipher: Bytes, text: string): Box {
      Box(sealed[cipher := text], given + {cipher})
    }

    /** Decoding and opening a cookie value. */
    function Open(value: string): Option<string> {
      match Base64.Decode(Base64.Url, value)
      case None => None
      case Some(cipher) => if cipher in sealed then Some(sealed[cipher]) else None
    }

    /** Browsers present values that decode to what they were given, or that open nothing. */
    predicate MayPresent(cookie: Option<string>) {
      cookie.Some? && Open(cookie.value).Some? ==> Base64.Decode(Base64.Url, cookie.value).value in given
    }

    /** `readAuthorizeRequest`. */
    function ReadPrompt(cookie: Option<string>): Option<string> {
      if cookie == None then None
      else
        match Open(cookie.value)
        case None => None
        case Some(text) => if Text.HasPrefix(text, RETURN_PREFIX) then Some(text) else None
    }

    /** `readUpstreamStateCookie`. */
    function ReadState(s: Settings, cookie: Option<string>): Option<Payload> {
      if cookie == None then None
      else
        match Open(cookie.value)
        case None => None
        case Some(text) =>
          match s.unmarshal(text)
          case None => None
          case Some(p) => if Text.HasPrefix(p.returnTo, RETURN_PREFIX) then Some(p) else None
    }
  }

  /** A state of the run: how many actions led to it, how many provider tables there were, the clock. */
  datatype Moment = Moment(step: nat, tables: nat, now: int)

  // Starting a sign-in

  /** What a start is for, and when it came in; nothing is decided by that. */
  datatype Attempt = Attempt(provider: string, returnTo: string, arrived: Moment)

  /** A start that may go on: its client, and the table in which its provider was enabled. */
  datatype Chosen = Chosen(attempt: Attempt, client: nat, clientRow: Client, at: nat)

  /** A redirect to the provider, sent at `when`; without PKCE its verifier and challenge are empty. */
  datatype Started = Started(chosen: Chosen, payload: Payload, challenge: string, when: Moment)

  datatype StartState =
    | SOpened(attempt: Attempt)
    | SClientRead(attempt: Attempt, client: nat, clientRow: Client)
    | SAppRead(attempt: Attempt, client: nat, clientRow: Client)
    | SChosen(chosen: Chosen)
    | SPage(status: nat)
    | SRedirected(started: Started)

  /** `GET /auth/upstream/{provider}/start` up to its first statement. */
  function BeginStart(s: Settings, box: Box, here: Moment, pathValue: string, cookie: Option<string>): StartState {
    var provider := Text.ToLower(pathValue);
    if !IsSupported(provider) then SPage(400)
    else
      match box.ReadPrompt(cookie)
      case None => SPage(400)
      case Some(returnTo) => if s.parses(returnTo) then SOpened(Attempt(provider, returnTo, here)) else SPage(400)
  }

  predicate UsesPKCE(provider: string) {
    provider == "google"
  }

  /** What `GenerateAuthorizationCode` reads from the random source. */
  type Random = b: Bytes | |b| == 32 witness seq(32, _ => 0)

  /**
    The state and verifier of one start; None when the random source fails, or, for
    the state, the provider's configuration.
  */
  datatype Randoms = Randoms(state: Option<Random>, verifier: Option<Random>)

  function StartPayload(s: Settings, now: int, c: Chosen, state: Random, verifier: string): Payload {
    Payload(c.attempt.provider, Oauth.FromRandom(state), c.clientRow.applicationId, c.attempt.returnTo, verifier,
            CodeFlow.Unix(now + AUTHORIZE_REQUEST_TTL))
  }

  /** The redirect to the provider, before its cookie is sealed. */
  function Redirected(s: Settings, here: Moment, c: Chosen, r: Randoms): StartState {
    if r.state == None then SPage(500)
    else if !UsesPKCE(c.attempt.provider) then
      SRedirected(Started(c, StartPayload(s, here.now, c, r.state.value, ""), "", here))
    else if r.verifier == None then SPage(500)
    else
      var verifier := Oauth.FromRandom(r.verifier.value);
      var challenge := Oauth.PKCEChallenge(s.cfg.sha, verifier);
      SRedirected(Started(c, StartPayload(s, here.now, c, r.state.value, verifier), challenge, here))
  }

  /** One statement of a start that has not been sealed; `at` numbers the provider table it meets. */
  function StartStep(s: Settings, registry: Registration.Registry, table: Providers, at: nat, fault: bool, st: StartState): StartState {
    match st
    case SOpened(o) =>
      if fault then SPage(400)
      else
        (match Registration.FindClient(registry.clients, StoredClientId(s, o.returnTo))
         case None => SPage(400)
         case Some(c) => SClientRead(o, c, registry.clients[c]))
    case SClientRead(o, c, row) =>
      if fault || row.applicationId >= |registry.apps| then SPage(500) else SAppRead(o, c, row)
    case SAppRead(o, c, row) =>
      if fault then SPage(500)
      else if IsEnabled(table, row.applicationId, o.provider) then SChosen(Chosen(o, c, row, at))
      else SPage(400)
    case _ => st
  }

  // Coming back from the provider

  datatype CallbackInput = CallbackInput(
    pathValue: string, error: string, code: string, state: string, cookie: Option<string>)

  /** A callback that passed the checks on its cookie, and when it came in. */
  datatype Begun = Begun(input: CallbackInput, arrived: Moment, payload: Payload)

  /** `at` is the table in which its provider was enabled. */
  datatype Allowed = Allowed(begun: Begun, at: nat)

  /** Signed in as the user provisioned for an identity, with a session made by the create event. */
  datatype SignedIn = SignedIn(allowed: Allowed, identity: Identity, user: nat, token: string, event: nat)

  datatype CallbackState =
    | COpened(begun: Begun)
    | CAllowed(allowed: Allowed)
    | CProvisioning(allowed: Allowed, identity: Identity)
    | CProvisioned(allowed: Allowed, identity: Identity, user: nat)
    | CPage(status: nat)
    | CSignedIn(signedIn: SignedIn, to: string)

  /** `GET /auth/upstream/{provider}/callback` up to its first statement. */
  function BeginCallback(s: Settings, box: Box, here: Moment, input: CallbackInput): CallbackState {
    var provider := Text.ToLower(input.pathValue);
    if !IsSupported(provider) || input.error != "" || input.code == "" || input.state == "" then CPage(400)
    else
      match box.ReadState(s, input.cookie)
      case None => CPage(400)
      case Some(p) =>
        if p.provider != provider || p.state != input.state || CodeFlow.Unix(here.now) > p.expiresAt then CPage(400)
        else COpened(Begun(input, here, p))
  }

  /**
    The provider check, then the exchange, unless the provider's configuration is
    at fault; its identity carries the name of the provider asked.
  */
  function CallbackStep(table: Providers, at: nat, fault: bool, exchanged: Option<Identity>, c: CallbackState): CallbackState {
    match c
    case COpened(begun) =>
      if fault || !IsEnabled(table, begun.payload.applicationId, begun.payload.provider) then CPage(400)
      else CAllowed(Allowed(begun, at))
    case CAllowed(a) =>
      if fault then CPage(500)
      else if exchanged == None then CPage(400)
      else CProvisioning(a, exchanged.value.(provider := a.begun.payload.provider))
    case _ => c
  }

  /** What the callback makes of where its provisioning stands. */
  function AfterProvisioning(a: Allowed, identity: Identity, st: Provisioning.State): CallbackState {
    match st
    case Finished(_, Provisioned(user, _)) => CProvisioned(a, identity, user)
    case Finished(_, Failed) => CPage(500)
    case _ => CProvisioning(a, identity)
  }

  // The whole system

  /**
    `tables` are the provider tables so far, the last one current. `targets` holds
    the raw target of every authorization request, `prompts` the steps at which
    prompts were rendered. Callback r provisions its user as request r.
  */
  datatype World = World(
    step: nat,
    core: CodeFlow.World,
    provisioning: Provisioning.World,
    tables: seq<Providers>,
    box: Box,
    targets: map<nat, Target>,
    prompts: map<nat, nat>,
    starts: map<nat, StartState>,
    callbacks: map<nat, CallbackState>)

  /**
    `cipher` is the fresh ciphertext of a seal; None when sealing fails. `exchanged`
    is the provider's answer and `random` the buffer for a new user's subject.
  */
  datatype Action =
    | System(action: CodeFlow.Action)
    | Authorize(request: nat, target: Target, cookie: Option<string>, random: Option<Bytes>)
    | Prompt(request: nat, fault: bool, cipher: Option<Bytes>)
    | ChangeProviders(table: Providers)
    | SealSecret(cipherText: Bytes, plain: string)
    | Start(request: nat, pathValue: string, cookie: Option<string>)
    | StepStart(request: nat, fault: bool)
    | Redirect(request: nat, randoms: Randoms, cipher: Option<Bytes>)
    | Callback(request: nat, input: CallbackInput)
    | StepCallback(request: nat, fault: bool, exchanged: Option<Identity>, random: Option<Bytes>)
    | Provision(request: nat, fault: bool)
    | SignIn(request: nat, token: Option<string>)

  function Here(w: World): Moment {
    Moment(w.step, |w.tables|, w.core.now)
  }

  predicate IsPrompting(w: CodeFlow.World, r: nat) {
    r in w.authorize && w.authorize[r].APrompt?
  }

  /** What the code flow may do on its own: everything but what this module adds to. */
  predicate IsSystemAction(w: World, a: CodeFlow.Action) {
    && !a.BeginAuthorize? && !a.AddUser?
    && !(a.StepAuthorize? && IsPrompting(w.core, a.request))
    && !(a.ChangeSessions? && a.event.Created?)
  }

  function Initial(now: int): World {
    World(0, CodeFlow.Initial(now), Provisioning.EMPTY, [map[]], Box(map[], {}), map[], map[], map[], map[])
  }

  function ExecPrompt(s: Settings, w: World, r: nat, fault: bool, cipher: Option<Bytes>): World
    requires IsPrompting(w.core, r) && r in w.targets
  {
    var core := CodeFlow.Exec(s.cfg, w.core, CodeFlow.StepAuthorize(r, fault));
    if fault then w.(core := core)
    else
      w.(core := core, prompts := w.prompts[r := w.step],
         box := if cipher == None then w.box else w.box.Give(cipher.value, w.targets[r].Uri()))
  }

  function ExecRedirect(s: Settings, w: World, r: nat, randoms: Randoms, cipher: Option<Bytes>): World
    requires r in w.starts && w.starts[r].SChosen?
  {
    var next := Redirected(s, Here(w), w.starts[r].chosen, randoms);
    if next.SPage? then w.(starts := w.starts[r := next])
    else if cipher == None then w.(starts := w.starts[r := SPage(500)])
    else w.(starts := w.starts[r := next], box := w.box.Give(cipher.value, s.marshal(next.started.payload)))
  }

  /** The provider check, or the exchange, which begins provisioning. */
  function ExecCallback(w: World, r: nat, fault: bool, exchanged: Option<Identity>, random: Option<Bytes>): World
    requires r in w.callbacks && w.tables != []
  {
    var next := CallbackStep(w.tables[|w.tables| - 1], |w.tables| - 1, fault, exchanged, w.callbacks[r]);
    if next.CProvisioning? && w.callbacks[r].CAllowed? then
      var begin := Provisioning.Begin(r, Provisioning.Input(next.identity, random));
      w.(callbacks := w.callbacks[r := next], provisioning := Provisioning.Exec(w.provisioning, begin))
    else w.(callbacks := w.callbacks[r := next])
  }

  /** The users that provisioning adds are the code flow's. */
  function WithNewUser(s: Settings, core: CodeFlow.World, before: seq<User>, after: seq<User>): CodeFlow.World {
    if |after| > |before| then CodeFlow.Exec(s.cfg, core, CodeFlow.AddUser(after[|before|])) else core
  }

  function ExecProvision(s: Settings, w: World, r: nat, fault: bool): World
    requires r in w.callbacks && w.callbacks[r].CProvisioning?
  {
    var next := Provisioning.Exec(w.provisioning, Provisioning.Advance(r, fault));
    if r !in next.requests then w
    else
      var c := AfterProvisioning(w.callbacks[r].allowed, w.callbacks[r].identity, next.requests[r]);
      w.(provisioning := next, callbacks := w.callbacks[r := c],
         core := WithNewUser(s, w.core, w.provisioning.accounts.users, next.accounts.users))
  }

  function SessionEvent(s: Settings, now: int, user: nat, token: string): Sessions.Event {
    Sessions.Created(now, token, user, s.sessionTtl)
  }

  function ExecSignIn(s: Settings, w: World, r: nat, token: Option<string>): World
    requires r in w.callbacks && w.callbacks[r].CProvisioned?
  {
    var c := w.callbacks[r];
    if token == None || s.cfg.sha(token.value) in w.core.db.sessions.rows then w.(callbacks := w.callbacks[r := CPage(500)])
    else
      var event := SessionEvent(s, w.core.now, c.user, token.value);
      var signedIn := SignedIn(c.allowed, c.identity, c.user, token.value, |w.core.db.history|);
      w.(core := CodeFlow.Exec(s.cfg, w.core, CodeFlow.ChangeSessions(event)),
         callbacks := w.callbacks[r := CSignedIn(signedIn, c.allowed.begun.payload.returnTo)])
  }

  /** A seal needs a ciphertext never used before; a request or a cookie that cannot be changes nothing. */
  function Act(s: Settings, w: World, a: Action): World {
    match a
    case System(action) =>
      if IsSystemAction(w, action) then w.(core := CodeFlow.Exec(s.cfg, w.core, action)) else w
    case Authorize(r, target, cookie, random) =>
      if r in w.core.authorize || !target.Valid() then w
      else
        var input := CodeFlow.AuthorizeInput(ParseRequest(s, target), cookie, random, CodeFlow.ArrivalAt(w.core));
        w.(core := CodeFlow.Exec(s.cfg, w.core, CodeFlow.BeginAuthorize(r, input)), targets := w.targets[r := target])
    case Prompt(r, fault, cipher) =>
      if !IsPrompting(w.core, r) || r !in w.targets || (cipher.Some? && cipher.value in w.box.sealed) then w
      else ExecPrompt(s, w, r, fault, cipher)
    case ChangeProviders(table) => w.(tables := w.tables + [table])
    case SealSecret(cipher, plain) =>
      if cipher in w.box.sealed then w else w.(box := w.box.(sealed := w.box.sealed[cipher := plain]))
    case Start(r, pathValue, cookie) =>
      if r in w.starts || !w.box.MayPresent(cookie) then w
      else w.(starts := w.starts[r := BeginStart(s, w.box, Here(w), pathValue, cookie)])
    case StepStart(r, fault) =>
      if r !in w.starts || w.tables == [] then w
      else
        w.(starts := w.starts[r := StartStep(s, w.core.db.registry, w.tables[|w.tables| - 1], |w.tables| - 1, fault, w.starts[r])])
    case Redirect(r, randoms, cipher) =>
      if r !in w.starts || !w.starts[r].SChosen? || (cipher.Some? && cipher.value in w.box.sealed) then w
      else ExecRedirect(s, w, r, randoms, cipher)
    case Callback(r, input) =>
      if r in w.callbacks || !w.box.MayPresent(input.cookie) then w
      else w.(callbacks := w.callbacks[r := BeginCallback(s, w.box, Here(w), input)])
    case StepCallback(r, fault, exchanged, random) =>
      if r !in w.callbacks || w.tables == [] then w else ExecCallback(w, r, fault, exchanged, random)
    case Provision(r, fault) =>
      if r !in w.callbacks || !w.callbacks[r].CProvisioning? then w else ExecProvision(s, w, r, fault)
    case SignIn(r, token) =>
      if r !in w.callbacks || !w.callbacks[r].CProvisioned? then w else ExecSignIn(s, w, r, token)
  }

  function Exec(s: Settings, w: World, a: Action): World {
    Act(s, w, a).(step := w.step + 1)
  }

  function Later(w: World): World {
    w.(step := w.step + 1)
  }

  function Run(s: Settings, w: World, actions: seq<Action>): World {
    if actions == [] then w else Exec(s, Run(s, w, actions[..|actions| - 1]), actions[|actions| - 1])
  }

  lemma {:induction false} RunConcat(s: Settings, w: World, a: seq<Action>, b: seq<Action>)
    ensures Run(s, w, a + b) == Run(s, Run(s, w, a), b)
  {
    if b == [] {
      assert a + b == a;
    } else {
      RunConcat(s, w, a, b[..|b| - 1]);
      assert (a + b)[..|a + b| - 1] == a + b[..|b| - 1];
    }
  }

  lemma RunOne(s: Settings, w: World, a: Action)
    ensures Run(s, w, [a]) == Exec(s, w, a)
  {
    assert [a][..0] == [] && Run(s, w, []) == w;
  }
}
