/**
  When a start is redirected to its provider, and when a callback signs in: exactly,
  for requests that nothing interrupts and whose statements do not fail.
*/
module BrokerAnswers {
  import opened Prelude
  import opened Models
  import opened Upstream
  import opened Broker
  import opened BrokerHistory
  import opened BrokerProvenance
  import opened UpstreamHandlers
  import Base64
  import Provisioning
  import Registration
  import Sessions
  import Text

  /** This provider is configured for the application, and enabled. */
  predicate Offers(table: Providers, application: nat, provider: string) {
    var key := ProviderKey(application, provider);
    key in table && table[key].enabled
  }

  /** A cookie whose ciphertext opens to this text. */
  predicate Carries(box: Box, cookie: Option<string>, text: string) {
    cookie.Some? && box.Open(cookie.value) == Some(text)
  }

  ghost predicate NoFaults(faults: Faults) {
    forall k :: !faults(k)
  }

  // The prompt

  /** A rendered prompt hands out the target of its request, as it came in. */
  lemma PromptHandsOutTarget(s: Settings, w: World, r: nat, cipher: Bytes)
    requires IsPrompting(w.core, r) && r in w.targets && cipher !in w.box.sealed
    ensures var t, w' := w.targets[r], Exec(s, w, Prompt(r, false, Some(cipher)));
            w'.box == Box(w.box.sealed[cipher := t.path + "?" + t.rawQuery], w.box.given + {cipher})
            && r in w'.prompts && w'.prompts[r] == w.step
  {
    assert Act(s, w, Prompt(r, false, Some(cipher))) == ExecPrompt(s, w, r, false, Some(cipher));
  }

  // The start

  /** One of the two providers, in any case, and a target that can be returned to. */
  predicate IsStart(s: Settings, pathValue: string, to: string) {
    && (Text.ToLower(pathValue) == "google" || Text.ToLower(pathValue) == "github")
    && Text.HasPrefix(to, "/authorize?") && s.parses(to)
  }

  lemma StartOpensExactly(s: Settings, box: Box, here: Moment, pathValue: string, cookie: Option<string>, to: string)
    requires Carries(box, cookie, to)
    ensures BeginStart(s, box, here, pathValue, cookie) ==
            if IsStart(s, pathValue, to) then SOpened(Attempt(Text.ToLower(pathValue), to, here)) else SPage(400)
  {
  }

  /** The stored target names client k, and its application offers the provider. */
  predicate IsChoice(s: Settings, registry: Registration.Registry, table: Providers, provider: string, to: string, k: nat) {
    && k < |registry.clients| && registry.clients[k].clientId == StoredClientId(s, to)
    && Offers(table, registry.clients[k].applicationId, provider)
  }

  lemma StartChoosesExactly(s: Settings, registry: Registration.Registry, p: Numbered, a: Attempt, faults: Faults)
    requires NoFaults(faults) && Registration.Wellformed(s.cfg.parse, registry)
    ensures var st := StartAlone(s, registry, p, SOpened(a), faults);
            && (st.SPage? || st.SChosen?)
            && (st.SPage? <==> forall k: nat :: !IsChoice(s, registry, p.table, a.provider, a.returnTo, k))
            && (forall k: nat :: IsChoice(s, registry, p.table, a.provider, a.returnTo, k) ==>
                  st == SChosen(Chosen(a, k, registry.clients[k], p.at)))
  {
    var found := Registration.FindClient(registry.clients, StoredClientId(s, a.returnTo));
    if found.Some? {
      StartFinds(s, registry, p, a, faults, found.value);
      OneNamed(s, registry, p.table, a, found.value);
    }
  }

  lemma StartFinds(s: Settings, registry: Registration.Registry, p: Numbered, a: Attempt, faults: Faults, k: nat)
    requires NoFaults(faults) && Registration.Wellformed(s.cfg.parse, registry)
    requires Registration.FindClient(registry.clients, StoredClientId(s, a.returnTo)) == Some(k)
    ensures StartAlone(s, registry, p, SOpened(a), faults) ==
            if Offers(p.table, registry.clients[k].applicationId, a.provider) then SChosen(Chosen(a, k, registry.clients[k], p.at))
            else SPage(400)
  {
    assert Registration.ClientOk(s.cfg.parse, registry, registry.clients[k]);
  }

  lemma OneNamed(s: Settings, registry: Registration.Registry, table: Providers, a: Attempt, k: nat)
    requires Registration.Wellformed(s.cfg.parse, registry)
    requires Registration.FindClient(registry.clients, StoredClientId(s, a.returnTo)) == Some(k)
    ensures forall j: nat :: IsChoice(s, registry, table, a.provider, a.returnTo, j) ==> j == k
    ensures IsChoice(s, registry, table, a.provider, a.returnTo, k)
            <==> Offers(table, registry.clients[k].applicationId, a.provider)
  {
  }

  /** The random source works as often as this provider needs it, and the payload can be sealed. */
  predicate CanSeal(provider: string, randoms: Randoms, cipher: Option<Bytes>) {
    randoms.state.Some? && (provider == "google" ==> randoms.verifier.Some?) && cipher.Some?
  }

  /** What is sent and sealed for a start: a new state, and with Google a verifier and its challenge; for ten minutes. */
  predicate IsRedirect(s: Settings, st: Started, provider: string, application: nat, to: string, randoms: Randoms, now: int) {
    && randoms.state.Some?
    && st.payload.provider == provider && st.payload.applicationId == application && st.payload.returnTo == to
    && st.payload.state == Base64.Encode(Base64.Url, randoms.state.value)
    && st.payload.expiresAt == (now + 600 * SECOND) / SECOND
    && if provider == "google" then
         && randoms.verifier.Some? && st.payload.verifier == Base64.Encode(Base64.Url, randoms.verifier.value)
         && st.challenge == Base64.Encode(Base64.Url, s.cfg.sha(st.payload.verifier))
       else st.payload.verifier == "" && st.challenge == ""
  }

  lemma StartSealsExactly(s: Settings, box: Box, when: Moment, c: Chosen, randoms: Randoms, cipher: Option<Bytes>)
    ensures var (after, st) := Seal(s, box, when, SChosen(c), randoms, cipher);
            var provider := c.attempt.provider;
            && (st.SRedirected? <==> CanSeal(provider, randoms, cipher))
            && (st.SRedirected? ==>
                  && IsRedirect(s, st.started, provider, c.clientRow.applicationId, c.attempt.returnTo, randoms, when.now)
                  && after == Box(box.sealed[cipher.value := s.marshal(st.started.payload)], box.given + {cipher.value}))
            && (!st.SRedirected? ==> after == box && st == SPage(500))
  {
  }

  /**
    A start with this target is redirected exactly when it is one, its target names a
    client whose application offers the provider, and all can be sealed; otherwise it
    ends at a page and hands nothing out.
  */
  ghost predicate StartEnds(s: Settings, before: Box, registry: Registration.Registry, table: Providers, now: int,
                            pathValue: string, to: string, randoms: Randoms, cipher: Option<Bytes>,
                            result: (Box, StartState)) {
    var provider, st := Text.ToLower(pathValue), result.1;
    var may := IsStart(s, pathValue, to) && CanSeal(provider, randoms, cipher);
    && (st.SRedirected? || (st.SPage? && result.0 == before))
    && (st.SRedirected? <==> may && exists k: nat :: IsChoice(s, registry, table, provider, to, k))
    && (forall k: nat :: st.SRedirected? && IsChoice(s, registry, table, provider, to, k) ==>
          IsRedirect(s, st.started, provider, registry.clients[k].applicationId, to, randoms, now))
    && (st.SRedirected? ==>
          result.0 == Box(before.sealed[cipher.value := s.marshal(st.started.payload)], before.given + {cipher.value}))
  }

  lemma StartAnswers(s: Settings, box: Box, here: Moment, when: Moment, registry: Registration.Registry, p: Numbered,
                     pathValue: string, cookie: Option<string>, to: string, randoms: Randoms, cipher: Option<Bytes>, faults: Faults)
    requires Carries(box, cookie, to) && NoFaults(faults) && Registration.Wellformed(s.cfg.parse, registry)
    ensures var begun := BeginStart(s, box, here, pathValue, cookie);
            var alone := StartAlone(s, registry, p, begun, faults);
            StartEnds(s, box, registry, p.table, when.now, pathValue, to, randoms, cipher,
                      Seal(s, box, when, alone, randoms, cipher))
  {
    StartOpensExactly(s, box, here, pathValue, cookie, to);
    if IsStart(s, pathValue, to) {
      var a := Attempt(Text.ToLower(pathValue), to, here);
      StartChoosesExactly(s, registry, p, a, faults);
      if k: nat :| IsChoice(s, registry, p.table, a.provider, to, k) {
        StartSealsExactly(s, box, when, Chosen(a, k, registry.clients[k], p.at), randoms, cipher);
        OneChoice(s, registry, p.table, a.provider, to, k);
      }
    }
  }

  lemma OneChoice(s: Settings, registry: Registration.Registry, table: Providers, provider: string, to: string, k: nat)
    requires Registration.Wellformed(s.cfg.parse, registry) && IsChoice(s, registry, table, provider, to, k)
    ensures forall j: nat :: IsChoice(s, registry, table, provider, to, j) ==> j == k
  {
  }

  // The callback

  /** Back from the provider it was sent to, with its state and a code, without an error, within ten minutes in whole seconds. */
  predicate Answers(input: CallbackInput, st: Started, now: int) {
    && Text.ToLower(input.pathValue) == st.payload.provider && input.state == st.payload.state
    && input.error == "" && input.code != ""
    && now / SECOND <= (st.when.now + 600 * SECOND) / SECOND
  }

  lemma OpensExactly(s: Settings, box: Box, here: Moment, input: CallbackInput, st: Started)
    requires IsJson(s) && Carries(box, input.cookie, s.marshal(st.payload)) && PayloadSays(st.chosen, st.when, st.payload)
    requires IsSupported(st.payload.provider) && Text.HasPrefix(st.payload.returnTo, RETURN_PREFIX)
    ensures BeginCallback(s, box, here, input) ==
            if Answers(input, st, here.now) then COpened(Begun(input, here, st.payload)) else CPage(400)
  {
    assert s.unmarshal(s.marshal(st.payload)) == Some(st.payload);
    assert box.ReadState(s, input.cookie) == Some(st.payload);
  }

  /** What provisioning makes of an identity that the provider answered with, alone. */
  function ProvisionedAs(accounts: Provisioning.Accounts, provider: string, id: Identity, random: Option<Bytes>, faults: Faults)
    : (Provisioning.Accounts, Provisioning.State)
  {
    Provisioning.Alone(accounts, Provisioning.Start(Provisioning.Input(id.(provider := provider), random)), faults, 0)
  }

  /** The provider is offered, it answered with an identity, and that identity has a user now. */
  predicate IsAccepted(accounts: Provisioning.Accounts, table: Providers, p: Payload, exchanged: Option<Identity>,
                       random: Option<Bytes>, faults: Faults) {
    && Offers(table, p.applicationId, p.provider) && exchanged.Some?
    && ProvisionedAs(accounts, p.provider, exchanged.value, random, faults).1.outcome.Provisioned?
  }

  lemma AcceptsExactly(accounts: Provisioning.Accounts, p: Numbered, begun: Begun, faults: Faults, exchanged: Option<Identity>,
                       random: Option<Bytes>, userFaults: Faults)
    requires NoFaults(faults)
    ensures var c := CallbackAlone(accounts, p, COpened(begun), faults, exchanged, random, userFaults).1;
            && !c.CSignedIn?
            && (c.CProvisioned? <==> IsAccepted(accounts, p.table, begun.payload, exchanged, random, userFaults))
            && (c.CProvisioned? ==>
                  && c.allowed.begun == begun
                  && c.user == ProvisionedAs(accounts, begun.payload.provider, exchanged.value, random, userFaults).1.outcome.user)
  {
  }

  lemma SessionExactly(s: Settings, sessions: Sessions.Store, now: int, c: CallbackState, token: Option<string>)
    ensures var (after, to) := SessionAlone(s, sessions, now, c, token);
            && (to.Some? <==> c.CProvisioned? && token.Some? && s.cfg.sha(token.value) !in sessions.rows)
            && (to.Some? ==>
                  && to.value == c.allowed.begun.payload.returnTo
                  && after.rows == sessions.rows[s.cfg.sha(token.value) :=
                                                 Sessions.Session(sessions.nextId, c.user, now + s.sessionTtl, None)])
            && (to.None? ==> after == sessions)
  {
  }

  // In the system

  lemma ReachedRegistry(s: Settings, start: int, actions: seq<Action>)
    requires IsJson(s)
    ensures var w := Reached(s, start, actions);
            w.tables != [] && Registration.Wellformed(s.cfg.parse, w.core.db.registry)
            && w.provisioning.requests.Keys <= w.callbacks.Keys
  {
    RunKeeps(s, start, actions);
  }

  /** At any state, what comes of a start that carries a sealed text. */
  lemma StartRedirectsExactly(s: Settings, start: int, actions: seq<Action>, r: nat, pathValue: string, cookie: Option<string>,
                              to: string, randoms: Randoms, cipher: Option<Bytes>, faults: Faults)
    requires IsJson(s) && NoFaults(faults)
    requires var w := Reached(s, start, actions);
             r !in w.starts && w.box.MayPresent(cookie) && Carries(w.box, cookie, to)
             && (cipher.Some? ==> cipher.value !in w.box.sealed)
    ensures var w := Reached(s, start, actions);
            var w' := Run(s, w, [Start(r, pathValue, cookie)] + Statements(r, faults) + [Redirect(r, randoms, cipher)]);
            && w.tables != [] && r in w'.starts
            && StartEnds(s, w.box, w.core.db.registry, w.tables[|w.tables| - 1], w.core.now, pathValue, to, randoms, cipher,
                         (w'.box, w'.starts[r]))
  {
    var w := Reached(s, start, actions);
    ReachedRegistry(s, start, actions);
    StartIsRun(s, w, r, pathValue, cookie, randoms, cipher, faults);
    StartAnswers(s, w.box, Here(w), Here(w).(step := w.step + 4), w.core.db.registry, CurrentNumbered(w), pathValue, cookie, to,
                 randoms, cipher, faults);
  }

  lemma RedirectedStartSays(s: Settings, start: int, actions: seq<Action>, r: nat)
    requires IsJson(s)
    requires var w := Reached(s, start, actions);
             r in w.starts && w.starts[r].SRedirected?
    ensures var st := Reached(s, start, actions).starts[r].started;
            && PayloadSays(st.chosen, st.when, st.payload) && IsSupported(st.payload.provider)
            && Text.HasPrefix(st.payload.returnTo, RETURN_PREFIX)
  {
    RunKeeps(s, start, actions);
    StandingStartSays(s, Reached(s, start, actions), r);
  }

  lemma StandingStartSays(s: Settings, w: World, r: nat)
    requires StartsOk(s, w) && r in w.starts && w.starts[r].SRedirected?
    ensures var st := w.starts[r].started;
            && PayloadSays(st.chosen, st.when, st.payload) && IsSupported(st.payload.provider)
            && Text.HasPrefix(st.payload.returnTo, RETURN_PREFIX)
  {
    assert StartOk(s, w, w.starts[r]);
  }

  /** A callback with the cookie of start r. */
  predicate Returns(s: Settings, w: World, r: nat, c: nat, input: CallbackInput) {
    && r in w.starts && w.starts[r].SRedirected? && c !in w.callbacks
    && w.box.MayPresent(input.cookie) && Carries(w.box, input.cookie, s.marshal(w.starts[r].started.payload))
  }

  lemma ReturningOpens(s: Settings, start: int, actions: seq<Action>, r: nat, c: nat, input: CallbackInput)
    requires IsJson(s) && Returns(s, Reached(s, start, actions), r, c, input)
    ensures var w := Reached(s, start, actions);
            BeginCallback(s, w.box, Here(w), input) ==
            if Answers(input, w.starts[r].started, w.core.now) then COpened(Begun(input, Here(w), w.starts[r].started.payload))
            else CPage(400)
  {
    var w := Reached(s, start, actions);
    RedirectedStartSays(s, start, actions, r);
    OpensExactly(s, w.box, Here(w), input, w.starts[r].started);
  }

  /** A callback with the cookie of a start is let in exactly when it answers that start in time. */
  lemma CallbackOpensExactly(s: Settings, start: int, actions: seq<Action>, r: nat, c: nat, input: CallbackInput)
    requires IsJson(s) && Returns(s, Reached(s, start, actions), r, c, input)
    ensures var w := Reached(s, start, actions);
            var st, w' := w.starts[r].started, Exec(s, w, Callback(c, input));
            && c in w'.callbacks
            && (w'.callbacks[c].COpened? <==>
                  && Text.ToLower(input.pathValue) == st.payload.provider && input.state == st.payload.state
                  && input.error == "" && input.code != ""
                  && w.core.now / SECOND <= (st.when.now + 600 * SECOND) / SECOND)
            && (if w'.callbacks[c].COpened? then w'.callbacks[c].begun.payload == st.payload else w'.callbacks[c] == CPage(400))
  {
    ReturningOpens(s, start, actions, r, c, input);
    CallbackExec(s, Reached(s, start, actions), c, input);
  }

  lemma CallbackExec(s: Settings, w: World, c: nat, input: CallbackInput)
    requires c !in w.callbacks && w.box.MayPresent(input.cookie)
    ensures Exec(s, w, Callback(c, input)).callbacks == w.callbacks[c := BeginCallback(s, w.box, Here(w), input)]
  {
  }

  /** What the callback needs, all of it: the provider offered, an identity with a user, and a new session token. */
  predicate SignsIn(s: Settings, w: World, st: Started, input: CallbackInput, exchanged: Option<Identity>,
                    random: Option<Bytes>, userFaults: Faults, token: Option<string>)
    requires w.tables != []
  {
    && Answers(input, st, w.core.now)
    && IsAccepted(w.provisioning.accounts, w.tables[|w.tables| - 1], st.payload, exchanged, random, userFaults)
    && token.Some? && s.cfg.sha(token.value) !in w.core.db.sessions.rows
  }

  /** Callback c has signed in, to this target, with a new session that lives from this reading on. */
  predicate HasSession(s: Settings, w: World, c: nat, to: string, user: nat, token: string, now: int) {
    && c in w.callbacks && w.callbacks[c].CSignedIn? && w.callbacks[c].to == to
    && s.cfg.sha(token) in w.core.db.sessions.rows
    && var row := w.core.db.sessions.rows[s.cfg.sha(token)];
       row.owner == user && row.expiresAt == now + s.sessionTtl && row.revokedAt == None
  }

  lemma SignInExactly(s: Settings, w: World, w': World, r: nat, c: nat, input: CallbackInput, faults: Faults,
                      exchanged: Option<Identity>, random: Option<Bytes>, userFaults: Faults, duration: nat, token: Option<string>)
    requires NoFaults(faults) && w.tables != [] && r in w.starts && w.starts[r].SRedirected?
    requires BeginCallback(s, w.box, Here(w), input) ==
             if Answers(input, w.starts[r].started, w.core.now) then COpened(Begun(input, Here(w), w.starts[r].started.payload))
             else CPage(400)
    requires Finishes(s, w, w', c, duration, token, AcceptedAs(s, w, input, faults, exchanged, random, userFaults))
    ensures var st := w.starts[r].started;
            && c in w'.callbacks
            && (w'.callbacks[c].CSignedIn? <==> SignsIn(s, w, st, input, exchanged, random, userFaults, token))
            && (w'.callbacks[c].CSignedIn? ==>
                  var (_, provisioned) :=
                    ProvisionedAs(w.provisioning.accounts, st.payload.provider, exchanged.value, random, userFaults);
                  HasSession(s, w', c, st.payload.returnTo, provisioned.outcome.user, token.value, w.core.now + duration))
  {
    var begun, p := Begun(input, Here(w), w.starts[r].started.payload), CurrentNumbered(w);
    AcceptsExactly(w.provisioning.accounts, p, begun, faults, exchanged, random, userFaults);
    var state := AcceptedAs(s, w, input, faults, exchanged, random, userFaults).1;
    SessionExactly(s, w.core.db.sessions, w.core.now + duration, state, token);
  }

  /** And such a callback, run to its end, signs in exactly when nothing it needs is missing. */
  lemma CallbackSignsInExactly(s: Settings, start: int, actions: seq<Action>, r: nat, c: nat, input: CallbackInput, faults: Faults,
                               exchanged: Option<Identity>, random: Option<Bytes>, userFaults: Faults, duration: nat,
                               token: Option<string>)
    returns (more: seq<Action>)
    requires IsJson(s) && NoFaults(faults) && Returns(s, Reached(s, start, actions), r, c, input)
    ensures var w := Reached(s, start, actions);
            var st, w' := w.starts[r].started, Run(s, w, more);
            && w.tables != [] && c in w'.callbacks
            && (w'.callbacks[c].CSignedIn? <==> SignsIn(s, w, st, input, exchanged, random, userFaults, token))
            && (w'.callbacks[c].CSignedIn? ==>
                  var (_, provisioned) :=
                    ProvisionedAs(w.provisioning.accounts, st.payload.provider, exchanged.value, random, userFaults);
                  HasSession(s, w', c, st.payload.returnTo, provisioned.outcome.user, token.value, w.core.now + duration))
  {
    var w := Reached(s, start, actions);
    ReachedRegistry(s, start, actions);
    ReturningOpens(s, start, actions, r, c, input);
    var middle := CallbackIsRun(s, w, c, input, faults, exchanged, random, userFaults, duration, token);
    more := Exchanging(c, input, faults, exchanged, random) + middle + Finishing(c, duration, token);
    SignInExactly(s, w, Run(s, w, more), r, c, input, faults, exchanged, random, userFaults, duration, token);
  }
}
