/** What a finished sign-in guarantees, in every run of the system. */
module BrokerResults {
  import opened Prelude
  import opened Models
  import opened Broker
  import opened BrokerProvenance
  import opened BrokerHistory
  import opened BrokerTargets
  import CodeFlow
  import Flow = CodeFlowInvariant
  import FlowResults = CodeFlowResults
  import Provisioning
  import Registration
  import Sessions
  import Text
  import opened Upstream

  /**
    A cookie value a browser can present is accepted as a pending request only if
    that very target was prompted, as a sign-in state only if that very payload
    was made by a start, and never in both places.
  */
  lemma KindsNeverConfused(s: Settings, start: int, actions: seq<Action>, cookie: Option<string>)
    requires IsJson(s) && Reached(s, start, actions).box.MayPresent(cookie)
    ensures var w := Reached(s, start, actions);
            var target, payload := w.box.ReadPrompt(cookie), w.box.ReadState(s, cookie);
            && (target.Some? ==> Prompted(s, w, target.value) && payload == None)
            && (payload.Some? ==> (exists r :: StartedBy(w, r, payload.value)) && target == None)
  {
    RunKeeps(s, start, actions);
    CookieIsOfOneKind(s, Reached(s, start, actions), cookie);
  }

  lemma CookieIsOfOneKind(s: Settings, w: World, cookie: Option<string>)
    requires IsJson(s) && Own(s, w) && w.box.MayPresent(cookie)
    ensures var target, payload := w.box.ReadPrompt(cookie), w.box.ReadState(s, cookie);
            && (target.Some? ==> Prompted(s, w, target.value) && payload == None)
            && (payload.Some? ==> (exists r :: StartedBy(w, r, payload.value)) && target == None)
  {
    if w.box.ReadPrompt(cookie).Some? {
      PromptCookieIsPrompted(s, w, cookie);
      PromptedStartsWithSlash(s, w, w.box.ReadPrompt(cookie).value);
    }
    if w.box.ReadState(s, cookie).Some? {
      StateCookieIsStarted(s, w, cookie);
    }
  }

  // Provenance

  /** Where callback c came from: the request p that was prompted and, later, the start r it answers. */
  ghost predicate ComesFrom(s: Settings, w: World, c: nat, p: nat, r: nat)
    requires c in w.callbacks && w.callbacks[c].CSignedIn?
  {
    var i := w.callbacks[c].signedIn;
    && PromptedBy(s, w, p, w.callbacks[c].to)
    && Flow.AdmittedOk(s.cfg, w.core, w.core.authorize[p].input, w.core.authorize[p].outcome.admitted)
    && AllowedBy(w, r, i.allowed)
    && StartedOk(s, w, w.starts[r].started)
    && w.prompts[p] < w.starts[r].started.chosen.attempt.arrived.step
    && i.allowed.begun.payload.returnTo == w.callbacks[c].to
    && BoundTo(w, i.allowed, i.identity, i.user)
  }

  /**
    Whenever a callback creates a session and redirects, its target is a request
    that was answered with the prompt: for a known client, with a redirect URI
    registered for it, valid, with scopes allowed since it came in. The sealed
    application is that of the client named by the stored target. The prompt was
    rendered before the start came in, and the start redirected before the
    callback came in; the user is the one bound to the identity.
  */
  lemma SignInHasProvenance(s: Settings, start: int, actions: seq<Action>, c: nat)
    requires IsJson(s)
    requires var w := Reached(s, start, actions);
             c in w.callbacks && w.callbacks[c].CSignedIn?
    ensures exists p: nat, r: nat :: ComesFrom(s, Reached(s, start, actions), c, p, r)
  {
    var w := Reached(s, start, actions);
    RunKeeps(s, start, actions);
    var p, r := OriginOf(s, w, c);
    PromptedIsAdmitted(s, w, p, w.callbacks[c].to);
    assert ComesFrom(s, w, c, p, r);
  }

  lemma OriginOf(s: Settings, w: World, c: nat) returns (p: nat, r: nat)
    requires Own(s, w) && c in w.callbacks && w.callbacks[c].CSignedIn?
    ensures var i := w.callbacks[c].signedIn;
            && PromptedBy(s, w, p, w.callbacks[c].to) && AllowedBy(w, r, i.allowed)
            && StartedOk(s, w, w.starts[r].started)
            && w.prompts[p] < w.starts[r].started.chosen.attempt.arrived.step
            && i.allowed.begun.payload.returnTo == w.callbacks[c].to
            && BoundTo(w, i.allowed, i.identity, i.user)
  {
    assert CallbackOk(s, w, c, w.callbacks[c]);
    r :| AllowedBy(w, r, w.callbacks[c].signedIn.allowed);
    RedirectedStart(s, w, r);
    p :| PromptedBefore(s, w, p, w.starts[r].started.chosen.attempt);
  }

  lemma PromptedIsAdmitted(s: Settings, w: World, p: nat, returnTo: string)
    requires Flow.AuthorizesOk(s.cfg, w.core) && PromptedBy(s, w, p, returnTo)
    ensures Flow.AdmittedOk(s.cfg, w.core, w.core.authorize[p].input, w.core.authorize[p].outcome.admitted)
  {
    assert Flow.AuthorizeOk(s.cfg, w.core, p, w.core.authorize[p]);
  }

  /** Whether the table that was current after k steps had the provider enabled. */
  predicate EnabledAfter(s: Settings, start: int, actions: seq<Action>, k: nat, application: nat, provider: string)
    requires k <= |actions|
  {
    IsEnabled(CurrentTable(Reached(s, start, actions[..k])), application, provider)
  }

  /**
    The provider of a finished sign-in was enabled for the sealed application, the
    one of the client named by the stored target, at two states of the run: i,
    between the arrival of the start and its redirect, and j, after the callback
    came in. Prompt, start, redirect and callback come in this order.
  */
  lemma ProviderWasEnabledTwice(s: Settings, start: int, actions: seq<Action>, c: nat, p: nat, r: nat)
    returns (i: nat, j: nat)
    requires IsJson(s)
    requires var w := Reached(s, start, actions);
             c in w.callbacks && w.callbacks[c].CSignedIn? && ComesFrom(s, w, c, p, r)
    ensures var w := Reached(s, start, actions);
            var begun, st := w.callbacks[c].signedIn.allowed.begun, w.starts[r].started;
            && w.prompts[p] < st.chosen.attempt.arrived.step <= i <= st.when.step < begun.arrived.step <= j <= |actions|
            && EnabledAfter(s, start, actions, i, begun.payload.applicationId, begun.payload.provider)
            && EnabledAfter(s, start, actions, j, begun.payload.applicationId, begun.payload.provider)
            && begun.payload.applicationId == w.core.db.registry.clients[st.chosen.client].applicationId
            && w.core.db.registry.clients[st.chosen.client].clientId == StoredClientId(s, w.callbacks[c].to)
  {
    i := EnabledAtStart(s, start, actions, r, Reached(s, start, actions).starts[r].started);
    j := EnabledAtCallback(s, start, actions, c);
  }

  /** A table met between two moments was the current one at a state between them. */
  lemma EnabledBetween(s: Settings, start: int, actions: seq<Action>, k: nat, m: nat, n: nat,
                       application: nat, provider: string) returns (j: nat)
    requires IsJson(s) && k <= m <= |actions|
    requires |Reached(s, start, actions[..k]).tables| <= n + 1 <= |Reached(s, start, actions[..m]).tables|
    requires n < |Reached(s, start, actions).tables|
    requires IsEnabled(Reached(s, start, actions).tables[n], application, provider)
    ensures k <= j <= m && EnabledAfter(s, start, actions, j, application, provider)
  {
    assert actions[..m][..k] == actions[..k];
    j := TableWasCurrent(s, start, actions[..m], k, n);
    TablesGrow(s, start, actions, m);
    assert actions[..m][..j] == actions[..j];
  }

  /** The provider was enabled in a table met between the arrival and the redirect. */
  predicate RedirectRead(w: World, st: Started) {
    && st.chosen.attempt.arrived.step < st.when.step
    && st.chosen.attempt.arrived.tables <= st.chosen.at + 1 <= st.when.tables && st.chosen.at < |w.tables|
    && IsEnabled(w.tables[st.chosen.at], st.payload.applicationId, st.payload.provider)
  }

  lemma RedirectedStart(s: Settings, w: World, r: nat)
    requires Own(s, w) && r in w.starts && w.starts[r].SRedirected?
    ensures StartedOk(s, w, w.starts[r].started) && RedirectRead(w, w.starts[r].started)
  {
    assert StartOk(s, w, w.starts[r]);
  }

  lemma EnabledForStart(s: Settings, start: int, actions: seq<Action>, st: Started) returns (i: nat)
    requires IsJson(s) && st.when.step < |actions|
    requires RedirectRead(Reached(s, start, actions), st)
    requires st.chosen.attempt.arrived == Here(Reached(s, start, actions[..st.chosen.attempt.arrived.step]))
    requires st.when == Here(Reached(s, start, actions[..st.when.step]))
    ensures st.chosen.attempt.arrived.step <= i <= st.when.step
    ensures EnabledAfter(s, start, actions, i, st.payload.applicationId, st.payload.provider)
  {
    i := EnabledBetween(s, start, actions, st.chosen.attempt.arrived.step, st.when.step, st.chosen.at,
                        st.payload.applicationId, st.payload.provider);
  }

  lemma MomentsOfStart(s: Settings, start: int, actions: seq<Action>, r: nat, st: Started)
    requires r in Reached(s, start, actions).starts && Reached(s, start, actions).starts[r] == SRedirected(st)
    ensures st.when.step < |actions| && st.when == Here(Reached(s, start, actions[..st.when.step]))
    ensures var m := st.chosen.attempt.arrived;
            m.step < |actions| && m == Here(Reached(s, start, actions[..m.step]))
  {
    StartCameIn(s, start, actions, r, st.chosen.attempt.arrived);
    StartWasSent(s, start, actions, r, st);
  }

  lemma ReadOfStart(s: Settings, start: int, actions: seq<Action>, r: nat, st: Started)
    requires IsJson(s)
    requires r in Reached(s, start, actions).starts && Reached(s, start, actions).starts[r] == SRedirected(st)
    ensures RedirectRead(Reached(s, start, actions), st)
  {
    RunKeeps(s, start, actions);
    RedirectedStart(s, Reached(s, start, actions), r);
  }

  lemma EnabledAtStart(s: Settings, start: int, actions: seq<Action>, r: nat, st: Started) returns (i: nat)
    requires IsJson(s)
    requires r in Reached(s, start, actions).starts && Reached(s, start, actions).starts[r] == SRedirected(st)
    ensures st.chosen.attempt.arrived.step <= i <= st.when.step < |actions|
    ensures EnabledAfter(s, start, actions, i, st.payload.applicationId, st.payload.provider)
  {
    ReadOfStart(s, start, actions, r, st);
    MomentsOfStart(s, start, actions, r, st);
    i := EnabledForStart(s, start, actions, st);
  }

  /** The provider was enabled in a table met since the arrival. */
  predicate CallbackRead(w: World, a: Allowed) {
    && a.begun.arrived.tables <= a.at + 1 <= |w.tables|
    && IsEnabled(w.tables[a.at], a.begun.payload.applicationId, a.begun.payload.provider)
  }

  lemma ReadOfCallback(s: Settings, start: int, actions: seq<Action>, c: nat)
    requires IsJson(s)
    requires c in Reached(s, start, actions).callbacks && Reached(s, start, actions).callbacks[c].CSignedIn?
    ensures CallbackRead(Reached(s, start, actions), Reached(s, start, actions).callbacks[c].signedIn.allowed)
  {
    RunKeeps(s, start, actions);
    assert CallbackOk(s, Reached(s, start, actions), c, Reached(s, start, actions).callbacks[c]);
  }

  lemma EnabledForCallback(s: Settings, start: int, actions: seq<Action>, a: Allowed) returns (j: nat)
    requires IsJson(s) && CallbackRead(Reached(s, start, actions), a) && a.begun.arrived.step < |actions|
    requires a.begun.arrived == Here(Reached(s, start, actions[..a.begun.arrived.step]))
    ensures a.begun.arrived.step <= j <= |actions|
    ensures EnabledAfter(s, start, actions, j, a.begun.payload.applicationId, a.begun.payload.provider)
  {
    assert actions[..|actions|] == actions;
    j := EnabledBetween(s, start, actions, a.begun.arrived.step, |actions|, a.at,
                        a.begun.payload.applicationId, a.begun.payload.provider);
  }

  lemma EnabledAtCallback(s: Settings, start: int, actions: seq<Action>, c: nat) returns (j: nat)
    requires IsJson(s)
    requires c in Reached(s, start, actions).callbacks && Reached(s, start, actions).callbacks[c].CSignedIn?
    ensures var begun := Reached(s, start, actions).callbacks[c].signedIn.allowed.begun;
            && begun.arrived.step <= j <= |actions|
            && EnabledAfter(s, start, actions, j, begun.payload.applicationId, begun.payload.provider)
  {
    var a := Reached(s, start, actions).callbacks[c].signedIn.allowed;
    ReadOfCallback(s, start, actions, c);
    CallbackCameIn(s, start, actions, c, a.begun);
    j := EnabledForCallback(s, start, actions, a);
  }

  /** A provider that is disabled in every state from the callback's arrival on signs nobody in. */
  lemma DisabledProvidersSignNobodyIn(s: Settings, start: int, actions: seq<Action>, k: nat, c: nat,
                                      application: nat, provider: string)
    requires IsJson(s) && k <= |actions| && c !in Reached(s, start, actions[..k]).callbacks
    requires forall j :: k <= j <= |actions| ==> !EnabledAfter(s, start, actions, j, application, provider)
    ensures var w := Reached(s, start, actions);
            c in w.callbacks && w.callbacks[c].CSignedIn? ==>
              var payload := w.callbacks[c].signedIn.allowed.begun.payload;
              payload.applicationId != application || payload.provider != provider
  {
    var w := Reached(s, start, actions);
    if c in w.callbacks && w.callbacks[c].CSignedIn? {
      var j := EnabledAtCallback(s, start, actions, c);
      CameInAfter(s, start, actions, k, c);
    }
  }

  /** A callback that is not there yet comes in later. */
  lemma CameInAfter(s: Settings, start: int, actions: seq<Action>, k: nat, c: nat)
    requires IsJson(s) && k <= |actions| && c !in Reached(s, start, actions[..k]).callbacks
    requires var callbacks := Reached(s, start, actions).callbacks;
             c in callbacks && BegunOf(callbacks[c]).Some?
    ensures k <= BegunOf(Reached(s, start, actions).callbacks[c]).value.arrived.step
  {
    var begun := BegunOf(Reached(s, start, actions).callbacks[c]).value;
    CallbackCameIn(s, start, actions, c, begun);
    var m := begun.arrived.step + 1;
    if m <= k {
      assert actions[..k][..m] == actions[..m];
      RunExtends(s, start, actions[..k], m);
    }
  }

  /**
    The callback carried the state its start had sent to the same provider, at a
    reading less than ten minutes and a second after the start's.
  */
  lemma SignInAnswersItsStart(s: Settings, w: World, c: nat, p: nat, r: nat)
    requires c in w.callbacks && w.callbacks[c].CSignedIn? && ComesFrom(s, w, c, p, r)
    ensures var begun, st := w.callbacks[c].signedIn.allowed.begun, w.starts[r].started;
            && begun.input.state == st.payload.state
            && Text.ToLower(begun.input.pathValue) == st.chosen.attempt.provider
            && begun.arrived.now < st.when.now + 600 * SECOND + SECOND
  {
    var begun, st := w.callbacks[c].signedIn.allowed.begun, w.starts[r].started;
    UnixWithinASecond(begun.arrived.now, st.when.now + 600 * SECOND);
  }

  lemma UnixWithinASecond(a: int, b: int)
    requires CodeFlow.Unix(a) <= CodeFlow.Unix(b)
    ensures a < b + SECOND
  {
  }

  // The client of the stored target

  /** Both ids are registered, for clients of one application. */
  predicate SameApplication(registry: Registration.Registry, x: string, y: string) {
    var c, d := Registration.FindClient(registry.clients, x), Registration.FindClient(registry.clients, y);
    c.Some? && d.Some? && registry.clients[c.value].applicationId == registry.clients[d.value].applicationId
  }

  /** The clients of a prompt and of a start are the ones their ids name. */
  lemma NamedClients(s: Settings, w: World, c: nat, p: nat, r: nat)
    requires Flow.Inv(s.cfg, w.core) && c in w.callbacks && w.callbacks[c].CSignedIn? && ComesFrom(s, w, c, p, r)
    ensures var registry, t := w.core.db.registry, w.targets[p];
            var prompted, st := w.core.authorize[p].outcome.admitted, w.starts[r].started;
            && t.Valid() && w.callbacks[c].to == t.Uri()
            && Registration.FindClient(registry.clients, ParseRequest(s, t).clientId) == Some(prompted.client)
            && registry.clients[prompted.client] == prompted.clientRow
            && Registration.FindClient(registry.clients, StoredClientId(s, t.Uri())) == Some(st.chosen.client)
            && registry.clients[st.chosen.client].applicationId == w.callbacks[c].signedIn.allowed.begun.payload.applicationId
  {
    FlowResults.OneClientPerId(s.cfg, w.core, w.core.authorize[p].outcome.admitted.client);
    FlowResults.OneClientPerId(s.cfg, w.core, w.starts[r].started.chosen.client);
  }

  /**
    The sign-in ran for the very client whose prompt was shown exactly when both
    handlers read the target alike, and for its application exactly when they do
    or the two ids they read name clients of one application.
  */
  lemma SignInIsForThePromptedClient(s: Settings, start: int, actions: seq<Action>, c: nat, p: nat, r: nat)
    requires IsJson(s)
    requires var w := Reached(s, start, actions);
             c in w.callbacks && w.callbacks[c].CSignedIn? && ComesFrom(s, w, c, p, r)
    ensures var w := Reached(s, start, actions);
            var t, prompted := w.targets[p], w.core.authorize[p].outcome.admitted;
            var stored, requested := StoredClientId(s, w.callbacks[c].to), ParseRequest(s, t).clientId;
            && (w.starts[r].started.chosen.client == prompted.client <==> ReadAlike(s, t.rawQuery))
            && (w.callbacks[c].signedIn.allowed.begun.payload.applicationId == prompted.clientRow.applicationId
                <==> ReadAlike(s, t.rawQuery) || SameApplication(w.core.db.registry, stored, requested))
  {
    RunKeeps(s, start, actions);
    ForThePromptedClient(s, Reached(s, start, actions), c, p, r);
  }

  lemma ForThePromptedClient(s: Settings, w: World, c: nat, p: nat, r: nat)
    requires Flow.Inv(s.cfg, w.core) && c in w.callbacks && w.callbacks[c].CSignedIn? && ComesFrom(s, w, c, p, r)
    ensures var t, prompted := w.targets[p], w.core.authorize[p].outcome.admitted;
            var stored, requested := StoredClientId(s, w.callbacks[c].to), ParseRequest(s, t).clientId;
            && (w.starts[r].started.chosen.client == prompted.client <==> ReadAlike(s, t.rawQuery))
            && (w.callbacks[c].signedIn.allowed.begun.payload.applicationId == prompted.clientRow.applicationId
                <==> ReadAlike(s, t.rawQuery) || SameApplication(w.core.db.registry, stored, requested))
  {
    NamedClients(s, w, c, p, r);
    StoredIdIsRequested(s, w.targets[p]);
  }

  // Down to the token

  lemma SessionHasCreator(s: Settings, w: World, e: nat)
    requires Own(s, w) && e < |w.core.db.history| && w.core.db.history[e].Created?
    ensures exists c: nat :: CreatedBy(w, c, e) && w.callbacks[c].signedIn.user == w.core.db.history[e].owner
  {
    assert HasCreator(w, e);
    var c: nat :| CreatedBy(w, c, e);
    assert CallbackOk(s, w, c, w.callbacks[c]);
  }

  /** Users get sessions from finished callbacks only. */
  lemma EverySessionWasBrokered(s: Settings, start: int, actions: seq<Action>, e: nat)
    requires IsJson(s)
    requires var h := Reached(s, start, actions).core.db.history;
             e < |h| && h[e].Created?
    ensures var w := Reached(s, start, actions);
            exists c: nat :: CreatedBy(w, c, e) && w.callbacks[c].signedIn.user == w.core.db.history[e].owner
  {
    RunKeeps(s, start, actions);
    SessionHasCreator(s, Reached(s, start, actions), e);
  }

  /** The code flow under the broker is a run of the code flow. */
  lemma {:induction false} CoreIsRun(s: Settings, start: int, actions: seq<Action>) returns (steps: seq<CodeFlow.Action>)
    ensures Reached(s, start, actions).core == FlowResults.Reached(s.cfg, start, steps)
  {
    if actions == [] {
      steps := [];
    } else {
      var before, last := actions[..|actions| - 1], actions[|actions| - 1];
      steps := CoreIsRun(s, start, before);
      var step := CoreActionOf(s, Reached(s, start, before), last);
      if step.Some? {
        var longer := steps + [step.value];
        assert longer[..|longer| - 1] == steps;
        steps := longer;
      }
    }
  }

  lemma LastActionOf(s: Settings, w: World, a: Action) returns (step: Option<CodeFlow.Action>)
    requires a.Provision? || a.SignIn?
    ensures Exec(s, w, a).core == if step.None? then w.core else CodeFlow.Exec(s.cfg, w.core, step.value)
  {
    step := None;
    if Idle(w, a) {
      IdleExec(s, w, a);
    } else {
      LastStatements(s, w, a);
      if a.Provision? {
        step := NewUserOf(s, Later(w), a.request, a.fault);
      } else {
        step := NewSessionOf(s, Later(w), a.request, a.token);
      }
    }
  }

  lemma NewUserOf(s: Settings, w: World, r: nat, fault: bool) returns (step: Option<CodeFlow.Action>)
    requires r in w.callbacks && w.callbacks[r].CProvisioning?
    ensures ExecProvision(s, w, r, fault).core == if step.None? then w.core else CodeFlow.Exec(s.cfg, w.core, step.value)
  {
    var users := Provisioning.Exec(w.provisioning, Provisioning.Advance(r, fault)).accounts.users;
    step := if ExecProvision(s, w, r, fault).core == w.core then None
            else Some(CodeFlow.AddUser(users[|w.provisioning.accounts.users|]));
  }

  lemma NewSessionOf(s: Settings, w: World, r: nat, token: Option<string>) returns (step: Option<CodeFlow.Action>)
    requires r in w.callbacks && w.callbacks[r].CProvisioned?
    ensures ExecSignIn(s, w, r, token).core == if step.None? then w.core else CodeFlow.Exec(s.cfg, w.core, step.value)
  {
    step := if ExecSignIn(s, w, r, token).core == w.core then None
            else Some(CodeFlow.ChangeSessions(SessionEvent(s, w.core.now, w.callbacks[r].user, token.value)));
  }

  /** The one action of the code flow that a step contains, if any. */
  lemma CoreActionOf(s: Settings, w: World, a: Action) returns (step: Option<CodeFlow.Action>)
    ensures Exec(s, w, a).core == if step.None? then w.core else CodeFlow.Exec(s.cfg, w.core, step.value)
  {
    step := None;
    if Exec(s, w, a).core == w.core {
      return;
    }
    match a
    case System(action) => step := Some(action);
    case Authorize(_, _, _, _) => step := Some(Arriving(s, w, a));
    case Prompt(r, fault, _) => step := Some(CodeFlow.StepAuthorize(r, fault));
    case Provision(_, _) => step := LastActionOf(s, w, a);
    case SignIn(_, _) => step := LastActionOf(s, w, a);
    case _ =>
  }

  /** The session of a's request was created by callback c, at a time when the history had e events. */
  predicate SignedInThrough(s: Settings, w: World, a: nat, c: nat, e: nat)
    requires a in w.core.authorize && w.core.authorize[a].ADone? && w.core.authorize[a].issued.Some?
  {
    var i := w.core.authorize[a].issued.value.grant.signIn;
    && i.events <= |w.core.db.history|
    && Sessions.LiveAt(s.cfg.sha, w.core.db.history[..i.events], e, i.cookie, i.at)
    && CreatedBy(w, c, e)
    && w.callbacks[c].signedIn.user == i.session.owner
  }

  /** Callback c signed in the user that its exchanged identity is bound to, and an ID token of r is about that user. */
  ghost predicate IsAboutTheIdentity(s: Settings, start: int, actions: seq<Action>, r: nat, c: nat, k: nat)
    requires FlowResults.IsGranted(Reached(s, start, actions).core, r)
  {
    var w := Reached(s, start, actions);
    && c in w.callbacks && w.callbacks[c].CSignedIn?
    && var i, token := w.callbacks[c].signedIn, w.core.token[r].outcome.response.idToken;
       && ExchangedAt(s, start, actions, c, k, i.identity)
       && BoundTo(w, i.allowed, i.identity, i.user)
       && (token.Some? ==> i.user < |w.core.db.users| && token.value.sub == w.core.db.users[i.user].subject)
  }

  /**
    End to end: a granted token goes back to a code, the code to an authorization
    request made with a live session, and that session to a finished sign-in of
    the code's user. That user is the one bound to what the provider answered with
    in the sign-in's exchange, and the subject of the ID token is theirs.
  */
  lemma TokenTracesToSignIn(s: Settings, start: int, actions: seq<Action>, r: nat)
    requires IsJson(s) && FlowResults.IsGranted(Reached(s, start, actions).core, r)
    ensures exists a: nat, c: nat, e: nat, k: nat ::
              && FlowResults.TracesTo(s.cfg, Reached(s, start, actions).core, r, a)
              && SignedInThrough(s, Reached(s, start, actions), a, c, e)
              && IsAboutTheIdentity(s, start, actions, r, c, k)
  {
    var a := CodeTraces(s, start, actions, r);
    var c, e := SessionTraces(s, start, actions, r, a);
    var k := SubjectTraces(s, start, actions, r, a, c, e);
  }

  /** The code, and whom an ID token is about. */
  lemma CodeTraces(s: Settings, start: int, actions: seq<Action>, r: nat) returns (a: nat)
    requires FlowResults.IsGranted(Reached(s, start, actions).core, r)
    ensures FlowResults.TracesTo(s.cfg, Reached(s, start, actions).core, r, a)
    ensures var core := Reached(s, start, actions).core;
            var owner, token := core.authorize[a].issued.value.grant.signIn.session.owner, core.token[r].outcome.response.idToken;
            owner < |core.db.users| && (token.Some? ==> token.value.sub == core.db.users[owner].subject)
  {
    var steps := CoreIsRun(s, start, actions);
    FlowResults.GrantIsBound(s.cfg, start, steps, r);
    a :| FlowResults.TracesTo(s.cfg, Reached(s, start, actions).core, r, a);
    FlowResults.IdTokenContent(s.cfg, start, steps, r, a);
  }

  lemma SubjectTraces(s: Settings, start: int, actions: seq<Action>, r: nat, a: nat, c: nat, e: nat) returns (k: nat)
    requires IsJson(s) && FlowResults.IsGranted(Reached(s, start, actions).core, r)
    requires var core := Reached(s, start, actions).core;
             && a in core.authorize && core.authorize[a].ADone? && core.authorize[a].issued.Some?
             && SignedInThrough(s, Reached(s, start, actions), a, c, e)
             && var owner, token := core.authorize[a].issued.value.grant.signIn.session.owner, core.token[r].outcome.response.idToken;
                owner < |core.db.users| && (token.Some? ==> token.value.sub == core.db.users[owner].subject)
    ensures IsAboutTheIdentity(s, start, actions, r, c, k)
  {
    k := IdentityWasExchanged(s, start, actions, c);
    SignedInIsBound(s, start, actions, c);
  }

  lemma SignedInIsBound(s: Settings, start: int, actions: seq<Action>, c: nat)
    requires IsJson(s)
    requires var callbacks := Reached(s, start, actions).callbacks;
             c in callbacks && callbacks[c].CSignedIn?
    ensures var w := Reached(s, start, actions);
            var i := w.callbacks[c].signedIn;
            BoundTo(w, i.allowed, i.identity, i.user)
  {
    RunKeeps(s, start, actions);
    assert CallbackOk(s, Reached(s, start, actions), c, Reached(s, start, actions).callbacks[c]);
  }

  lemma SessionTraces(s: Settings, start: int, actions: seq<Action>, r: nat, a: nat) returns (c: nat, e: nat)
    requires IsJson(s) && FlowResults.IsGranted(Reached(s, start, actions).core, r)
    requires FlowResults.TracesTo(s.cfg, Reached(s, start, actions).core, r, a)
    ensures SignedInThrough(s, Reached(s, start, actions), a, c, e)
  {
    var w := Reached(s, start, actions);
    var g := w.core.authorize[a].issued.value.grant;
    e :| && Sessions.LiveAt(s.cfg.sha, w.core.db.history[..g.signIn.events], e, g.signIn.cookie, g.signIn.at)
         && w.core.db.history[e].owner == g.signIn.session.owner;
    EverySessionWasBrokered(s, start, actions, e);
    c :| CreatedBy(w, c, e) && w.callbacks[c].signedIn.user == w.core.db.history[e].owner;
  }
}
