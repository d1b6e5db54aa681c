/** Where a brokered sign-in comes from: the invariant of every run, and that every action keeps it. */
module BrokerProvenance {
  import opened Prelude
  import opened Models
  import opened Upstream
  import opened Broker
  import CodeFlow
  import Flow = CodeFlowInvariant
  import FlowResults = CodeFlowResults
  import Base64
  import Oauth
  import Provisioning
  import Text

  // How one state may follow another

  ghost predicate Extends(w: World, w': World) {
    && w.step <= w'.step
    && (w'.core == w.core || Flow.Extends(w.core, w'.core))
    && Provisioning.Grows(w.provisioning.accounts, w'.provisioning.accounts)
    && w.tables <= w'.tables
    && (forall r <- w.targets :: r in w'.targets && w'.targets[r] == w.targets[r])
    && (forall r <- w.prompts :: r in w'.prompts && w'.prompts[r] == w.prompts[r])
    && (forall r <- w.starts :: r in w'.starts && (w.starts[r].SRedirected? ==> w'.starts[r] == w.starts[r]))
    && (forall r <- w.callbacks :: r in w'.callbacks && (w.callbacks[r].CSignedIn? ==> w'.callbacks[r] == w.callbacks[r]))
  }

  // Cookies

  /** Request r carried this target and the authorization handler answered it with the prompt. */
  predicate PromptedBy(s: Settings, w: World, r: nat, returnTo: string) {
    && r in w.targets && w.targets[r].Valid() && w.targets[r].Uri() == returnTo && r in w.prompts
    && r in w.core.authorize && w.core.authorize[r].ADone? && w.core.authorize[r].outcome.Prompt?
    && w.core.authorize[r].input.req == ParseRequest(s, w.targets[r])
  }

  ghost predicate Prompted(s: Settings, w: World, returnTo: string) {
    exists r :: PromptedBy(s, w, r, returnTo)
  }

  predicate StartedBy(w: World, r: nat, payload: Payload) {
    r in w.starts && w.starts[r].SRedirected? && w.starts[r].started.payload == payload
  }

  ghost predicate StateText(s: Settings, w: World, text: string) {
    exists r, p :: StartedBy(w, r, p) && text == s.marshal(p)
  }

  /** A ciphertext in a browser's hands opens to a prompted target or to the payload of a start. */
  ghost predicate GivenOk(s: Settings, w: World, c: Bytes) {
    c in w.box.sealed && (Prompted(s, w, w.box.sealed[c]) || StateText(s, w, w.box.sealed[c]))
  }

  // Starts

  /** A moment of this run. */
  predicate PastMoment(w: World, m: Moment) {
    m.step < w.step && 0 < m.tables <= |w.tables| && m.now <= w.core.now
  }

  predicate PromptedBefore(s: Settings, w: World, r: nat, a: Attempt) {
    PromptedBy(s, w, r, a.returnTo) && w.prompts[r] < a.arrived.step
  }

  /** Its target was prompted before it came in. */
  ghost predicate AttemptOk(s: Settings, w: World, a: Attempt) {
    && IsSupported(a.provider) && Text.HasPrefix(a.returnTo, RETURN_PREFIX) && PastMoment(w, a.arrived)
    && exists r :: PromptedBefore(s, w, r, a)
  }

  ghost predicate StoredClientOk(s: Settings, w: World, a: Attempt, client: nat, row: Client) {
    && AttemptOk(s, w, a)
    && client < |w.core.db.registry.clients| && w.core.db.registry.clients[client] == row
    && row.clientId == StoredClientId(s, a.returnTo)
  }

  /** Enabled in a table that was current when it came in, or later. */
  ghost predicate ChosenOk(s: Settings, w: World, c: Chosen) {
    && StoredClientOk(s, w, c.attempt, c.client, c.clientRow)
    && c.attempt.arrived.tables <= c.at + 1 <= |w.tables|
    && IsEnabled(w.tables[c.at], c.clientRow.applicationId, c.attempt.provider)
  }

  /** The payload names what was chosen, a new state, and an expiry ten minutes after the redirect. */
  predicate PayloadSays(c: Chosen, when: Moment, p: Payload) {
    && p.provider == c.attempt.provider && p.applicationId == c.clientRow.applicationId && p.returnTo == c.attempt.returnTo
    && |p.state| == 43 && p.expiresAt == (when.now + 600 * SECOND) / SECOND
  }

  /** With Google a verifier that it will accept for the challenge it was sent; GitHub gets neither. */
  predicate VerifierOk(s: Settings, st: Started) {
    if st.payload.provider == "google" then
      Oauth.VerifyPKCE(s.cfg.sha, st.challenge, st.payload.verifier, "S256")
    else st.challenge == "" && st.payload.verifier == ""
  }

  /** The redirect came after the arrival, and its payload says what was checked. */
  ghost predicate StartedOk(s: Settings, w: World, st: Started) {
    && ChosenOk(s, w, st.chosen)
    && PastMoment(w, st.when) && st.chosen.attempt.arrived.step < st.when.step && st.chosen.at < st.when.tables
    && PayloadSays(st.chosen, st.when, st.payload)
    && VerifierOk(s, st)
  }

  ghost predicate StartOk(s: Settings, w: World, st: StartState) {
    match st
    case SOpened(a) => AttemptOk(s, w, a)
    case SClientRead(a, c, row) => StoredClientOk(s, w, a, c, row)
    case SAppRead(a, c, row) => StoredClientOk(s, w, a, c, row)
    case SChosen(c) => ChosenOk(s, w, c)
    case SRedirected(st) => StartedOk(s, w, st)
    case SPage(_) => true
  }

  // Callbacks

  /** It came back to the provider it was sent to, with the state it was sent with, in time. */
  predicate BegunOk(w: World, b: Begun) {
    && PastMoment(w, b.arrived)
    && Text.ToLower(b.input.pathValue) == b.payload.provider
    && b.input.state == b.payload.state
    && CodeFlow.Unix(b.arrived.now) <= b.payload.expiresAt
  }

  /** Start r was redirected before the callback came in, with the payload it presents. */
  predicate AnsweredBy(w: World, r: nat, b: Begun) {
    && BegunOk(w, b) && StartedBy(w, r, b.payload)
    && w.starts[r].started.when.step < b.arrived.step && w.starts[r].started.when.tables <= b.arrived.tables
  }

  /** And the provider was enabled in a table that was current when the callback came in, or later. */
  predicate AllowedBy(w: World, r: nat, a: Allowed) {
    && AnsweredBy(w, r, a.begun)
    && a.begun.arrived.tables <= a.at + 1 <= |w.tables|
    && IsEnabled(w.tables[a.at], a.begun.payload.applicationId, a.begun.payload.provider)
  }

  ghost predicate AllowedOk(w: World, a: Allowed) {
    exists r :: AllowedBy(w, r, a)
  }

  /** The user that the provider's identity is bound to. */
  ghost predicate BoundTo(w: World, a: Allowed, id: Identity, user: nat) {
    && id.provider == a.begun.payload.provider
    && Provisioning.Bound(w.provisioning.accounts, id.provider, id.subject, user)
    && user < |w.provisioning.accounts.users|
  }

  predicate SessionMade(s: Settings, w: World, i: SignedIn) {
    && i.event < |w.core.db.history|
    && var e := w.core.db.history[i.event];
       e.Created? && e.token == i.token && e.owner == i.user && e.ttl == s.sessionTtl
  }

  /** Its provisioning is under way. */
  predicate IsProvisioning(w: World, r: nat, a: Allowed, id: Identity) {
    && id.provider == a.begun.payload.provider
    && r in w.provisioning.requests && !w.provisioning.requests[r].Finished?
    && w.provisioning.requests[r].input.identity == id
  }

  ghost predicate CallbackOk(s: Settings, w: World, r: nat, c: CallbackState) {
    match c
    case COpened(b) => (exists q :: AnsweredBy(w, q, b)) && r !in w.provisioning.requests
    case CAllowed(a) => AllowedOk(w, a) && r !in w.provisioning.requests
    case CProvisioning(a, id) => AllowedOk(w, a) && IsProvisioning(w, r, a, id)
    case CProvisioned(a, id, user) => AllowedOk(w, a) && BoundTo(w, a, id, user)
    case CSignedIn(i, to) =>
      && AllowedOk(w, i.allowed) && BoundTo(w, i.allowed, i.identity, i.user)
      && SessionMade(s, w, i) && to == i.allowed.begun.payload.returnTo
    case CPage(_) => true
  }

  /** Callback c finished by making the create event at e. */
  predicate CreatedBy(w: World, c: nat, e: nat) {
    c in w.callbacks && w.callbacks[c].CSignedIn? && w.callbacks[c].signedIn.event == e
  }

  ghost predicate HasCreator(w: World, e: nat) {
    exists c :: CreatedBy(w, c, e)
  }

  // The invariant

  ghost predicate TargetsOk(s: Settings, w: World) {
    && w.targets.Keys == w.core.authorize.Keys
    && forall r <- w.core.authorize ::
         w.targets[r].Valid() && CodeFlow.InputOf(w.core.authorize[r]).req == ParseRequest(s, w.targets[r])
  }

  ghost predicate HistoryOk(w: World) {
    forall e: nat :: e < |w.core.db.history| && w.core.db.history[e].Created? ==> HasCreator(w, e)
  }

  predicate PromptsOk(w: World) {
    forall r <- w.prompts ::
      w.prompts[r] < w.step && r in w.core.authorize && w.core.authorize[r].ADone? && w.core.authorize[r].outcome.Prompt?
  }

  /** Users are the provisioned ones, and only callbacks provision. */
  predicate UsersOk(w: World) {
    && w.provisioning.accounts.users == w.core.db.users
    && w.provisioning.requests.Keys <= w.callbacks.Keys
  }

  ghost predicate GivensOk(s: Settings, w: World) {
    forall c <- w.box.given :: GivenOk(s, w, c)
  }

  ghost predicate StartsOk(s: Settings, w: World) {
    forall r <- w.starts :: StartOk(s, w, w.starts[r])
  }

  ghost predicate CallbacksOk(s: Settings, w: World) {
    forall r <- w.callbacks :: CallbackOk(s, w, r, w.callbacks[r])
  }

  /** The part of the invariant that is this module's own. */
  ghost predicate Own(s: Settings, w: World) {
    && w.tables != []
    && TargetsOk(s, w)
    && HistoryOk(w)
    && PromptsOk(w)
    && UsersOk(w)
    && GivensOk(s, w)
    && StartsOk(s, w)
    && CallbacksOk(s, w)
  }

  ghost predicate Inv(s: Settings, w: World) {
    Flow.Inv(s.cfg, w.core) && Provisioning.Inv(w.provisioning) && Own(s, w)
  }

  lemma InitialInv(s: Settings, now: int)
    ensures Inv(s, Initial(now))
  {
    Flow.InitialInv(s.cfg, now);
  }

  // Facts last

  lemma PromptedLasts(s: Settings, w: World, w': World, returnTo: string)
    requires Extends(w, w') && Prompted(s, w, returnTo)
    ensures Prompted(s, w', returnTo)
  {
    var r :| PromptedBy(s, w, r, returnTo);
    assert PromptedBy(s, w', r, returnTo);
  }

  lemma StateTextLasts(s: Settings, w: World, w': World, text: string)
    requires Extends(w, w') && StateText(s, w, text)
    ensures StateText(s, w', text)
  {
    var r, p :| StartedBy(w, r, p) && text == s.marshal(p);
    assert StartedBy(w', r, p);
  }

  predicate KeepsSeals(w: World, w': World) {
    forall c <- w.box.sealed :: c in w'.box.sealed && w'.box.sealed[c] == w.box.sealed[c]
  }

  lemma GivenLasts(s: Settings, w: World, w': World, c: Bytes)
    requires Extends(w, w') && KeepsSeals(w, w') && GivenOk(s, w, c)
    ensures GivenOk(s, w', c)
  {
    if Prompted(s, w, w.box.sealed[c]) {
      PromptedLasts(s, w, w', w.box.sealed[c]);
    } else {
      StateTextLasts(s, w, w', w.box.sealed[c]);
    }
  }

  lemma AttemptLasts(s: Settings, w: World, w': World, a: Attempt)
    requires Extends(w, w') && AttemptOk(s, w, a)
    ensures AttemptOk(s, w', a)
  {
    var r :| PromptedBefore(s, w, r, a);
    assert PromptedBefore(s, w', r, a);
  }

  lemma ChosenLasts(s: Settings, w: World, w': World, c: Chosen)
    requires Extends(w, w') && ChosenOk(s, w, c)
    ensures ChosenOk(s, w', c)
  {
    AttemptLasts(s, w, w', c.attempt);
  }

  lemma StartLasts(s: Settings, w: World, w': World, st: StartState)
    requires Extends(w, w') && StartOk(s, w, st)
    ensures StartOk(s, w', st)
  {
    match st
    case SOpened(a) => AttemptLasts(s, w, w', a);
    case SClientRead(a, _, _) => AttemptLasts(s, w, w', a);
    case SAppRead(a, _, _) => AttemptLasts(s, w, w', a);
    case SChosen(c) => ChosenLasts(s, w, w', c);
    case SRedirected(st) => ChosenLasts(s, w, w', st.chosen);
    case SPage(_) =>
  }

  lemma AllowedLasts(w: World, w': World, a: Allowed)
    requires Extends(w, w') && AllowedOk(w, a)
    ensures AllowedOk(w', a)
  {
    var r :| AllowedBy(w, r, a);
    assert AllowedBy(w', r, a);
  }

  lemma BoundLasts(w: World, w': World, a: Allowed, id: Identity, user: nat)
    requires Extends(w, w') && BoundTo(w, a, id, user)
    ensures BoundTo(w', a, id, user)
  {
    Provisioning.BoundGrows(w.provisioning.accounts, w'.provisioning.accounts, id.provider, id.subject, user);
  }

  /** Where request r of provisioning stands is as before. */
  predicate SameProvisioning(w: World, w': World, r: nat) {
    && (r in w'.provisioning.requests <==> r in w.provisioning.requests)
    && (r in w.provisioning.requests ==> w'.provisioning.requests[r] == w.provisioning.requests[r])
  }

  lemma CallbackLasts(s: Settings, w: World, w': World, r: nat, c: CallbackState)
    requires Extends(w, w') && CallbackOk(s, w, r, c)
    requires SameProvisioning(w, w', r) || c.CProvisioned? || c.CSignedIn? || c.CPage?
    ensures CallbackOk(s, w', r, c)
  {
    match c
    case COpened(b) =>
      var q :| AnsweredBy(w, q, b);
      assert AnsweredBy(w', q, b);
    case CAllowed(a) => AllowedLasts(w, w', a);
    case CProvisioning(a, _) => AllowedLasts(w, w', a);
    case CProvisioned(a, id, user) =>
      AllowedLasts(w, w', a);
      BoundLasts(w, w', a, id, user);
    case CSignedIn(i, _) =>
      AllowedLasts(w, w', i.allowed);
      BoundLasts(w, w', i.allowed, i.identity, i.user);
    case CPage(_) =>
  }

  // Part by part, what stays right when the new records are in order

  lemma GivensLast(s: Settings, w: World, w': World)
    requires GivensOk(s, w) && Extends(w, w') && KeepsSeals(w, w') && w'.box.given == w.box.given
    ensures GivensOk(s, w')
  {
    forall c <- w'.box.given ensures GivenOk(s, w', c) {
      GivenLasts(s, w, w', c);
    }
  }

  lemma StartsLast(s: Settings, w: World, w': World)
    requires StartsOk(s, w) && Extends(w, w')
    requires forall r <- w'.starts :: (r in w.starts && w'.starts[r] == w.starts[r]) || StartOk(s, w', w'.starts[r])
    ensures StartsOk(s, w')
  {
    forall r <- w'.starts ensures StartOk(s, w', w'.starts[r]) {
      if r in w.starts && w'.starts[r] == w.starts[r] {
        StartLasts(s, w, w', w.starts[r]);
      }
    }
  }

  lemma CallbacksLast(s: Settings, w: World, w': World)
    requires CallbacksOk(s, w) && Extends(w, w')
    requires forall r <- w'.callbacks ::
               (r in w.callbacks && w'.callbacks[r] == w.callbacks[r] && SameProvisioning(w, w', r))
               || CallbackOk(s, w', r, w'.callbacks[r])
    ensures CallbacksOk(s, w')
  {
    forall r <- w'.callbacks ensures CallbackOk(s, w', r, w'.callbacks[r]) {
      if r in w.callbacks && w'.callbacks[r] == w.callbacks[r] && SameProvisioning(w, w', r) {
        CallbackLasts(s, w, w', r, w.callbacks[r]);
      }
    }
  }

  lemma HistoryLast(w: World, w': World)
    requires HistoryOk(w) && Extends(w, w') && w.core.db.history <= w'.core.db.history
    requires forall e: nat :: |w.core.db.history| <= e < |w'.core.db.history| && w'.core.db.history[e].Created? ==>
               HasCreator(w', e)
    ensures HistoryOk(w')
  {
    forall e: nat | e < |w'.core.db.history| && w'.core.db.history[e].Created? ensures HasCreator(w', e) {
      if e < |w.core.db.history| {
        assert HasCreator(w, e);
        var c :| CreatedBy(w, c, e);
        assert CreatedBy(w', c, e);
      }
    }
  }

  /** All four, when nothing but the rest of the state has changed. */
  lemma RecordsLast(s: Settings, w: World, w': World)
    requires Own(s, w) && Extends(w, w') && w'.box == w.box && w'.starts == w.starts && w'.callbacks == w.callbacks
    requires w'.provisioning == w.provisioning && w.core.db.history <= w'.core.db.history
    requires forall e :: |w.core.db.history| <= e < |w'.core.db.history| ==> !w'.core.db.history[e].Created?
    ensures GivensOk(s, w') && StartsOk(s, w') && CallbacksOk(s, w') && HistoryOk(w')
  {
    GivensLast(s, w, w');
    StartsLast(s, w, w');
    CallbacksLast(s, w, w');
    HistoryLast(w, w');
  }

  lemma StepsOnTo(s: Settings, w: World, u: World)
    requires Own(s, w) && Extends(w, u) && u == w.(step := u.step)
    ensures Own(s, u)
  {
    RecordsLast(s, w, u);
  }

  /** The step counter alone. */
  lemma StepsOn(s: Settings, w: World)
    requires Own(s, w)
    ensures Own(s, Later(w)) && Extends(w, Later(w))
  {
    StepsOnTo(s, w, Later(w));
  }

  // Steps of the code flow

  /** What a step of the code flow alone means here. */
  ghost predicate Quiet(core: CodeFlow.World, next: CodeFlow.World) {
    && Flow.Extends(core, next)
    && next.db.users == core.db.users
    && next.authorize.Keys == core.authorize.Keys
    && (forall r <- core.authorize :: CodeFlow.InputOf(next.authorize[r]) == CodeFlow.InputOf(core.authorize[r]))
    && (forall e :: |core.db.history| <= e < |next.db.history| ==> !next.db.history[e].Created?)
  }

  /** The code flow itself starts no authorization request, adds no user and creates no session. */
  predicate IsQuiet(a: CodeFlow.Action) {
    !a.BeginAuthorize? && !a.AddUser? && !(a.ChangeSessions? && a.event.Created?)
  }

  lemma QuietStep(s: Settings, core: CodeFlow.World, a: CodeFlow.Action)
    requires Flow.Inv(s.cfg, core) && IsQuiet(a)
    ensures Flow.Inv(s.cfg, CodeFlow.Exec(s.cfg, core, a)) && Quiet(core, CodeFlow.Exec(s.cfg, core, a))
  {
    Flow.ExecKeeps(s.cfg, core, a);
    QuietEffect(s, core, a);
  }

  lemma QuietEffect(s: Settings, core: CodeFlow.World, a: CodeFlow.Action)
    requires IsQuiet(a)
    ensures var next := CodeFlow.Exec(s.cfg, core, a);
            && next.db.users == core.db.users
            && next.authorize.Keys == core.authorize.Keys
            && (forall r <- core.authorize :: CodeFlow.InputOf(next.authorize[r]) == CodeFlow.InputOf(core.authorize[r]))
            && (forall e :: |core.db.history| <= e < |next.db.history| ==> !next.db.history[e].Created?)
  {
    if a.StepAuthorize? && a.request in core.authorize {
      Flow.InputKept(s.cfg, core.db, core.now, a.fault, core.authorize[a.request]);
      FlowResults.QuietTables(s.cfg, core.db, core.now, a.fault, core.authorize[a.request]);
    } else if a.StepToken? && a.request in core.token {
      FlowResults.OnlyConsumptionWrites(s.cfg, core.db, core.now, a.fault, core.token[a.request]);
    }
  }

  lemma QuietExtends(w: World, next: CodeFlow.World)
    requires Quiet(w.core, next)
    ensures Extends(w, w.(core := next))
  {
  }

  lemma QuietOwn(s: Settings, w: World, w': World)
    requires Own(s, w) && Extends(w, w') && Quiet(w.core, w'.core) && w' == w.(core := w'.core)
    ensures Own(s, w')
  {
    RecordsLast(s, w, w');
  }

  lemma QuietKeeps(s: Settings, w: World, next: CodeFlow.World)
    requires Own(s, w) && Quiet(w.core, next)
    ensures Own(s, w.(core := next)) && Extends(w, w.(core := next))
  {
    QuietExtends(w, next);
    QuietOwn(s, w, w.(core := next));
  }

  lemma NewRequestKeeps(s: Settings, w: World, r: nat, target: Target, next: CodeFlow.World, st: CodeFlow.AuthorizeState)
    requires Own(s, w) && Flow.Extends(w.core, next)
    requires r !in w.core.authorize && next.authorize == w.core.authorize[r := st] && next.db == w.core.db
    requires target.Valid() && CodeFlow.InputOf(st).req == ParseRequest(s, target)
    ensures var w' := w.(core := next, targets := w.targets[r := target]);
            Own(s, w') && Extends(w, w')
  {
    NewRequestExtends(w, r, target, next);
    NewRequestOwn(s, w, w.(core := next, targets := w.targets[r := target]));
  }

  lemma NewRequestExtends(w: World, r: nat, target: Target, next: CodeFlow.World)
    requires Flow.Extends(w.core, next) && r !in w.targets && next.db == w.core.db
    ensures Extends(w, w.(core := next, targets := w.targets[r := target]))
  {
  }

  lemma NewRequestOwn(s: Settings, w: World, w': World)
    requires Own(s, w) && Extends(w, w') && TargetsOk(s, w') && w'.core.db == w.core.db
    requires w' == w.(core := w'.core, targets := w'.targets)
    ensures Own(s, w')
  {
    RecordsLast(s, w, w');
  }

  // Seals

  /** A new ciphertext opens to the new text, and the old ones to what they did. */
  lemma GiveKeeps(s: Settings, w: World, cipher: Bytes, text: string)
    requires GivensOk(s, w)
    requires cipher !in w.box.sealed && (Prompted(s, w, text) || StateText(s, w, text))
    ensures var w' := w.(box := w.box.Give(cipher, text));
            GivensOk(s, w')
  {
    var w' := w.(box := w.box.Give(cipher, text));
    forall c <- w'.box.given ensures GivenOk(s, w', c) {
      var held := if c == cipher then text else w.box.sealed[c];
      if Prompted(s, w, held) {
        PromptedUnsealed(s, w, w', held);
      } else {
        var r, p :| StartedBy(w, r, p) && held == s.marshal(p);
        assert StartedBy(w', r, p);
      }
    }
  }

  lemma PromptedUnsealed(s: Settings, w: World, w': World, text: string)
    requires w' == w.(box := w'.box) && Prompted(s, w, text)
    ensures Prompted(s, w', text)
  {
    var r :| PromptedBy(s, w, r, text);
    assert PromptedBy(s, w', r, text);
  }

  lemma BoxOwn(s: Settings, w: World, w': World)
    requires Own(s, w) && w' == w.(box := w'.box) && GivensOk(s, w')
    ensures Own(s, w')
  {
    StartsLast(s, w, w');
    CallbacksLast(s, w, w');
    HistoryLast(w, w');
  }

  /** Sealing changes nothing but the box. */
  lemma BoxKeeps(s: Settings, w: World, box: Box)
    requires Own(s, w) && KeepsSeals(w, w.(box := box)) && GivensOk(s, w.(box := box))
    ensures Own(s, w.(box := box)) && Extends(w, w.(box := box))
  {
    BoxOwn(s, w, w.(box := box));
  }

  /** Handing out a seal of an accounted-for text. */
  lemma GiveOwn(s: Settings, w: World, cipher: Bytes, text: string)
    requires Own(s, w) && cipher !in w.box.sealed && (Prompted(s, w, text) || StateText(s, w, text))
    ensures Own(s, w.(box := w.box.Give(cipher, text)))
  {
    GiveKeeps(s, w, cipher, text);
    BoxKeeps(s, w, w.box.Give(cipher, text));
  }

  lemma SealSecretKeeps(s: Settings, w: World, cipher: Bytes, plain: string)
    requires Own(s, w) && cipher !in w.box.sealed
    ensures var w' := w.(box := w.box.(sealed := w.box.sealed[cipher := plain]));
            Own(s, w') && Extends(w, w')
  {
    var box := w.box.(sealed := w.box.sealed[cipher := plain]);
    GivensLast(s, w, w.(box := box));
    BoxKeeps(s, w, box);
  }

  // Prompts

  lemma PromptStep(s: Settings, core: CodeFlow.World, r: nat)
    requires IsPrompting(core, r)
    ensures var next := CodeFlow.Exec(s.cfg, core, CodeFlow.StepAuthorize(r, false));
            r in next.authorize && next.authorize[r].ADone? && next.authorize[r].outcome.Prompt?
  {
  }

  lemma NotedOwn(s: Settings, w: World, w': World)
    requires Own(s, w) && Extends(w, w') && w' == w.(prompts := w'.prompts) && PromptsOk(w')
    ensures Own(s, w')
  {
    RecordsLast(s, w, w');
  }

  lemma NotedExtends(w: World, r: nat, step: nat)
    requires r !in w.prompts
    ensures Extends(w, w.(prompts := w.prompts[r := step]))
  {
  }

  lemma NotedPrompts(w: World, r: nat, step: nat)
    requires PromptsOk(w) && step < w.step
    requires r in w.core.authorize && w.core.authorize[r].ADone? && w.core.authorize[r].outcome.Prompt?
    ensures PromptsOk(w.(prompts := w.prompts[r := step]))
  {
  }

  /** A rendered prompt is noted. */
  lemma NotePrompt(s: Settings, w: World, r: nat, step: nat)
    requires Own(s, w) && step < w.step && r !in w.prompts
    requires r in w.core.authorize && w.core.authorize[r].ADone? && w.core.authorize[r].outcome.Prompt?
    ensures var w' := w.(prompts := w.prompts[r := step]);
            Own(s, w') && Extends(w, w')
  {
    NotedExtends(w, r, step);
    NotedPrompts(w, r, step);
    NotedOwn(s, w, w.(prompts := w.prompts[r := step]));
  }

  lemma PromptGiven(s: Settings, w: World, r: nat, cipher: Bytes)
    requires Own(s, w) && cipher !in w.box.sealed && r in w.prompts
    requires r in w.core.authorize && w.core.authorize[r].ADone? && w.core.authorize[r].outcome.Prompt?
    ensures Own(s, w.(box := w.box.Give(cipher, w.targets[r].Uri())))
  {
    assert PromptedBy(s, w, r, w.targets[r].Uri());
    GiveOwn(s, w, cipher, w.targets[r].Uri());
  }

  /** The prompt of a request that a step of the code flow has finished. */
  lemma PromptedKeeps(s: Settings, w: World, r: nat, step: nat, cipher: Option<Bytes>)
    requires Own(s, w) && step < w.step && r !in w.prompts && r in w.targets
    requires r in w.core.authorize && w.core.authorize[r].ADone? && w.core.authorize[r].outcome.Prompt?
    requires cipher.Some? ==> cipher.value !in w.box.sealed
    ensures var box := if cipher == None then w.box else w.box.Give(cipher.value, w.targets[r].Uri());
            var w' := w.(prompts := w.prompts[r := step], box := box);
            Own(s, w') && Extends(w, w')
  {
    NotePrompt(s, w, r, step);
    if cipher.Some? {
      PromptGiven(s, w.(prompts := w.prompts[r := step]), r, cipher.value);
    }
  }

  // Cookies presented

  /** A cookie that opens was given, so its text is accounted for. */
  lemma OpenedIsGiven(s: Settings, w: World, cookie: string)
    requires Own(s, w) && w.box.MayPresent(Some(cookie)) && w.box.Open(cookie).Some?
    ensures var text := w.box.Open(cookie).value;
            Prompted(s, w, text) || StateText(s, w, text)
  {
    assert GivenOk(s, w, Base64.Decode(Base64.Url, cookie).value);
  }

  lemma PromptedStartsWithSlash(s: Settings, w: World, text: string)
    requires Prompted(s, w, text)
    ensures Text.HasPrefix(text, "/")
  {
    var r :| PromptedBy(s, w, r, text);
    assert text[0] == w.targets[r].path[0];
  }

  lemma StateTextStartsWithBrace(s: Settings, w: World, text: string)
    requires IsJson(s) && StateText(s, w, text)
    ensures Text.HasPrefix(text, "{") && !Text.HasPrefix(text, "/")
  {
    var r, p :| StartedBy(w, r, p) && text == s.marshal(p);
    assert Text.HasPrefix(s.marshal(p), "{");
    assert text[0] == '{';
  }

  lemma PromptCookieIsPrompted(s: Settings, w: World, cookie: Option<string>)
    requires Own(s, w) && IsJson(s) && w.box.MayPresent(cookie) && w.box.ReadPrompt(cookie).Some?
    ensures Prompted(s, w, w.box.ReadPrompt(cookie).value)
  {
    OpenedIsGiven(s, w, cookie.value);
    var text := w.box.ReadPrompt(cookie).value;
    assert text[0] == RETURN_PREFIX[0];
    if StateText(s, w, text) {
      StateTextStartsWithBrace(s, w, text);
    }
  }

  lemma StateCookieIsStarted(s: Settings, w: World, cookie: Option<string>)
    requires Own(s, w) && IsJson(s) && w.box.MayPresent(cookie) && w.box.ReadState(s, cookie).Some?
    ensures exists r :: StartedBy(w, r, w.box.ReadState(s, cookie).value)
  {
    OpenedIsGiven(s, w, cookie.value);
    var text := w.box.Open(cookie.value).value;
    if Prompted(s, w, text) {
      PromptedStartsWithSlash(s, w, text);
    } else {
      var r, p :| StartedBy(w, r, p) && text == s.marshal(p);
      assert s.unmarshal(text) == Some(p);
    }
  }

  // Starts

  /** One start moves on. */
  lemma StartMoves(s: Settings, w: World, r: nat, st: StartState)
    requires Own(s, w) && (r in w.starts ==> w.starts[r].SRedirected? ==> st == w.starts[r])
    requires StartOk(s, w, st)
    ensures var w' := w.(starts := w.starts[r := st]);
            Own(s, w') && Extends(w, w')
  {
    StartExtends(w, r, st);
    StartOwn(s, w, w.(starts := w.starts[r := st]), r);
  }

  lemma StartOwn(s: Settings, w: World, w': World, r: nat)
    requires Own(s, w) && Extends(w, w') && r in w'.starts
    requires w' == w.(starts := w.starts[r := w'.starts[r]]) && StartOk(s, w, w'.starts[r])
    ensures Own(s, w')
  {
    StartLasts(s, w, w', w'.starts[r]);
    GivensLast(s, w, w');
    StartsLast(s, w, w');
    CallbacksLast(s, w, w');
    HistoryLast(w, w');
  }

  lemma StartExtends(w: World, r: nat, st: StartState)
    requires r in w.starts ==> w.starts[r].SRedirected? ==> st == w.starts[r]
    ensures Extends(w, w.(starts := w.starts[r := st]))
  {
  }

  /** A start comes in after its target was prompted. */
  lemma BeginStartOk(s: Settings, w: World, pathValue: string, cookie: Option<string>)
    requires Own(s, w) && IsJson(s) && w.box.MayPresent(cookie)
    ensures StartOk(s, Later(w), BeginStart(s, w.box, Here(w), pathValue, cookie))
  {
    if BeginStart(s, w.box, Here(w), pathValue, cookie).SOpened? {
      PromptCookieIsPrompted(s, w, cookie);
      var returnTo := w.box.ReadPrompt(cookie).value;
      var r :| PromptedBy(s, w, r, returnTo);
      NewAttemptOk(s, w, r, Attempt(Text.ToLower(pathValue), returnTo, Here(w)));
    }
  }

  lemma NewAttemptOk(s: Settings, w: World, r: nat, a: Attempt)
    requires PromptsOk(w) && w.tables != [] && PromptedBy(s, w, r, a.returnTo)
    requires IsSupported(a.provider) && Text.HasPrefix(a.returnTo, RETURN_PREFIX) && a.arrived == Here(w)
    ensures AttemptOk(s, Later(w), a)
  {
    assert PromptedBefore(s, Later(w), r, a);
  }

  lemma FirstStatementOk(s: Settings, w: World, fault: bool, a: Attempt)
    requires AttemptOk(s, w, a) && w.tables != []
    ensures StartOk(s, w, StartStep(s, w.core.db.registry, w.tables[|w.tables| - 1], |w.tables| - 1, fault, SOpened(a)))
  {
  }

  lemma StartStepOk(s: Settings, w: World, fault: bool, st: StartState)
    requires w.tables != [] && StartOk(s, w, st)
    ensures StartOk(s, w, StartStep(s, w.core.db.registry, w.tables[|w.tables| - 1], |w.tables| - 1, fault, st))
  {
    match st
    case SOpened(a) => FirstStatementOk(s, w, fault, a);
    case _ =>
  }

  lemma VerifierIsAccepted(s: Settings, here: Moment, c: Chosen, randoms: Randoms)
    ensures var st := Redirected(s, here, c, randoms);
            st.SRedirected? ==> VerifierOk(s, st.started)
  {
    if randoms.verifier.Some? {
      Oauth.GeneratedVerifierAccepted(s.cfg.sha, randoms.verifier.value);
    }
  }

  lemma PayloadOfRedirect(s: Settings, here: Moment, c: Chosen, randoms: Randoms)
    ensures var st := Redirected(s, here, c, randoms);
            && (st.SRedirected? || st.SPage?)
            && (st.SRedirected? ==>
                  && st.started.chosen == c && st.started.when == here
                  && PayloadSays(c, here, st.started.payload))
  {
    if randoms.state.Some? {
      Base64.EncodeLength(Base64.Url, randoms.state.value);
    }
  }

  lemma SentOk(s: Settings, w: World, st: Started)
    requires ChosenOk(s, w, st.chosen) && ChosenOk(s, Later(w), st.chosen) && VerifierOk(s, st) && st.when == Here(w)
    requires PayloadSays(st.chosen, st.when, st.payload)
    ensures StartedOk(s, Later(w), st)
  {
  }

  /** A redirect says what was checked, and the provider will accept its verifier. */
  lemma RedirectedOk(s: Settings, w: World, c: Chosen, randoms: Randoms)
    requires ChosenOk(s, w, c)
    ensures StartOk(s, Later(w), Redirected(s, Here(w), c, randoms))
  {
    var st := Redirected(s, Here(w), c, randoms);
    ChosenLasts(s, w, Later(w), c);
    VerifierIsAccepted(s, Here(w), c, randoms);
    PayloadOfRedirect(s, Here(w), c, randoms);
    if st.SRedirected? {
      SentOk(s, w, st.started);
    }
  }

  lemma SealedStartKeeps(s: Settings, w: World, r: nat, st: StartState, cipher: Bytes)
    requires Own(s, w) && r in w.starts && w.starts[r].SChosen?
    requires cipher !in w.box.sealed && st.SRedirected? && StartOk(s, w, st)
    ensures var w' := w.(starts := w.starts[r := st], box := w.box.Give(cipher, s.marshal(st.started.payload)));
            Own(s, w') && Extends(w, w')
  {
    var u := w.(starts := w.starts[r := st]);
    StartMoves(s, w, r, st);
    assert StartedBy(u, r, st.started.payload);
    GiveOwn(s, u, cipher, s.marshal(st.started.payload));
  }

  /** What a redirect comes to. */
  lemma RedirectCases(s: Settings, w: World, r: nat, randoms: Randoms, cipher: Option<Bytes>)
    requires r in w.starts && w.starts[r].SChosen?
    ensures var next := Redirected(s, Here(w), w.starts[r].chosen, randoms);
            var page := if next.SPage? then next else SPage(500);
            var w' := Later(ExecRedirect(s, w, r, randoms, cipher));
            && (next.SPage? || next.SRedirected?)
            && w' == if next.SPage? || cipher == None then Later(w).(starts := w.starts[r := page])
                     else Later(w).(starts := w.starts[r := next],
                                    box := w.box.Give(cipher.value, s.marshal(next.started.payload)))
  {
  }

  lemma RedirectedStands(s: Settings, w: World, r: nat, randoms: Randoms)
    requires Own(s, w) && r in w.starts && w.starts[r].SChosen?
    ensures StartOk(s, Later(w), Redirected(s, Here(w), w.starts[r].chosen, randoms))
  {
    assert StartOk(s, w, w.starts[r]);
    RedirectedOk(s, w, w.starts[r].chosen, randoms);
  }

  lemma RedirectKeeps(s: Settings, w: World, r: nat, randoms: Randoms, cipher: Option<Bytes>)
    requires Own(s, w) && r in w.starts && w.starts[r].SChosen?
    requires cipher.Some? ==> cipher.value !in w.box.sealed
    ensures var w' := Later(ExecRedirect(s, w, r, randoms, cipher));
            Own(s, w') && Extends(Later(w), w')
  {
    var next, u := Redirected(s, Here(w), w.starts[r].chosen, randoms), Later(w);
    StepsOn(s, w);
    RedirectedStands(s, w, r, randoms);
    RedirectCases(s, w, r, randoms, cipher);
    if next.SPage? || cipher == None {
      StartMoves(s, u, r, if next.SPage? then next else SPage(500));
    } else {
      SealedStartKeeps(s, u, r, next, cipher.value);
    }
  }

  // Callbacks

  lemma CallbackExtends(w: World, r: nat, c: CallbackState)
    requires r in w.callbacks ==> w.callbacks[r].CSignedIn? ==> c == w.callbacks[r]
    ensures Extends(w, w.(callbacks := w.callbacks[r := c]))
  {
  }

  lemma CallbackOwn(s: Settings, w: World, w': World, r: nat)
    requires Own(s, w) && Extends(w, w') && r in w'.callbacks
    requires w' == w.(callbacks := w.callbacks[r := w'.callbacks[r]]) && CallbackOk(s, w, r, w'.callbacks[r])
    ensures Own(s, w')
  {
    CallbackLasts(s, w, w', r, w'.callbacks[r]);
    CallbackOwnOf(s, w, w', r);
  }

  lemma CallbackOwnOf(s: Settings, w: World, w': World, r: nat)
    requires Own(s, w) && Extends(w, w') && r in w'.callbacks
    requires w' == w.(callbacks := w.callbacks[r := w'.callbacks[r]]) && CallbackOk(s, w', r, w'.callbacks[r])
    ensures Own(s, w')
  {
    GivensLast(s, w, w');
    StartsLast(s, w, w');
    CallbacksLast(s, w, w');
    HistoryLast(w, w');
  }

  /** One callback moves on, and its provisioning stays where it is. */
  lemma CallbackMoves(s: Settings, w: World, r: nat, c: CallbackState)
    requires Own(s, w) && (r in w.callbacks ==> w.callbacks[r].CSignedIn? ==> c == w.callbacks[r])
    requires CallbackOk(s, w, r, c)
    ensures var w' := w.(callbacks := w.callbacks[r := c]);
            Own(s, w') && Extends(w, w')
  {
    CallbackExtends(w, r, c);
    CallbackOwn(s, w, w.(callbacks := w.callbacks[r := c]), r);
  }

  /** A callback comes in after the redirect of the start it answers. */
  lemma BeginCallbackOk(s: Settings, w: World, r: nat, input: CallbackInput)
    requires Own(s, w) && IsJson(s) && w.box.MayPresent(input.cookie) && r !in w.callbacks
    ensures CallbackOk(s, Later(w), r, BeginCallback(s, w.box, Here(w), input))
  {
    if w.box.ReadState(s, input.cookie).Some? {
      StateCookieIsStarted(s, w, input.cookie);
      var p := w.box.ReadState(s, input.cookie).value;
      var q :| StartedBy(w, q, p);
      assert StartOk(s, w, w.starts[q]);
      if BeginCallback(s, w.box, Here(w), input).COpened? {
        assert AnsweredBy(Later(w), q, Begun(input, Here(w), p));
      }
    }
  }

  lemma AllowedNow(w: World, q: nat, begun: Begun)
    requires AnsweredBy(w, q, begun)
    requires IsEnabled(w.tables[|w.tables| - 1], begun.payload.applicationId, begun.payload.provider)
    ensures AllowedOk(w, Allowed(begun, |w.tables| - 1))
  {
    assert AllowedBy(w, q, Allowed(begun, |w.tables| - 1));
  }

  /** A statement of a callback that does not begin provisioning. */
  lemma CallbackStepOk(s: Settings, w: World, r: nat, fault: bool, exchanged: Option<Identity>, c: CallbackState)
    requires w.tables != [] && CallbackOk(s, w, r, c)
    requires c.CAllowed? ==> fault || exchanged == None
    ensures CallbackOk(s, w, r, CallbackStep(w.tables[|w.tables| - 1], |w.tables| - 1, fault, exchanged, c))
  {
    if c.COpened? && IsEnabled(w.tables[|w.tables| - 1], c.begun.payload.applicationId, c.begun.payload.provider) {
      var q :| AnsweredBy(w, q, c.begun);
      AllowedNow(w, q, c.begun);
    }
  }

  /** The rest of the state, when one callback and what it provisions have moved on. */
  lemma AdvancedOwn(s: Settings, w: World, w': World, r: nat)
    requires Own(s, w) && Extends(w, w') && r in w'.callbacks && UsersOk(w')
    requires w' == w.(provisioning := w'.provisioning, callbacks := w.callbacks[r := w'.callbacks[r]], core := w'.core)
    requires forall q <- w.callbacks :: q == r || SameProvisioning(w, w', q)
    requires w'.core.authorize == w.core.authorize && w'.core.db.history == w.core.db.history
    requires CallbackOk(s, w', r, w'.callbacks[r])
    ensures Own(s, w')
  {
    GivensLast(s, w, w');
    StartsLast(s, w, w');
    CallbacksLast(s, w, w');
    HistoryLast(w, w');
  }

  function Answered(w: World, r: nat, id: Identity, random: Option<Bytes>): World
    requires r in w.callbacks && w.callbacks[r].CAllowed?
  {
    var begin := Provisioning.Begin(r, Provisioning.Input(id, random));
    w.(callbacks := w.callbacks[r := CProvisioning(w.callbacks[r].allowed, id)],
       provisioning := Provisioning.Exec(w.provisioning, begin))
  }

  lemma AnsweredEffect(s: Settings, w: World, r: nat, id: Identity, random: Option<Bytes>)
    requires UsersOk(w) && r in w.callbacks && w.callbacks[r].CAllowed? && r !in w.provisioning.requests
    ensures var w' := Answered(w, r, id, random);
            && Extends(w, w') && UsersOk(w')
            && r in w'.provisioning.requests && w'.provisioning.requests[r].Start?
            && w'.provisioning.requests[r].input.identity == id
            && (forall q <- w.callbacks :: q == r || SameProvisioning(w, w', q))
  {
  }

  /** The exchange answered, and provisioning begins. */
  lemma BeginProvisioningKeeps(s: Settings, w: World, r: nat, id: Identity, random: Option<Bytes>)
    requires Own(s, w) && r in w.callbacks && w.callbacks[r].CAllowed?
    requires id.provider == w.callbacks[r].allowed.begun.payload.provider
    ensures Own(s, Answered(w, r, id, random)) && Extends(w, Answered(w, r, id, random))
  {
    var w' := Answered(w, r, id, random);
    assert CallbackOk(s, w, r, w.callbacks[r]);
    AnsweredEffect(s, w, r, id, random);
    AllowedLasts(w, w', w.callbacks[r].allowed);
    AdvancedOwn(s, w, w', r);
  }

  // Provisioning

  /** The users that a statement of provisioning adds, if any. */
  lemma ProvisioningStep(w: Provisioning.World, r: nat, fault: bool)
    requires r in w.requests && Provisioning.Inv(w)
    ensures var next := Provisioning.Exec(w, Provisioning.Advance(r, fault));
            && Provisioning.Inv(next) && Provisioning.Grows(w.accounts, next.accounts)
            && next.requests.Keys == w.requests.Keys
            && (forall q <- w.requests :: q != r ==> next.requests[q] == w.requests[q])
            && next.requests[r].input == w.requests[r].input
            && (next.accounts.users == w.accounts.users
                || (|next.accounts.users| == |w.accounts.users| + 1
                    && next.accounts.users == w.accounts.users + [next.accounts.users[|w.accounts.users|]]))
  {
    Provisioning.ExecKeeps(w, Provisioning.Advance(r, fault));
    Provisioning.StepKeeps(w.accounts, fault, w.requests[r]);
    Provisioning.StepAddsOneIdentityOrNothing(w.accounts, fault, w.requests[r]);
  }

  lemma AddUserEffect(s: Settings, core: CodeFlow.World, user: User)
    ensures var next := CodeFlow.Exec(s.cfg, core, CodeFlow.AddUser(user));
            && next.db.users == core.db.users + [user]
            && next.authorize == core.authorize && next.db.history == core.db.history
  {
  }

  /** The code flow with the user that was added. */
  lemma NewUserStep(s: Settings, core: CodeFlow.World, before: seq<User>, after: seq<User>)
    requires Flow.Inv(s.cfg, core) && core.db.users == before
    requires after == before || (|after| == |before| + 1 && after == before + [after[|before|]])
    ensures var next := WithNewUser(s, core, before, after);
            && Flow.Inv(s.cfg, next) && (next == core || Flow.Extends(core, next)) && next.db.users == after
            && next.authorize == core.authorize && next.db.history == core.db.history
  {
    if after != before {
      var add := CodeFlow.AddUser(after[|before|]);
      AddUserEffect(s, core, after[|before|]);
      Flow.ExecKeeps(s.cfg, core, add);
    }
  }

  /** A callback after a statement of its provisioning. */
  function Advanced(w: World, r: nat, next: Provisioning.World, core: CodeFlow.World): World
    requires r in w.callbacks && w.callbacks[r].CProvisioning? && r in next.requests
  {
    var c := AfterProvisioning(w.callbacks[r].allowed, w.callbacks[r].identity, next.requests[r]);
    w.(provisioning := next, callbacks := w.callbacks[r := c], core := core)
  }

  lemma ProvisionedOk(s: Settings, w: World, w': World, r: nat)
    requires r in w.callbacks && w.callbacks[r].CProvisioning? && CallbackOk(s, w, r, w.callbacks[r]) && Extends(w, w')
    requires Provisioning.Inv(w'.provisioning) && r in w'.provisioning.requests
    requires w'.provisioning.requests[r].input == w.provisioning.requests[r].input
    ensures var c := AfterProvisioning(w.callbacks[r].allowed, w.callbacks[r].identity, w'.provisioning.requests[r]);
            CallbackOk(s, w', r, c)
  {
    AllowedLasts(w, w', w.callbacks[r].allowed);
    assert Provisioning.RequestOk(w'.provisioning.accounts, w'.provisioning.requests[r]);
  }

  lemma AdvancedExtends(w: World, r: nat, next: Provisioning.World, core: CodeFlow.World)
    requires r in w.callbacks && w.callbacks[r].CProvisioning? && r in next.requests
    requires Provisioning.Grows(w.provisioning.accounts, next.accounts)
    requires core == w.core || Flow.Extends(w.core, core)
    ensures Extends(w, Advanced(w, r, next, core))
  {
  }

  lemma AdvancedRest(s: Settings, w: World, w': World, r: nat)
    requires UsersOk(w) && r in w.callbacks && w.callbacks[r].CProvisioning?
    requires r in w'.provisioning.requests && w' == Advanced(w, r, w'.provisioning, w'.core)
    requires w'.provisioning.requests.Keys == w.provisioning.requests.Keys
    requires forall q <- w.provisioning.requests :: q != r ==> w'.provisioning.requests[q] == w.provisioning.requests[q]
    ensures w'.provisioning.requests.Keys <= w'.callbacks.Keys
    ensures forall q <- w.callbacks :: q == r || SameProvisioning(w, w', q)
  {
  }

  lemma ProvisionedKeeps(s: Settings, w: World, w': World, r: nat)
    requires Own(s, w) && r in w.callbacks && w.callbacks[r].CProvisioning?
    requires r in w'.provisioning.requests && w' == Advanced(w, r, w'.provisioning, w'.core) && Extends(w, w')
    requires Provisioning.Inv(w'.provisioning) && w'.core.db.users == w'.provisioning.accounts.users
    requires w'.provisioning.requests.Keys == w.provisioning.requests.Keys
    requires forall q <- w.provisioning.requests :: q != r ==> w'.provisioning.requests[q] == w.provisioning.requests[q]
    requires w'.provisioning.requests[r].input == w.provisioning.requests[r].input
    requires w'.core.authorize == w.core.authorize && w'.core.db.history == w.core.db.history
    ensures Own(s, w')
  {
    AdvancedRest(s, w, w', r);
    ProvisionedOk(s, w, w', r);
    AdvancedOwn(s, w, w', r);
  }

  lemma ProvisionExec(s: Settings, w: World, r: nat, fault: bool)
    requires r in w.callbacks && w.callbacks[r].CProvisioning? && r in w.provisioning.requests
    ensures var next := Provisioning.Exec(w.provisioning, Provisioning.Advance(r, fault));
            var core := WithNewUser(s, w.core, w.provisioning.accounts.users, next.accounts.users);
            ExecProvision(s, w, r, fault) == Advanced(w, r, next, core)
  {
  }

  lemma ProvisionKeeps(s: Settings, w: World, r: nat, fault: bool)
    requires Inv(s, w) && r in w.callbacks && w.callbacks[r].CProvisioning?
    ensures var w' := ExecProvision(s, w, r, fault);
            Inv(s, w') && Extends(w, w')
  {
    assert CallbackOk(s, w, r, w.callbacks[r]);
    var next := Provisioning.Exec(w.provisioning, Provisioning.Advance(r, fault));
    var core := WithNewUser(s, w.core, w.provisioning.accounts.users, next.accounts.users);
    ProvisioningStep(w.provisioning, r, fault);
    NewUserStep(s, w.core, w.provisioning.accounts.users, next.accounts.users);
    ProvisionExec(s, w, r, fault);
    AdvancedExtends(w, r, next, core);
    ProvisionedKeeps(s, w, Advanced(w, r, next, core), r);
  }

  // The session

  function Finish(w: World, r: nat, token: string, next: CodeFlow.World): World
    requires r in w.callbacks && w.callbacks[r].CProvisioned?
  {
    var c := w.callbacks[r];
    var done := SignedIn(c.allowed, c.identity, c.user, token, |w.core.db.history|);
    w.(core := next, callbacks := w.callbacks[r := CSignedIn(done, c.allowed.begun.payload.returnTo)])
  }

  lemma FinishOk(s: Settings, w: World, r: nat, token: string, next: CodeFlow.World)
    requires r in w.callbacks && w.callbacks[r].CProvisioned? && CallbackOk(s, w, r, w.callbacks[r])
    requires Flow.Extends(w.core, next)
    requires next.db.history == w.core.db.history + [SessionEvent(s, w.core.now, w.callbacks[r].user, token)]
    ensures var w' := Finish(w, r, token, next);
            && Extends(w, w') && CallbackOk(s, w', r, w'.callbacks[r])
            && CreatedBy(w', r, |w.core.db.history|)
  {
    var c, w' := w.callbacks[r], Finish(w, r, token, next);
    AllowedLasts(w, w', c.allowed);
    BoundLasts(w, w', c.allowed, c.identity, c.user);
  }

  /** The session is created and its callback finishes. */
  lemma SignedInKeeps(s: Settings, w: World, r: nat, token: string, next: CodeFlow.World)
    requires Own(s, w) && r in w.callbacks && w.callbacks[r].CProvisioned?
    requires Flow.Extends(w.core, next) && next.authorize == w.core.authorize && next.db.users == w.core.db.users
    requires next.db.history == w.core.db.history + [SessionEvent(s, w.core.now, w.callbacks[r].user, token)]
    ensures Own(s, Finish(w, r, token, next)) && Extends(w, Finish(w, r, token, next))
  {
    var w' := Finish(w, r, token, next);
    FinishOk(s, w, r, token, next);
    FinishOwn(s, w, w', r);
  }

  lemma FinishHistory(w: World, w': World, r: nat)
    requires HistoryOk(w) && Extends(w, w') && CreatedBy(w', r, |w.core.db.history|)
    requires |w'.core.db.history| == |w.core.db.history| + 1 && w.core.db.history <= w'.core.db.history
    ensures HistoryOk(w')
  {
    assert HasCreator(w', |w.core.db.history|);
    HistoryLast(w, w');
  }

  lemma FinishRecords(s: Settings, w: World, w': World, r: nat)
    requires Own(s, w) && Extends(w, w') && r in w'.callbacks && CallbackOk(s, w', r, w'.callbacks[r])
    requires w' == w.(core := w'.core, callbacks := w.callbacks[r := w'.callbacks[r]])
    ensures GivensOk(s, w') && StartsOk(s, w') && CallbacksOk(s, w')
  {
    GivensLast(s, w, w');
    StartsLast(s, w, w');
    CallbacksLast(s, w, w');
  }

  lemma FinishOwn(s: Settings, w: World, w': World, r: nat)
    requires Own(s, w) && Extends(w, w') && r in w'.callbacks && CallbackOk(s, w', r, w'.callbacks[r])
    requires w' == w.(core := w'.core, callbacks := w.callbacks[r := w'.callbacks[r]])
    requires r in w.callbacks && CreatedBy(w', r, |w.core.db.history|)
    requires w'.core.authorize == w.core.authorize && w'.core.db.users == w.core.db.users
    requires |w'.core.db.history| == |w.core.db.history| + 1 && w.core.db.history <= w'.core.db.history
    ensures Own(s, w')
  {
    FinishRecords(s, w, w', r);
    FinishHistory(w, w', r);
  }

  lemma CreateSessionStep(s: Settings, core: CodeFlow.World, user: nat, token: string)
    requires s.cfg.sha(token) !in core.db.sessions.rows
    ensures var event := SessionEvent(s, core.now, user, token);
            var next := CodeFlow.Exec(s.cfg, core, CodeFlow.ChangeSessions(event));
            && next.db.history == core.db.history + [event]
            && next.authorize == core.authorize && next.db.users == core.db.users
  {
  }

  lemma SignInKeeps(s: Settings, w: World, r: nat, token: Option<string>)
    requires Inv(s, w) && r in w.callbacks && w.callbacks[r].CProvisioned?
    ensures var w' := ExecSignIn(s, w, r, token);
            Inv(s, w') && Extends(w, w')
  {
    if token == None || s.cfg.sha(token.value) in w.core.db.sessions.rows {
      CallbackMoves(s, w, r, CPage(500));
    } else {
      var create := CodeFlow.ChangeSessions(SessionEvent(s, w.core.now, w.callbacks[r].user, token.value));
      var next := CodeFlow.Exec(s.cfg, w.core, create);
      CreateSessionStep(s, w.core, w.callbacks[r].user, token.value);
      Flow.ExecKeeps(s.cfg, w.core, create);
      assert ExecSignIn(s, w, r, token) == Finish(w, r, token.value, next);
      SignedInKeeps(s, w, r, token.value, next);
    }
  }

  // Every action

  lemma ExtendsOn(w: World, w': World)
    requires Extends(Later(w), w')
    ensures Extends(w, w')
  {
  }

  lemma NothingKeeps(s: Settings, w: World)
    requires Inv(s, w)
    ensures Inv(s, Later(w)) && Extends(w, Later(w))
  {
    StepsOn(s, w);
  }

  lemma CoreKeeps(s: Settings, w: World, next: CodeFlow.World)
    requires Own(s, w) && Quiet(w.core, next)
    ensures var w' := Later(w).(core := next);
            Own(s, w') && Extends(w, w')
  {
    StepsOn(s, w);
    QuietKeeps(s, Later(w), next);
    ExtendsOn(w, Later(w).(core := next));
  }

  lemma SystemExec(s: Settings, w: World, a: CodeFlow.Action)
    requires IsSystemAction(w, a)
    ensures Exec(s, w, System(a)) == Later(w).(core := CodeFlow.Exec(s.cfg, w.core, a))
  {
  }

  lemma SystemKeeps(s: Settings, w: World, a: CodeFlow.Action)
    requires Inv(s, w) && IsSystemAction(w, a)
    ensures var w' := Exec(s, w, System(a));
            Inv(s, w') && Extends(w, w')
  {
    SystemExec(s, w, a);
    QuietStep(s, w.core, a);
    CoreKeeps(s, w, CodeFlow.Exec(s.cfg, w.core, a));
  }

  lemma BeginAuthorizeStep(s: Settings, core: CodeFlow.World, r: nat, input: CodeFlow.AuthorizeInput)
    requires r !in core.authorize && input.arrival == CodeFlow.ArrivalAt(core)
    ensures var next := CodeFlow.Exec(s.cfg, core, CodeFlow.BeginAuthorize(r, input));
            next.authorize == core.authorize[r := CodeFlow.AStart(input)] && next.db == core.db
  {
  }

  /** The step of the code flow in which a request comes in. */
  function Arriving(s: Settings, w: World, a: Action): CodeFlow.Action
    requires a.Authorize?
  {
    var input := CodeFlow.AuthorizeInput(ParseRequest(s, a.target), a.cookie, a.random, CodeFlow.ArrivalAt(w.core));
    CodeFlow.BeginAuthorize(a.request, input)
  }

  lemma AuthorizeExec(s: Settings, w: World, a: Action)
    requires a.Authorize? && a.request !in w.core.authorize && a.target.Valid()
    ensures var next := CodeFlow.Exec(s.cfg, w.core, Arriving(s, w, a));
            Exec(s, w, a) == Later(w).(core := next, targets := w.targets[a.request := a.target])
  {
  }

  lemma AuthorizeKeeps(s: Settings, w: World, a: Action)
    requires Inv(s, w) && a.Authorize? && a.request !in w.core.authorize && a.target.Valid()
    ensures Inv(s, Exec(s, w, a)) && Extends(w, Exec(s, w, a))
  {
    var begin := Arriving(s, w, a);
    AuthorizeExec(s, w, a);
    Flow.ExecKeeps(s.cfg, w.core, begin);
    BeginAuthorizeStep(s, w.core, a.request, begin.authorizeInput);
    ArrivingKeeps(s, w, a.request, a.target, CodeFlow.Exec(s.cfg, w.core, begin), begin.authorizeInput);
  }

  lemma ArrivingKeeps(s: Settings, w: World, r: nat, target: Target, next: CodeFlow.World, input: CodeFlow.AuthorizeInput)
    requires Own(s, w) && Flow.Extends(w.core, next)
    requires r !in w.core.authorize && next.authorize == w.core.authorize[r := CodeFlow.AStart(input)]
    requires next.db == w.core.db && target.Valid() && input.req == ParseRequest(s, target)
    ensures var w' := Later(w).(core := next, targets := w.targets[r := target]);
            Own(s, w') && Extends(w, w')
  {
    StepsOn(s, w);
    NewRequestKeeps(s, Later(w), r, target, next, CodeFlow.AStart(input));
    ExtendsOn(w, Later(w).(core := next, targets := w.targets[r := target]));
  }

  /** Request r has been answered with the prompt, and its target sealed if that works. */
  function Rendered(w: World, u: World, r: nat, cipher: Option<Bytes>): World
    requires r in w.targets
  {
    u.(prompts := w.prompts[r := w.step],
       box := if cipher == None then w.box else w.box.Give(cipher.value, w.targets[r].Uri()))
  }

  /** The next state after the code flow has answered with the prompt. */
  lemma PromptCases(s: Settings, w: World, a: Action)
    requires a.Prompt? && IsPrompting(w.core, a.request) && a.request in w.targets
    requires a.cipher.Some? ==> a.cipher.value !in w.box.sealed
    ensures var u := Stepped(s, w, a.request, a.fault);
            Exec(s, w, a) == if a.fault then u else Rendered(w, u, a.request, a.cipher)
  {
    assert Act(s, w, a) == ExecPrompt(s, w, a.request, a.fault, a.cipher);
  }

  /** What follows when the code flow has answered with the prompt. */
  lemma PromptRendered(s: Settings, w: World, u: World, r: nat, cipher: Option<Bytes>)
    requires PromptsOk(w) && IsPrompting(w.core, r) && Own(s, u) && Extends(w, u) && r in w.targets
    requires u == w.(step := w.step + 1, core := u.core)
    requires r in u.core.authorize && u.core.authorize[r].ADone? && u.core.authorize[r].outcome.Prompt?
    requires cipher.Some? ==> cipher.value !in w.box.sealed
    ensures Own(s, Rendered(w, u, r, cipher)) && Extends(w, Rendered(w, u, r, cipher))
  {
    PromptedKeeps(s, u, r, w.step, cipher);
    ExtendsThrough(w, u, Rendered(w, u, r, cipher));
  }

  /** The code flow has taken one step of request r. */
  function Stepped(s: Settings, w: World, r: nat, fault: bool): World {
    Later(w).(core := CodeFlow.Exec(s.cfg, w.core, CodeFlow.StepAuthorize(r, fault)))
  }

  lemma PromptStepKeeps(s: Settings, w: World, r: nat, fault: bool)
    requires Inv(s, w)
    ensures Inv(s, Stepped(s, w, r, fault)) && Extends(w, Stepped(s, w, r, fault))
  {
    var step := CodeFlow.StepAuthorize(r, fault);
    QuietStep(s, w.core, step);
    CoreKeeps(s, w, CodeFlow.Exec(s.cfg, w.core, step));
  }

  lemma PromptAnswered(s: Settings, w: World, u: World, r: nat, cipher: Option<Bytes>)
    requires PromptsOk(w) && IsPrompting(w.core, r) && r in w.targets && Own(s, u) && Extends(w, u)
    requires u.core == CodeFlow.Exec(s.cfg, w.core, CodeFlow.StepAuthorize(r, false))
    requires u == w.(step := w.step + 1, core := u.core)
    requires cipher.Some? ==> cipher.value !in w.box.sealed
    ensures Own(s, Rendered(w, u, r, cipher)) && Extends(w, Rendered(w, u, r, cipher))
  {
    PromptStep(s, w.core, r);
    PromptRendered(s, w, u, r, cipher);
  }

  lemma SameBelow(s: Settings, u: World, w': World)
    requires Inv(s, u) && Own(s, w') && w'.core == u.core && w'.provisioning == u.provisioning
    ensures Inv(s, w')
  {
  }

  lemma PromptSucceeds(s: Settings, w: World, u: World, r: nat, cipher: Option<Bytes>)
    requires PromptsOk(w) && IsPrompting(w.core, r) && r in w.targets && Inv(s, u) && Extends(w, u)
    requires u.core == CodeFlow.Exec(s.cfg, w.core, CodeFlow.StepAuthorize(r, false))
    requires u == w.(step := w.step + 1, core := u.core)
    requires cipher.Some? ==> cipher.value !in w.box.sealed
    ensures Inv(s, Rendered(w, u, r, cipher)) && Extends(w, Rendered(w, u, r, cipher))
  {
    PromptAnswered(s, w, u, r, cipher);
    SameBelow(s, u, Rendered(w, u, r, cipher));
  }

  lemma SteppedIs(s: Settings, w: World, r: nat)
    ensures var u := Stepped(s, w, r, false);
            u.core == CodeFlow.Exec(s.cfg, w.core, CodeFlow.StepAuthorize(r, false)) && u == w.(step := w.step + 1, core := u.core)
  {
  }

  lemma PromptGoesOn(s: Settings, w: World, r: nat, cipher: Option<Bytes>)
    requires PromptsOk(w) && IsPrompting(w.core, r) && r in w.targets
    requires Inv(s, Stepped(s, w, r, false)) && Extends(w, Stepped(s, w, r, false))
    requires cipher.Some? ==> cipher.value !in w.box.sealed
    ensures var w' := Rendered(w, Stepped(s, w, r, false), r, cipher);
            Inv(s, w') && Extends(w, w')
  {
    SteppedIs(s, w, r);
    PromptSucceeds(s, w, Stepped(s, w, r, false), r, cipher);
  }

  lemma PromptKeeps(s: Settings, w: World, a: Action)
    requires Inv(s, w) && a.Prompt? && IsPrompting(w.core, a.request) && a.request in w.targets
    requires a.cipher.Some? ==> a.cipher.value !in w.box.sealed
    ensures Inv(s, Exec(s, w, a)) && Extends(w, Exec(s, w, a))
  {
    PromptCases(s, w, a);
    PromptEndKeeps(s, w, a.request, a.fault, a.cipher);
  }

  lemma PromptEndKeeps(s: Settings, w: World, r: nat, fault: bool, cipher: Option<Bytes>)
    requires Inv(s, w) && IsPrompting(w.core, r) && r in w.targets
    requires cipher.Some? ==> cipher.value !in w.box.sealed
    ensures var u := Stepped(s, w, r, fault);
            var w' := if fault then u else Rendered(w, u, r, cipher);
            Inv(s, w') && Extends(w, w')
  {
    PromptStepKeeps(s, w, r, fault);
    if !fault {
      PromptGoesOn(s, w, r, cipher);
    }
  }

  /** From a step of the code flow on, with the same code flow. */
  lemma ExtendsThrough(w: World, u: World, w': World)
    requires Extends(w, u) && Extends(u, w') && w'.core == u.core
    ensures Extends(w, w')
  {
  }

  lemma TablesOwn(s: Settings, w: World, w': World)
    requires Own(s, w) && Extends(w, w') && w' == w.(tables := w'.tables)
    ensures Own(s, w')
  {
    RecordsLast(s, w, w');
  }

  lemma TablesKeep(s: Settings, w: World, table: Providers)
    requires Own(s, w)
    ensures var w' := w.(tables := w.tables + [table]);
            Own(s, w') && Extends(w, w')
  {
    TablesOwn(s, w, w.(tables := w.tables + [table]));
  }

  lemma StartExec(s: Settings, w: World, a: Action)
    requires a.Start? && a.request !in w.starts && w.box.MayPresent(a.cookie)
    ensures Exec(s, w, a) == Later(w).(starts := w.starts[a.request := BeginStart(s, w.box, Here(w), a.pathValue, a.cookie)])
  {
  }

  lemma StartKeeps(s: Settings, w: World, a: Action)
    requires Own(s, w) && IsJson(s) && a.Start? && a.request !in w.starts && w.box.MayPresent(a.cookie)
    ensures Own(s, Exec(s, w, a)) && Extends(Later(w), Exec(s, w, a))
  {
    StepsOn(s, w);
    StartExec(s, w, a);
    BeginStartOk(s, w, a.pathValue, a.cookie);
    StartMoves(s, Later(w), a.request, BeginStart(s, w.box, Here(w), a.pathValue, a.cookie));
  }

  lemma StepStartKeeps(s: Settings, w: World, a: Action)
    requires Own(s, w) && a.StepStart? && a.request in w.starts
    ensures Own(s, Exec(s, w, a)) && Extends(Later(w), Exec(s, w, a))
  {
    var u := Later(w);
    var next := StartStep(s, w.core.db.registry, w.tables[|w.tables| - 1], |w.tables| - 1, a.fault, w.starts[a.request]);
    StepsOn(s, w);
    assert StartOk(s, u, u.starts[a.request]);
    StartStepOk(s, u, a.fault, w.starts[a.request]);
    assert Exec(s, w, a) == u.(starts := w.starts[a.request := next]);
    StartMoves(s, u, a.request, next);
  }

  lemma CallbackExec(s: Settings, w: World, r: nat, input: CallbackInput)
    requires r !in w.callbacks && w.box.MayPresent(input.cookie)
    ensures Exec(s, w, Callback(r, input))
            == Later(w).(callbacks := w.callbacks[r := BeginCallback(s, w.box, Here(w), input)])
  {
  }

  lemma CallbackKeeps(s: Settings, w: World, r: nat, input: CallbackInput)
    requires Own(s, w) && IsJson(s) && r !in w.callbacks && w.box.MayPresent(input.cookie)
    ensures var w' := Exec(s, w, Callback(r, input));
            Own(s, w') && Extends(Later(w), w')
  {
    StepsOn(s, w);
    CallbackExec(s, w, r, input);
    BeginCallbackOk(s, w, r, input);
    CallbackMoves(s, Later(w), r, BeginCallback(s, w.box, Here(w), input));
  }

  /** The statements of a callback before its provisioning. */
  lemma CallbackCases(s: Settings, w: World, a: Action)
    requires a.StepCallback? && a.request in w.callbacks && w.tables != []
    ensures var c, last := w.callbacks[a.request], |w.tables| - 1;
            var next := CallbackStep(w.tables[last], last, a.fault, a.exchanged, c);
            if c.CAllowed? && !a.fault && a.exchanged.Some? then
              && next == CProvisioning(c.allowed, next.identity)
              && next.identity.provider == c.allowed.begun.payload.provider
              && Exec(s, w, a) == Answered(Later(w), a.request, next.identity, a.random)
            else
              Exec(s, w, a) == Later(w).(callbacks := w.callbacks[a.request := next])
  {
    assert Act(s, w, a) == ExecCallback(w, a.request, a.fault, a.exchanged, a.random);
  }

  lemma CallbackStatementKeeps(s: Settings, w: World, r: nat, fault: bool, exchanged: Option<Identity>)
    requires Own(s, w) && r in w.callbacks && (w.callbacks[r].CAllowed? ==> fault || exchanged == None)
    ensures var next := CallbackStep(w.tables[|w.tables| - 1], |w.tables| - 1, fault, exchanged, w.callbacks[r]);
            var w' := w.(callbacks := w.callbacks[r := next]);
            Own(s, w') && Extends(w, w')
  {
    assert CallbackOk(s, w, r, w.callbacks[r]);
    CallbackStepOk(s, w, r, fault, exchanged, w.callbacks[r]);
    CallbackMoves(s, w, r, CallbackStep(w.tables[|w.tables| - 1], |w.tables| - 1, fault, exchanged, w.callbacks[r]));
  }

  lemma StepCallbackKeeps(s: Settings, w: World, a: Action)
    requires Own(s, w) && a.StepCallback? && a.request in w.callbacks
    ensures Own(s, Exec(s, w, a)) && Extends(Later(w), Exec(s, w, a))
  {
    var u, c, last := Later(w), w.callbacks[a.request], |w.tables| - 1;
    var next := CallbackStep(w.tables[last], last, a.fault, a.exchanged, c);
    StepsOn(s, w);
    CallbackCases(s, w, a);
    if c.CAllowed? && !a.fault && a.exchanged.Some? {
      BeginProvisioningKeeps(s, u, a.request, next.identity, a.random);
    } else {
      CallbackStatementKeeps(s, u, a.request, a.fault, a.exchanged);
    }
  }

  /** The step counter takes no part in provisioning or in signing in. */
  lemma LastStatements(s: Settings, w: World, a: Action)
    requires a.Provision? || a.SignIn?
    ensures a.Provision? && a.request in w.callbacks && w.callbacks[a.request].CProvisioning? ==>
              Exec(s, w, a) == ExecProvision(s, Later(w), a.request, a.fault)
    ensures a.SignIn? && a.request in w.callbacks && w.callbacks[a.request].CProvisioned? ==>
              Exec(s, w, a) == ExecSignIn(s, Later(w), a.request, a.token)
  {
  }

  lemma LastStatementsKeep(s: Settings, w: World, a: Action)
    requires Inv(s, w) && (a.Provision? || a.SignIn?) && a.request in w.callbacks
    requires (a.Provision? && w.callbacks[a.request].CProvisioning?) || (a.SignIn? && w.callbacks[a.request].CProvisioned?)
    ensures Inv(s, Exec(s, w, a)) && Extends(w, Exec(s, w, a))
  {
    NothingKeeps(s, w);
    LastStatements(s, w, a);
    var u := Later(w);
    if a.Provision? {
      ProvisionKeeps(s, u, a.request, a.fault);
      ExtendsOn(w, ExecProvision(s, u, a.request, a.fault));
    } else {
      SignInKeeps(s, u, a.request, a.token);
      ExtendsOn(w, ExecSignIn(s, u, a.request, a.token));
    }
  }

  /** Not enabled, so that nothing but the step counter moves. */
  predicate Idle(w: World, a: Action) {
    match a
    case System(action) => !IsSystemAction(w, action)
    case Authorize(r, target, _, _) => r in w.core.authorize || !target.Valid()
    case Prompt(r, _, cipher) =>
      !IsPrompting(w.core, r) || r !in w.targets || (cipher.Some? && cipher.value in w.box.sealed)
    case ChangeProviders(_) => false
    case SealSecret(cipher, _) => cipher in w.box.sealed
    case Start(r, _, cookie) => r in w.starts || !w.box.MayPresent(cookie)
    case StepStart(r, _) => r !in w.starts || w.tables == []
    case Redirect(r, _, cipher) =>
      r !in w.starts || !w.starts[r].SChosen? || (cipher.Some? && cipher.value in w.box.sealed)
    case Callback(r, input) => r in w.callbacks || !w.box.MayPresent(input.cookie)
    case StepCallback(r, _, _, _) => r !in w.callbacks || w.tables == []
    case Provision(r, _) => r !in w.callbacks || !w.callbacks[r].CProvisioning?
    case SignIn(r, _) => r !in w.callbacks || !w.callbacks[r].CProvisioned?
  }

  lemma OwnActionExec(s: Settings, w: World, a: Action)
    requires !Idle(w, a)
    ensures a.ChangeProviders? ==> Exec(s, w, a) == Later(w).(tables := w.tables + [a.table])
    ensures a.SealSecret? ==>
              Exec(s, w, a) == Later(w).(box := w.box.(sealed := w.box.sealed[a.cipherText := a.plain]))
    ensures a.Redirect? ==> Exec(s, w, a) == Later(ExecRedirect(s, w, a.request, a.randoms, a.cipher))
  {
  }

  lemma ChangeProvidersKeeps(s: Settings, w: World, table: Providers)
    requires Own(s, w)
    ensures var w' := Later(w).(tables := w.tables + [table]);
            Own(s, w') && Extends(Later(w), w')
  {
    StepsOn(s, w);
    TablesKeep(s, Later(w), table);
  }

  lemma SecretKeeps(s: Settings, w: World, cipher: Bytes, plain: string)
    requires Own(s, w) && cipher !in w.box.sealed
    ensures var w' := Later(w).(box := w.box.(sealed := w.box.sealed[cipher := plain]));
            Own(s, w') && Extends(Later(w), w')
  {
    StepsOn(s, w);
    SealSecretKeeps(s, Later(w), cipher, plain);
  }

  lemma OwnActionKeeps(s: Settings, w: World, a: Action)
    requires Own(s, w) && !Idle(w, a) && (a.ChangeProviders? || a.SealSecret? || a.Redirect?)
    ensures Own(s, Exec(s, w, a)) && Extends(Later(w), Exec(s, w, a))
  {
    OwnActionExec(s, w, a);
    if a.Redirect? {
      RedirectKeeps(s, w, a.request, a.randoms, a.cipher);
    } else if a.ChangeProviders? {
      ChangeProvidersKeeps(s, w, a.table);
    } else {
      SecretKeeps(s, w, a.cipherText, a.plain);
    }
  }

  /** Actions on the starts, the first half of the callbacks, the provider table or the box. */
  lemma BrokerKeeps(s: Settings, w: World, a: Action)
    requires Own(s, w) && IsJson(s) && !Idle(w, a)
    requires !a.System? && !a.Authorize? && !a.Prompt? && !a.Provision? && !a.SignIn?
    ensures Own(s, Exec(s, w, a)) && Extends(Later(w), Exec(s, w, a))
  {
    if a.Start? {
      StartKeeps(s, w, a);
    } else if a.StepStart? {
      StepStartKeeps(s, w, a);
    } else if a.Callback? {
      CallbackKeeps(s, w, a.request, a.input);
    } else if a.StepCallback? {
      StepCallbackKeeps(s, w, a);
    } else {
      OwnActionKeeps(s, w, a);
    }
  }

  lemma BrokerLeavesRest(s: Settings, w: World, a: Action)
    requires !a.System? && !a.Authorize? && !a.Prompt? && !a.Provision? && !a.SignIn?
    ensures Exec(s, w, a).core == w.core && (!a.StepCallback? ==> Exec(s, w, a).provisioning == w.provisioning)
  {
  }

  lemma ExchangeKeepsAccounts(s: Settings, w: World, a: Action)
    requires Provisioning.Inv(w.provisioning) && a.StepCallback?
    ensures Provisioning.Inv(Exec(s, w, a).provisioning)
  {
    if a.request in w.callbacks && w.tables != [] {
      CallbackCases(s, w, a);
    }
  }

  lemma IdleKeeps(s: Settings, w: World, a: Action)
    requires Inv(s, w) && Idle(w, a)
    ensures Inv(s, Exec(s, w, a)) && Extends(w, Exec(s, w, a))
  {
    IdleExec(s, w, a);
    NothingKeeps(s, w);
  }

  lemma IdleExec(s: Settings, w: World, a: Action)
    requires Idle(w, a)
    ensures Exec(s, w, a) == Later(w)
  {
  }

  lemma AskingKeeps(s: Settings, w: World, a: Action)
    requires Inv(s, w) && !Idle(w, a) && (a.Authorize? || a.Prompt?)
    ensures Inv(s, Exec(s, w, a)) && Extends(w, Exec(s, w, a))
  {
    if a.Authorize? {
      AuthorizeKeeps(s, w, a);
    } else {
      PromptKeeps(s, w, a);
    }
  }

  /** Actions that move the code flow, too. */
  lemma CoreActionKeeps(s: Settings, w: World, a: Action)
    requires Inv(s, w) && !Idle(w, a)
    requires a.System? || a.Authorize? || a.Prompt?
    ensures Inv(s, Exec(s, w, a)) && Extends(w, Exec(s, w, a))
  {
    if a.System? {
      SystemKeeps(s, w, a.action);
    } else {
      AskingKeeps(s, w, a);
    }
  }

  lemma BrokerActionKeeps(s: Settings, w: World, a: Action)
    requires Inv(s, w) && IsJson(s) && !Idle(w, a)
    requires !a.System? && !a.Authorize? && !a.Prompt? && !a.Provision? && !a.SignIn?
    ensures Inv(s, Exec(s, w, a)) && Extends(w, Exec(s, w, a))
  {
    BrokerKeeps(s, w, a);
    BrokerLeavesRest(s, w, a);
    if a.StepCallback? {
      ExchangeKeepsAccounts(s, w, a);
    }
    ExtendsOn(w, Exec(s, w, a));
  }

  lemma ExecKeeps(s: Settings, w: World, a: Action)
    requires Inv(s, w) && IsJson(s)
    ensures Inv(s, Exec(s, w, a)) && Extends(w, Exec(s, w, a))
  {
    if Idle(w, a) {
      IdleKeeps(s, w, a);
    } else if a.Provision? || a.SignIn? {
      LastStatementsKeep(s, w, a);
    } else if a.System? || a.Authorize? || a.Prompt? {
      CoreActionKeeps(s, w, a);
    } else {
      BrokerActionKeeps(s, w, a);
    }
  }

  lemma {:induction false} RunKeeps(s: Settings, start: int, actions: seq<Action>)
    requires IsJson(s)
    ensures Inv(s, Run(s, Initial(start), actions))
  {
    if actions == [] {
      InitialInv(s, start);
    } else {
      RunKeeps(s, start, actions[..|actions| - 1]);
      ExecKeeps(s, Run(s, Initial(start), actions[..|actions| - 1]), actions[|actions| - 1]);
    }
  }
}
