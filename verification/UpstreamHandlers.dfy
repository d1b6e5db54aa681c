/**
  The start and callback handlers as they are written, run without interruption:
  each is proved to be the sequence of its steps.
*/
module UpstreamHandlers {
  import opened Prelude
  import opened Broker
  import CodeFlow
  import Base64
  import Oauth
  import Provisioning
  import Registration
  import Sessions
  import Text
  import opened Upstream

  type Faults = nat -> bool

  /** The provider table of a moment, with its number in the history of tables. */
  datatype Numbered = Numbered(table: Providers, at: nat)

  function CurrentNumbered(w: World): Numbered
    requires w.tables != []
  {
    Numbered(w.tables[|w.tables| - 1], |w.tables| - 1)
  }

  // A start that is never interrupted

  function StartAlone(s: Settings, registry: Registration.Registry, p: Numbered, st: StartState, faults: Faults): StartState {
    var first := StartStep(s, registry, p.table, p.at, faults(0), st);
    var second := StartStep(s, registry, p.table, p.at, faults(1), first);
    StartStep(s, registry, p.table, p.at, faults(2), second)
  }

  /** Sealing the payload and handing it out, or the page when that fails. */
  function Seal(s: Settings, box: Box, when: Moment, st: StartState, randoms: Randoms, cipher: Option<Bytes>): (Box, StartState) {
    if !st.SChosen? then (box, st)
    else
      var next := Redirected(s, when, st.chosen, randoms);
      if next.SPage? then (box, next)
      else if cipher == None then (box, SPage(500))
      else (box.Give(cipher.value, s.marshal(next.started.payload)), next)
  }

  lemma Chain(s: Settings, w: World, a: seq<Action>, u: World, b: seq<Action>, v: World, c: seq<Action>)
    requires Run(s, w, a) == u && Run(s, u, b) == v
    ensures Run(s, w, a + b + c) == Run(s, v, c)
  {
    RunConcat(s, w, a, b);
    RunConcat(s, w, a + b, c);
  }

  lemma ThreeRuns(s: Settings, w: World, a: Action, u: World, b: Action, v: World, c: Action)
    requires Run(s, w, [a]) == u && Run(s, u, [b]) == v
    ensures Run(s, w, [a, b, c]) == Run(s, v, [c])
  {
    Chain(s, w, [a], u, [b], v, [c]);
    assert [a, b, c] == [a] + [b] + [c];
  }

  /** The state n steps on, when one start has moved alone. */
  function WithStart(w: World, r: nat, st: StartState, n: nat): World {
    w.(starts := w.starts[r := st], step := w.step + n)
  }

  lemma StatementExec(s: Settings, w: World, r: nat, fault: bool)
    requires w.tables != [] && r in w.starts
    ensures var p := CurrentNumbered(w);
            Run(s, w, [StepStart(r, fault)])
            == WithStart(w, r, StartStep(s, w.core.db.registry, p.table, p.at, fault, w.starts[r]), 1)
  {
    RunOne(s, w, StepStart(r, fault));
  }

  lemma StatementOfStart(s: Settings, w: World, r: nat, st: StartState, n: nat, fault: bool)
    requires w.tables != []
    ensures var p := CurrentNumbered(w);
            Run(s, WithStart(w, r, st, n), [StepStart(r, fault)])
            == WithStart(w, r, StartStep(s, w.core.db.registry, p.table, p.at, fault, st), n + 1)
  {
    StatementExec(s, WithStart(w, r, st, n), r, fault);
    WithStartTwice(w, r, st, StartStep(s, w.core.db.registry, CurrentNumbered(w).table, CurrentNumbered(w).at, fault, st), n);
  }

  lemma WithStartTwice(w: World, r: nat, st: StartState, next: StartState, n: nat)
    ensures WithStart(WithStart(w, r, st, n), r, next, 1) == WithStart(w, r, next, n + 1)
  {
    assert w.starts[r := st][r := next] == w.starts[r := next];
  }

  function Statements(r: nat, faults: Faults): seq<Action> {
    [StepStart(r, faults(0)), StepStart(r, faults(1)), StepStart(r, faults(2))]
  }

  /** Three statements of a start, nothing in between. */
  lemma StartAloneIsRun(s: Settings, w: World, r: nat, st: StartState, n: nat, faults: Faults)
    requires w.tables != []
    ensures Run(s, WithStart(w, r, st, n), Statements(r, faults))
            == WithStart(w, r, StartAlone(s, w.core.db.registry, CurrentNumbered(w), st, faults), n + 3)
  {
    var p, u := CurrentNumbered(w), WithStart(w, r, st, n);
    var first := StartStep(s, w.core.db.registry, p.table, p.at, faults(0), st);
    var second := StartStep(s, w.core.db.registry, p.table, p.at, faults(1), first);
    StatementOfStart(s, w, r, st, n, faults(0));
    StatementOfStart(s, w, r, first, n + 1, faults(1));
    StatementOfStart(s, w, r, second, n + 2, faults(2));
    ThreeRuns(s, u, StepStart(r, faults(0)), WithStart(w, r, first, n + 1), StepStart(r, faults(1)),
              WithStart(w, r, second, n + 2), StepStart(r, faults(2)));
  }

  lemma StartArrives(s: Settings, w: World, r: nat, pathValue: string, cookie: Option<string>)
    requires r !in w.starts && w.box.MayPresent(cookie)
    ensures Run(s, w, [Start(r, pathValue, cookie)]) == WithStart(w, r, BeginStart(s, w.box, Here(w), pathValue, cookie), 1)
  {
    RunOne(s, w, Start(r, pathValue, cookie));
  }

  lemma RedirectIsRun(s: Settings, w: World, r: nat, randoms: Randoms, cipher: Option<Bytes>)
    requires r in w.starts && (cipher.Some? ==> cipher.value !in w.box.sealed)
    ensures var w' := Run(s, w, [Redirect(r, randoms, cipher)]);
            && r in w'.starts && (w'.box, w'.starts[r]) == Seal(s, w.box, Here(w), w.starts[r], randoms, cipher)
            && MovesStarts(w, w')
  {
    RunOne(s, w, Redirect(r, randoms, cipher));
    RedirectMoves(s, w, r, randoms, cipher);
  }

  /** Nothing but starts, the box and the count of steps has changed. */
  predicate MovesStarts(w: World, w': World) {
    w' == w.(starts := w'.starts, box := w'.box, step := w'.step)
  }

  lemma RedirectMoves(s: Settings, w: World, r: nat, randoms: Randoms, cipher: Option<Bytes>)
    ensures MovesStarts(w, Exec(s, w, Redirect(r, randoms, cipher)))
  {
  }

  /** The whole start is a run: its arrival, three statements, the redirect. */
  lemma StartIsRun(s: Settings, w: World, r: nat, pathValue: string, cookie: Option<string>, randoms: Randoms,
                   cipher: Option<Bytes>, faults: Faults)
    requires w.tables != [] && r !in w.starts && w.box.MayPresent(cookie)
    requires cipher.Some? ==> cipher.value !in w.box.sealed
    ensures var w' := Run(s, w, [Start(r, pathValue, cookie)] + Statements(r, faults) + [Redirect(r, randoms, cipher)]);
            var begun := BeginStart(s, w.box, Here(w), pathValue, cookie);
            var alone := StartAlone(s, w.core.db.registry, CurrentNumbered(w), begun, faults);
            && r in w'.starts
            && (w'.box, w'.starts[r]) == Seal(s, w.box, Here(w).(step := w.step + 4), alone, randoms, cipher)
            && MovesStarts(w, w')
  {
    var begun := BeginStart(s, w.box, Here(w), pathValue, cookie);
    var v := WithStart(w, r, StartAlone(s, w.core.db.registry, CurrentNumbered(w), begun, faults), 4);
    StartArrives(s, w, r, pathValue, cookie);
    StartAloneIsRun(s, w, r, begun, 1, faults);
    Chain(s, w, [Start(r, pathValue, cookie)], WithStart(w, r, begun, 1), Statements(r, faults), v,
          [Redirect(r, randoms, cipher)]);
    RedirectIsRun(s, v, r, randoms, cipher);
    assert Here(v) == Here(w).(step := w.step + 4);
  }

  // A callback that is never interrupted

  /** The provider check, the exchange and the provisioning. */
  function CallbackAlone(accounts: Provisioning.Accounts, p: Numbered, c: CallbackState, faults: Faults,
                         exchanged: Option<Identity>, random: Option<Bytes>, userFaults: Faults)
    : (Provisioning.Accounts, CallbackState)
  {
    var checked := CallbackStep(p.table, p.at, faults(0), exchanged, c);
    var answered := CallbackStep(p.table, p.at, faults(1), exchanged, checked);
    ProvisionAlone(accounts, answered, random, userFaults)
  }

  /** The provisioning of a callback that has got that far. */
  function ProvisionAlone(accounts: Provisioning.Accounts, c: CallbackState, random: Option<Bytes>, userFaults: Faults)
    : (Provisioning.Accounts, CallbackState)
  {
    if !c.CProvisioning? then (accounts, c)
    else
      var input := Provisioning.Input(c.identity, random);
      var (after, st) := Provisioning.Alone(accounts, Provisioning.Start(input), userFaults, 0);
      (after, AfterProvisioning(c.allowed, c.identity, st))
  }

  /** The session, and where the browser goes with it; None when there is none. */
  function SessionAlone(s: Settings, sessions: Sessions.Store, now: int, c: CallbackState, token: Option<string>)
    : (Sessions.Store, Option<string>)
  {
    var next := if c.CProvisioned? && token.Some? then
                  Sessions.After(s.cfg.sha, sessions, SessionEvent(s, now, c.user, token.value))
                else None;
    if next.Some? then (next.value, Some(c.allowed.begun.payload.returnTo)) else (sessions, None)
  }

  /** The state n steps on, when one callback has moved alone. */
  function WithCallback(w: World, r: nat, c: CallbackState, n: nat): World {
    w.(callbacks := w.callbacks[r := c], step := w.step + n)
  }

  lemma CallbackArrives(s: Settings, w: World, r: nat, input: CallbackInput)
    requires r !in w.callbacks && w.box.MayPresent(input.cookie)
    ensures Run(s, w, [Callback(r, input)]) == WithCallback(w, r, BeginCallback(s, w.box, Here(w), input), 1)
  {
    RunOne(s, w, Callback(r, input));
  }

  /** A callback whose provisioning has begun. */
  function ProvisioningBegun(w: World, r: nat, c: CallbackState, n: nat, random: Option<Bytes>): World
    requires c.CProvisioning?
  {
    var begin := Provisioning.Begin(r, Provisioning.Input(c.identity, random));
    WithCallback(w, r, c, n).(provisioning := Provisioning.Exec(w.provisioning, begin))
  }

  lemma CallbackExec(s: Settings, w: World, r: nat, fault: bool, exchanged: Option<Identity>, random: Option<Bytes>)
    requires w.tables != [] && r in w.callbacks && !w.callbacks[r].CProvisioning?
    ensures var p := CurrentNumbered(w);
            var next := CallbackStep(p.table, p.at, fault, exchanged, w.callbacks[r]);
            Later(ExecCallback(w, r, fault, exchanged, random))
            == if next.CProvisioning? then ProvisioningBegun(w, r, next, 1, random) else WithCallback(w, r, next, 1)
  {
  }

  lemma CallbackStatement(s: Settings, w: World, r: nat, fault: bool, exchanged: Option<Identity>, random: Option<Bytes>)
    requires w.tables != [] && r in w.callbacks && !w.callbacks[r].CProvisioning?
    ensures var p := CurrentNumbered(w);
            var next := CallbackStep(p.table, p.at, fault, exchanged, w.callbacks[r]);
            Run(s, w, [StepCallback(r, fault, exchanged, random)])
            == if next.CProvisioning? then ProvisioningBegun(w, r, next, 1, random) else WithCallback(w, r, next, 1)
  {
    RunOne(s, w, StepCallback(r, fault, exchanged, random));
    CallbackExec(s, w, r, fault, exchanged, random);
  }

  lemma StatementOfCallback(s: Settings, w: World, r: nat, c: CallbackState, n: nat, fault: bool,
                            exchanged: Option<Identity>, random: Option<Bytes>)
    requires w.tables != [] && !c.CProvisioning?
    ensures var p := CurrentNumbered(w);
            var next := CallbackStep(p.table, p.at, fault, exchanged, c);
            Run(s, WithCallback(w, r, c, n), [StepCallback(r, fault, exchanged, random)])
            == if next.CProvisioning? then ProvisioningBegun(w, r, next, n + 1, random) else WithCallback(w, r, next, n + 1)
  {
    CallbackStatement(s, WithCallback(w, r, c, n), r, fault, exchanged, random);
    WithCallbackTwice(w, r, c, CallbackStep(CurrentNumbered(w).table, CurrentNumbered(w).at, fault, exchanged, c), n, random);
  }

  lemma WithCallbackTwice(w: World, r: nat, c: CallbackState, next: CallbackState, n: nat, random: Option<Bytes>)
    ensures WithCallback(WithCallback(w, r, c, n), r, next, 1) == WithCallback(w, r, next, n + 1)
    ensures next.CProvisioning? ==>
              ProvisioningBegun(WithCallback(w, r, c, n), r, next, 1, random) == ProvisioningBegun(w, r, next, n + 1, random)
  {
    assert w.callbacks[r := c][r := next] == w.callbacks[r := next];
  }

  /** The actions of a callback before its provisioning. */
  function Exchanging(r: nat, input: CallbackInput, faults: Faults, exchanged: Option<Identity>, random: Option<Bytes>): seq<Action> {
    [Callback(r, input), StepCallback(r, faults(0), exchanged, random), StepCallback(r, faults(1), exchanged, random)]
  }

  /** The callback up to where provisioning begins, or to its page. */
  lemma ExchangeIsRun(s: Settings, w: World, r: nat, input: CallbackInput, faults: Faults,
                      exchanged: Option<Identity>, random: Option<Bytes>)
    requires w.tables != [] && r !in w.callbacks && w.box.MayPresent(input.cookie)
    ensures var p := CurrentNumbered(w);
            var checked := CallbackStep(p.table, p.at, faults(0), exchanged, BeginCallback(s, w.box, Here(w), input));
            var answered := CallbackStep(p.table, p.at, faults(1), exchanged, checked);
            Run(s, w, Exchanging(r, input, faults, exchanged, random))
            == if answered.CProvisioning? then ProvisioningBegun(w, r, answered, 3, random) else WithCallback(w, r, answered, 3)
  {
    CallbackArrives(s, w, r, input);
    StatementsFollow(s, w, r, Callback(r, input), BeginCallback(s, w.box, Here(w), input), faults, exchanged, random);
  }

  lemma CheckOfCallback(s: Settings, w: World, r: nat, begun: CallbackState, fault: bool, exchanged: Option<Identity>,
                        random: Option<Bytes>)
    requires w.tables != [] && (begun.COpened? || begun.CPage?)
    ensures var p := CurrentNumbered(w);
            var checked := CallbackStep(p.table, p.at, fault, exchanged, begun);
            !checked.CProvisioning?
            && Run(s, WithCallback(w, r, begun, 1), [StepCallback(r, fault, exchanged, random)]) == WithCallback(w, r, checked, 2)
  {
    StatementOfCallback(s, w, r, begun, 1, fault, exchanged, random);
  }

  lemma StatementsFollow(s: Settings, w: World, r: nat, arrival: Action, begun: CallbackState, faults: Faults,
                         exchanged: Option<Identity>, random: Option<Bytes>)
    requires w.tables != [] && (begun.COpened? || begun.CPage?)
    requires Run(s, w, [arrival]) == WithCallback(w, r, begun, 1)
    ensures var p := CurrentNumbered(w);
            var answered := CallbackStep(p.table, p.at, faults(1), exchanged, CallbackStep(p.table, p.at, faults(0), exchanged, begun));
            Run(s, w, [arrival, StepCallback(r, faults(0), exchanged, random), StepCallback(r, faults(1), exchanged, random)])
            == if answered.CProvisioning? then ProvisioningBegun(w, r, answered, 3, random) else WithCallback(w, r, answered, 3)
  {
    var p := CurrentNumbered(w);
    var checked := CallbackStep(p.table, p.at, faults(0), exchanged, begun);
    CheckOfCallback(s, w, r, begun, faults(0), exchanged, random);
    StatementOfCallback(s, w, r, checked, 2, faults(1), exchanged, random);
    ThreeRuns(s, w, arrival, WithCallback(w, r, begun, 1), StepCallback(r, faults(0), exchanged, random),
              WithCallback(w, r, checked, 2), StepCallback(r, faults(1), exchanged, random));
  }

  lemma ProvisionEffect(s: Settings, w: World, r: nat, fault: bool)
    requires r in w.callbacks && w.callbacks[r].CProvisioning? && r in w.provisioning.requests
    ensures var w' := ExecProvision(s, w, r, fault);
            var (accounts, st) := Provisioning.Step(w.provisioning.accounts, fault, w.provisioning.requests[r]);
            && w'.provisioning.accounts == accounts
            && r in w'.provisioning.requests && w'.provisioning.requests[r] == st
            && r in w'.callbacks
            && w'.callbacks[r] == AfterProvisioning(w.callbacks[r].allowed, w.callbacks[r].identity, st)
            && w'.core.now == w.core.now && w'.core.db.sessions == w.core.db.sessions
  {
  }

  /** One statement of provisioning. */
  lemma StatementOfProvisioning(s: Settings, w: World, r: nat, fault: bool)
    requires r in w.callbacks && w.callbacks[r].CProvisioning? && r in w.provisioning.requests
    ensures var w' := Run(s, w, [Provision(r, fault)]);
            var (accounts, st) := Provisioning.Step(w.provisioning.accounts, fault, w.provisioning.requests[r]);
            && w'.provisioning.accounts == accounts
            && r in w'.provisioning.requests && w'.provisioning.requests[r] == st
            && r in w'.callbacks
            && w'.callbacks[r] == AfterProvisioning(w.callbacks[r].allowed, w.callbacks[r].identity, st)
            && w'.core.now == w.core.now && w'.core.db.sessions == w.core.db.sessions
  {
    RunOne(s, w, Provision(r, fault));
    ProvisionEffect(s, w, r, fault);
  }

  predicate IsProvisionOf(a: Action, r: nat) {
    a.Provision? && a.request == r
  }

  /** Provisioning that nothing interrupts is a run of its statements. */
  lemma {:induction false} ProvisioningIsRun(s: Settings, w: World, r: nat, faults: Faults, k: nat) returns (actions: seq<Action>)
    requires r in w.callbacks && w.callbacks[r].CProvisioning?
    requires r in w.provisioning.requests && !w.provisioning.requests[r].Finished?
    ensures forall a <- actions :: IsProvisionOf(a, r)
    ensures var w' := Run(s, w, actions);
            var (accounts, st) := Provisioning.Alone(w.provisioning.accounts, w.provisioning.requests[r], faults, k);
            && w'.provisioning.accounts == accounts
            && r in w'.callbacks
            && w'.callbacks[r] == AfterProvisioning(w.callbacks[r].allowed, w.callbacks[r].identity, st)
            && w'.core.now == w.core.now && w'.core.db.sessions == w.core.db.sessions
    decreases Provisioning.Rank(w.provisioning.requests[r])
  {
    var first := [Provision(r, faults(k))];
    var v := Run(s, w, first);
    StatementOfProvisioning(s, w, r, faults(k));
    if v.provisioning.requests[r].Finished? {
      actions := first;
    } else {
      var rest := ProvisioningIsRun(s, v, r, faults, k + 1);
      RunConcat(s, w, first, rest);
      actions := first + rest;
    }
  }

  /** These are the accounts and sessions after callback r, which has finished with a redirect exactly when there is one. */
  predicate EndsWith(w: World, r: nat, accounts: Provisioning.Accounts, end: (Sessions.Store, Option<string>)) {
    && w.provisioning.accounts == accounts && w.core.db.sessions == end.0 && r in w.callbacks
    && (end.1.Some? <==> w.callbacks[r].CSignedIn?)
    && (end.1.Some? ==> w.callbacks[r].to == end.1.value)
  }

  /** The second clock reading, after this time, and the session. */
  function Finishing(r: nat, duration: nat, token: Option<string>): seq<Action> {
    [System(CodeFlow.Tick(duration)), SignIn(r, token)]
  }

  lemma FinishingIs(s: Settings, w: World, r: nat, duration: nat, token: Option<string>)
    ensures Run(s, w, Finishing(r, duration, token)) == Exec(s, Ticked(w, duration), SignIn(r, token))
  {
    TwoRuns(s, w, System(CodeFlow.Tick(duration)), Ticked(w, duration), SignIn(r, token));
  }

  function Ticked(w: World, duration: nat): World {
    w.(core := w.core.(now := w.core.now + duration, step := w.core.step + 1), step := w.step + 1)
  }

  lemma TwoRuns(s: Settings, w: World, a: Action, v: World, b: Action)
    requires Exec(s, w, a) == v
    ensures Run(s, w, [a, b]) == Exec(s, v, b)
  {
    RunOne(s, w, a);
    RunOne(s, v, b);
    RunConcat(s, w, [a], [b]);
    assert [a, b] == [a] + [b];
  }

  lemma SignInEnds(s: Settings, w: World, r: nat, token: Option<string>)
    requires r in w.callbacks && w.callbacks[r].CProvisioned?
    ensures var end := SessionAlone(s, w.core.db.sessions, w.core.now, w.callbacks[r], token);
            EndsWith(ExecSignIn(s, w, r, token), r, w.provisioning.accounts, end)
  {
    if token.Some? && s.cfg.sha(token.value) !in w.core.db.sessions.rows {
      SessionStep(s, w.core, SessionEvent(s, w.core.now, w.callbacks[r].user, token.value));
    }
  }

  lemma SignInAlone(s: Settings, w: World, r: nat, token: Option<string>)
    requires r in w.callbacks && !w.callbacks[r].CSignedIn?
    ensures var w' := Exec(s, w, SignIn(r, token));
            var end := SessionAlone(s, w.core.db.sessions, w.core.now, w.callbacks[r], token);
            EndsWith(w', r, w.provisioning.accounts, end)
  {
    var end := SessionAlone(s, w.core.db.sessions, w.core.now, w.callbacks[r], token);
    SignInIs(s, w, r, token);
    if w.callbacks[r].CProvisioned? {
      SignInEnds(s, w, r, token);
      EndsLater(ExecSignIn(s, w, r, token), w.step + 1, r, w.provisioning.accounts, end);
    } else {
      assert EndsWith(w, r, w.provisioning.accounts, end);
      EndsLater(w, w.step + 1, r, w.provisioning.accounts, end);
    }
  }

  lemma SignInIs(s: Settings, w: World, r: nat, token: Option<string>)
    requires r in w.callbacks
    ensures Exec(s, w, SignIn(r, token))
            == (if w.callbacks[r].CProvisioned? then ExecSignIn(s, w, r, token) else w).(step := w.step + 1)
  {
    if w.callbacks[r].CProvisioned? {
      assert Act(s, w, SignIn(r, token)) == ExecSignIn(s, w, r, token);
    } else {
      assert Act(s, w, SignIn(r, token)) == w;
    }
  }

  lemma EndsLater(w: World, step: nat, r: nat, accounts: Provisioning.Accounts, end: (Sessions.Store, Option<string>))
    requires EndsWith(w, r, accounts, end)
    ensures EndsWith(w.(step := step), r, accounts, end)
  {
  }

  lemma SessionStep(s: Settings, core: CodeFlow.World, event: Sessions.Event)
    requires event.Created? && event.at == core.now && s.cfg.sha(event.token) !in core.db.sessions.rows
    ensures Some(CodeFlow.Exec(s.cfg, core, CodeFlow.ChangeSessions(event)).db.sessions)
            == Sessions.After(s.cfg.sha, core.db.sessions, event)
  {
  }

  /** Where callback r stands before its session, and what it has left alone. */
  predicate Accepted(w: World, v: World, r: nat, result: (Provisioning.Accounts, CallbackState)) {
    && v.provisioning.accounts == result.0 && r in v.callbacks && v.callbacks[r] == result.1 && !result.1.CSignedIn?
    && v.core.now == w.core.now && v.core.db.sessions == w.core.db.sessions
  }

  /** The accounts and the callback before its session, when nothing comes between. */
  function AcceptedAs(s: Settings, w: World, input: CallbackInput, faults: Faults, exchanged: Option<Identity>,
                      random: Option<Bytes>, userFaults: Faults)
    : (Provisioning.Accounts, CallbackState)
    requires w.tables != []
  {
    CallbackAlone(w.provisioning.accounts, CurrentNumbered(w), BeginCallback(s, w.box, Here(w), input), faults, exchanged,
                  random, userFaults)
  }

  /** The callback up to the creation of the session. */
  lemma AcceptIsRun(s: Settings, w: World, r: nat, input: CallbackInput, faults: Faults, exchanged: Option<Identity>,
                    random: Option<Bytes>, userFaults: Faults)
    returns (middle: seq<Action>)
    requires w.tables != [] && r !in w.callbacks && r !in w.provisioning.requests && w.box.MayPresent(input.cookie)
    ensures forall a <- middle :: IsProvisionOf(a, r)
    ensures var first := Exchanging(r, input, faults, exchanged, random);
            Accepted(w, Run(s, w, first + middle), r, AcceptedAs(s, w, input, faults, exchanged, random, userFaults))
  {
    var first, p := Exchanging(r, input, faults, exchanged, random), CurrentNumbered(w);
    ExchangeIsRun(s, w, r, input, faults, exchanged, random);
    var checked := CallbackStep(p.table, p.at, faults(0), exchanged, BeginCallback(s, w.box, Here(w), input));
    middle := ProvisionFollows(s, w, Run(s, w, first), r, CallbackStep(p.table, p.at, faults(1), exchanged, checked), random,
                               userFaults);
    RunConcat(s, w, first, middle);
  }

  lemma ProvisionFollows(s: Settings, w: World, u: World, r: nat, c: CallbackState, random: Option<Bytes>, userFaults: Faults)
    returns (middle: seq<Action>)
    requires r !in w.provisioning.requests && !c.CSignedIn?
    requires u == if c.CProvisioning? then ProvisioningBegun(w, r, c, 3, random) else WithCallback(w, r, c, 3)
    ensures forall a <- middle :: IsProvisionOf(a, r)
    ensures Accepted(w, Run(s, u, middle), r, ProvisionAlone(w.provisioning.accounts, c, random, userFaults))
  {
    middle := [];
    if c.CProvisioning? {
      middle := ProvisioningIsRun(s, u, r, userFaults, 0);
    }
  }

  /** World w' follows w with what the result before the session leads to, after this time. */
  predicate Finishes(s: Settings, w: World, w': World, r: nat, duration: nat, token: Option<string>,
                     result: (Provisioning.Accounts, CallbackState)) {
    EndsWith(w', r, result.0, SessionAlone(s, w.core.db.sessions, w.core.now + duration, result.1, token))
  }

  /**
    The whole callback is a run: its arrival, the provider check, the exchange, the
    statements of provisioning, the second clock reading, the session.
  */
  lemma CallbackIsRun(s: Settings, w: World, r: nat, input: CallbackInput, faults: Faults, exchanged: Option<Identity>,
                      random: Option<Bytes>, userFaults: Faults, duration: nat, token: Option<string>)
    returns (middle: seq<Action>)
    requires w.tables != [] && r !in w.callbacks && r !in w.provisioning.requests && w.box.MayPresent(input.cookie)
    ensures forall a <- middle :: IsProvisionOf(a, r)
    ensures var first := Exchanging(r, input, faults, exchanged, random);
            var w' := Run(s, w, first + middle + Finishing(r, duration, token));
            Finishes(s, w, w', r, duration, token, AcceptedAs(s, w, input, faults, exchanged, random, userFaults))
  {
    var first := Exchanging(r, input, faults, exchanged, random);
    middle := AcceptIsRun(s, w, r, input, faults, exchanged, random, userFaults);
    RunConcat(s, w, first + middle, Finishing(r, duration, token));
    SessionFollows(s, w, Run(s, w, first + middle), r, duration, token,
                   AcceptedAs(s, w, input, faults, exchanged, random, userFaults));
  }

  /** The second clock reading and the session follow. */
  lemma SessionFollows(s: Settings, w: World, v: World, r: nat, duration: nat, token: Option<string>,
                       result: (Provisioning.Accounts, CallbackState))
    requires Accepted(w, v, r, result)
    ensures Finishes(s, w, Run(s, v, Finishing(r, duration, token)), r, duration, token, result)
  {
    FinishingIs(s, v, r, duration, token);
    SignInFollows(s, w, v, Ticked(v, duration), r, duration, token, result);
  }

  lemma AcceptedEnd(s: Settings, w: World, v: World, u: World, r: nat, duration: nat, token: Option<string>,
                    result: (Provisioning.Accounts, CallbackState))
    requires Accepted(w, v, r, result) && u == Ticked(v, duration)
    ensures r in u.callbacks && !u.callbacks[r].CSignedIn? && u.provisioning.accounts == result.0
    ensures SessionAlone(s, u.core.db.sessions, u.core.now, u.callbacks[r], token)
            == SessionAlone(s, w.core.db.sessions, w.core.now + duration, result.1, token)
  {
  }

  lemma SignInFollows(s: Settings, w: World, v: World, u: World, r: nat, duration: nat, token: Option<string>,
                      result: (Provisioning.Accounts, CallbackState))
    requires Accepted(w, v, r, result) && u == Ticked(v, duration)
    ensures Finishes(s, w, Exec(s, u, SignIn(r, token)), r, duration, token, result)
  {
    AcceptedEnd(s, w, v, u, r, duration, token, result);
    SignInAlone(s, u, r, token);
  }

  // The server

  class App {
    const s: Settings
    var registry: Registration.Registry
    const provisioning: Provisioning.ProviderService
    var sessions: Sessions.Store
    var providers: Providers
    /** How often the provider table has changed; nothing is decided by it. */
    var revision: nat
    var box: Box

    constructor (s: Settings)
      ensures this.s == s && box == Box(map[], {}) && providers == map[]
      ensures fresh(provisioning) && provisioning.Tables() == Provisioning.EMPTY.accounts
    {
      this.s := s;
      provisioning := new Provisioning.ProviderService();
      registry, sessions := Registration.Registry([], []), Sessions.EMPTY;
      providers, revision, box := map[], 0, Box(map[], {});
    }

    method ReadAuthorizeRequest(cookie: Option<string>) returns (returnTo: Option<string>)
      ensures returnTo == box.ReadPrompt(cookie)
    {
      if cookie == None {
        return None;
      }
      var encrypted := Base64.Decode(Base64.Url, cookie.value);
      if encrypted == None || encrypted.value !in box.sealed {
        return None;
      }
      var text := box.sealed[encrypted.value];
      if !Text.HasPrefix(text, RETURN_PREFIX) {
        return None;
      }
      return Some(text);
    }

    method ReadUpstreamStateCookie(cookie: Option<string>) returns (payload: Option<Payload>)
      ensures payload == box.ReadState(s, cookie)
    {
      if cookie == None {
        return None;
      }
      var encrypted := Base64.Decode(Base64.Url, cookie.value);
      if encrypted == None || encrypted.value !in box.sealed {
        return None;
      }
      payload := s.unmarshal(box.sealed[encrypted.value]);
      if payload.Some? && !Text.HasPrefix(payload.value.returnTo, RETURN_PREFIX) {
        return None;
      }
    }

    /** Seals a text and hands it to the browser. */
    method SetCookie(cipher: Bytes, text: string)
      modifies this`box
      ensures box == old(box).Give(cipher, text)
    {
      box := Box(box.sealed[cipher := text], box.given + {cipher});
    }

    /** `arrived` and `when` are the moments of its arrival and its redirect; all it uses of them is the clock. */
    method UpstreamStartHandler(pathValue: string, cookie: Option<string>, arrived: Moment, when: Moment,
                                randoms: Randoms, cipher: Option<Bytes>, faults: Faults)
      returns (answer: StartState)
      modifies this`box
      ensures var begun := BeginStart(s, old(box), arrived, pathValue, cookie);
              var alone := StartAlone(s, registry, Numbered(providers, revision), begun, faults);
              (box, answer) == Seal(s, old(box), when, alone, randoms, cipher)
    {
      var providerName := Text.ToLower(pathValue);
      if !IsSupported(providerName) {
        return SPage(400);
      }
      var returnTo := ReadAuthorizeRequest(cookie);
      if returnTo == None {
        return SPage(400);
      }
      if !s.parses(returnTo.value) {
        return SPage(400);
      }
      var clientId := StoredClientId(s, returnTo.value);
      var found := Registration.FindClient(registry.clients, clientId);
      if faults(0) || found == None {
        return SPage(400);
      }
      var client := registry.clients[found.value];
      if faults(1) || client.applicationId >= |registry.apps| {
        return SPage(500);
      }
      if faults(2) {
        return SPage(500);
      }
      var key := ProviderKey(client.applicationId, providerName);
      if key !in providers {
        return SPage(400);
      }
      if !providers[key].enabled {
        return SPage(400);
      }
      var attempt := Attempt(providerName, returnTo.value, arrived);
      answer := RedirectToProvider(Chosen(attempt, found.value, client, revision), when, randoms, cipher);
    }

    /** Generates state and verifier and sets the state cookie. */
    method RedirectToProvider(chosen: Chosen, when: Moment, randoms: Randoms, cipher: Option<Bytes>) returns (answer: StartState)
      modifies this`box
      ensures (box, answer) == Seal(s, old(box), when, SChosen(chosen), randoms, cipher)
    {
      var provider := chosen.attempt.provider;
      if randoms.state == None {
        return SPage(500);
      }
      var state := Oauth.FromRandom(randoms.state.value);
      var verifier, challenge := "", "";
      if UsesPKCE(provider) {
        if randoms.verifier == None {
          return SPage(500);
        }
        verifier := Oauth.FromRandom(randoms.verifier.value);
        challenge := Oauth.PKCEChallenge(s.cfg.sha, verifier);
      }
      var payload := Payload(provider, state, chosen.clientRow.applicationId, chosen.attempt.returnTo, verifier,
                             CodeFlow.Unix(when.now + AUTHORIZE_REQUEST_TTL));
      if cipher == None {
        return SPage(500);
      }
      SetCookie(cipher.value, s.marshal(payload));
      return SRedirected(Started(chosen, payload, challenge, when));
    }

    /** The callback up to the creation of the session. */
    method AcceptCallback(input: CallbackInput, arrived: Moment, faults: Faults, exchanged: Option<Identity>,
                          random: Option<Bytes>, userFaults: Faults)
      returns (answer: CallbackState)
      modifies provisioning
      ensures (provisioning.Tables(), answer)
              == CallbackAlone(old(provisioning.Tables()), Numbered(providers, revision),
                               BeginCallback(s, box, arrived, input), faults, exchanged, random, userFaults)
    {
      var providerName := Text.ToLower(input.pathValue);
      if !IsSupported(providerName) {
        return CPage(400);
      }
      if input.error != "" {
        return CPage(400);
      }
      if input.code == "" || input.state == "" {
        return CPage(400);
      }
      var payload := ReadUpstreamStateCookie(input.cookie);
      if payload == None {
        return CPage(400);
      }
      var p := payload.value;
      if p.provider != providerName || p.state != input.state || CodeFlow.Unix(arrived.now) > p.expiresAt {
        return CPage(400);
      }
      var allowed := Allowed(Begun(input, arrived, p), revision);
      answer := ExchangeAndProvision(allowed, faults, exchanged, random, userFaults);
    }

    method ExchangeAndProvision(allowed: Allowed, faults: Faults, exchanged: Option<Identity>, random: Option<Bytes>,
                                userFaults: Faults)
      returns (answer: CallbackState)
      requires allowed.at == revision
      modifies provisioning
      ensures (provisioning.Tables(), answer)
              == CallbackAlone(old(provisioning.Tables()), Numbered(providers, revision), COpened(allowed.begun),
                               faults, exchanged, random, userFaults)
    {
      var p := allowed.begun.payload;
      var key := ProviderKey(p.applicationId, p.provider);
      if faults(0) || key !in providers || !providers[key].enabled {
        return CPage(400);
      }
      if faults(1) {
        return CPage(500);
      }
      if exchanged == None {
        return CPage(400);
      }
      var identity := exchanged.value.(provider := p.provider);
      var outcome := provisioning.ProvisionUser(Provisioning.Input(identity, random), userFaults);
      return if outcome.Provisioned? then CProvisioned(allowed, identity, outcome.user) else CPage(500);
    }

    /** The new token, or None when its hash is taken. */
    method CreateSession(user: nat, now: int, token: Option<string>) returns (created: bool)
      modifies this`sessions
      ensures var next := if token.Some? then Sessions.After(s.cfg.sha, old(sessions), SessionEvent(s, now, user, token.value)) else None;
              (created <==> next.Some?) && sessions == if next.Some? then next.value else old(sessions)
    {
      if token == None || s.cfg.sha(token.value) in sessions.rows {
        return false;
      }
      var row := Sessions.Session(sessions.nextId, user, now + s.sessionTtl, None);
      sessions := Sessions.Store(sessions.rows[s.cfg.sha(token.value) := row], sessions.nextId + 1);
      return true;
    }

    /** The target to return to with the new session, or None when there is none; the clock is read twice. */
    method UpstreamCallbackHandler(input: CallbackInput, arrived: Moment, later: int, faults: Faults,
                                   exchanged: Option<Identity>, random: Option<Bytes>, userFaults: Faults,
                                   token: Option<string>)
      returns (to: Option<string>)
      modifies this`sessions, provisioning
      ensures var (accounts, c) := CallbackAlone(old(provisioning.Tables()), Numbered(providers, revision),
                                                 BeginCallback(s, box, arrived, input), faults, exchanged, random, userFaults);
              provisioning.Tables() == accounts && (sessions, to) == SessionAlone(s, old(sessions), later, c, token)
    {
      var accepted := AcceptCallback(input, arrived, faults, exchanged, random, userFaults);
      if !accepted.CProvisioned? {
        return None;
      }
      var created := CreateSession(accepted.user, later, token);
      if !created {
        return None;
      }
      return Some(accepted.allowed.begun.payload.returnTo);
    }
  }
}
