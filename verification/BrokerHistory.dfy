/** When the parts of a brokered sign-in took place: the moments they carry are states of the run. */
module BrokerHistory {
  import opened Prelude
  import opened Upstream
  import opened Broker
  import opened BrokerProvenance

  function Reached(s: Settings, start: int, actions: seq<Action>): World {
    Run(s, Initial(start), actions)
  }

  lemma {:induction false} StepsCount(s: Settings, start: int, actions: seq<Action>)
    ensures Reached(s, start, actions).step == |actions|
  {
    if actions != [] {
      StepsCount(s, start, actions[..|actions| - 1]);
    }
  }

  lemma ExtendsTransitive(u: World, v: World, w: World)
    requires Extends(u, v) && Extends(v, w)
    ensures Extends(u, w)
  {
  }

  lemma LastExtends(s: Settings, start: int, actions: seq<Action>)
    requires IsJson(s) && actions != []
    ensures Extends(Reached(s, start, actions[..|actions| - 1]), Reached(s, start, actions))
  {
    RunKeeps(s, start, actions[..|actions| - 1]);
    ExecKeeps(s, Reached(s, start, actions[..|actions| - 1]), actions[|actions| - 1]);
  }

  lemma {:induction false} RunExtends(s: Settings, start: int, actions: seq<Action>, k: nat)
    requires IsJson(s) && k <= |actions|
    ensures Extends(Reached(s, start, actions[..k]), Reached(s, start, actions))
    decreases |actions|
  {
    if k == |actions| {
      assert actions[..k] == actions;
    } else {
      var front := actions[..|actions| - 1];
      RunExtends(s, start, front, k);
      assert front[..k] == actions[..k];
      LastExtends(s, start, actions);
      ExtendsTransitive(Reached(s, start, actions[..k]), Reached(s, start, front), Reached(s, start, actions));
    }
  }

  // Starts

  function ArrivalOf(st: StartState): Option<Moment> {
    match st
    case SOpened(a) => Some(a.arrived)
    case SClientRead(a, _, _) => Some(a.arrived)
    case SAppRead(a, _, _) => Some(a.arrived)
    case SChosen(c) => Some(c.attempt.arrived)
    case SRedirected(st) => Some(st.chosen.attempt.arrived)
    case SPage(_) => None
  }

  predicate MovesStart(a: Action, r: nat) {
    (a.Start? || a.StepStart? || a.Redirect?) && a.request == r
  }

  lemma CallbacksAlone(s: Settings, w: World, a: Action)
    requires a.Callback? || a.StepCallback? || a.Provision? || a.SignIn?
    ensures Exec(s, w, a).starts == w.starts && Exec(s, w, a).prompts == w.prompts && Exec(s, w, a).tables == w.tables
  {
    if a.Callback? || a.StepCallback? {
      ComingBackAlone(s, w, a);
    }
  }

  lemma ComingBackAlone(s: Settings, w: World, a: Action)
    requires a.Callback? || a.StepCallback?
    ensures Exec(s, w, a).starts == w.starts && Exec(s, w, a).prompts == w.prompts && Exec(s, w, a).tables == w.tables
  {
  }

  lemma StartsUntouched(s: Settings, w: World, a: Action)
    requires !a.Start? && !a.StepStart? && !a.Redirect?
    ensures Exec(s, w, a).starts == w.starts
  {
    if a.Callback? || a.StepCallback? || a.Provision? || a.SignIn? {
      CallbacksAlone(s, w, a);
    }
  }

  lemma RedirectTouches(s: Settings, w: World, r: nat, randoms: Randoms, cipher: Option<Bytes>)
    ensures var a := Redirect(r, randoms, cipher);
            || Exec(s, w, a).starts == w.starts
            || (r in w.starts && w.starts[r].SChosen?
                && exists st :: StartedNow(s, w, r, st) && Exec(s, w, a).starts == w.starts[r := st])
  {
    if r in w.starts && w.starts[r].SChosen? && !(cipher.Some? && cipher.value in w.box.sealed) {
      RedirectCases(s, w, r, randoms, cipher);
      PayloadOfRedirect(s, Here(w), w.starts[r].chosen, randoms);
      var next := Redirected(s, Here(w), w.starts[r].chosen, randoms);
      var st := if next.SPage? then next else if cipher == None then SPage(500) else next;
      assert StartedNow(s, w, r, st);
      assert Exec(s, w, Redirect(r, randoms, cipher)) == Later(ExecRedirect(s, w, r, randoms, cipher));
    }
  }

  /** What a redirect leaves of a start: a page, or its redirect, sent now. */
  predicate StartedNow(s: Settings, w: World, r: nat, st: StartState) {
    && r in w.starts && w.starts[r].SChosen?
    && (st.SPage? || (st.SRedirected? && st.started.chosen == w.starts[r].chosen && st.started.when == Here(w)))
  }

  lemma OtherStarts(s: Settings, w: World, a: Action, r: nat)
    requires !MovesStart(a, r)
    ensures r in Exec(s, w, a).starts <==> r in w.starts
    ensures r in w.starts ==> Exec(s, w, a).starts[r] == w.starts[r]
  {
    if a.Redirect? {
      RedirectTouches(s, w, a.request, a.randoms, a.cipher);
    } else if !a.Start? && !a.StepStart? {
      StartsUntouched(s, w, a);
    }
  }

  lemma RedirectMovesOn(s: Settings, w: World, a: Action, r: nat)
    requires r in w.starts && a.Redirect? && a.request == r
    ensures var next := Exec(s, w, a).starts;
            r in next && (ArrivalOf(next[r]).Some? ==> ArrivalOf(next[r]) == ArrivalOf(w.starts[r]))
  {
    RedirectTouches(s, w, r, a.randoms, a.cipher);
  }

  lemma StartMovesOn(s: Settings, w: World, a: Action, r: nat)
    requires r in w.starts && MovesStart(a, r)
    ensures var next := Exec(s, w, a).starts;
            r in next && (ArrivalOf(next[r]).Some? ==> ArrivalOf(next[r]) == ArrivalOf(w.starts[r]))
  {
    if a.Redirect? {
      RedirectMovesOn(s, w, a, r);
    }
  }

  lemma StartStays(s: Settings, w: World, a: Action, r: nat)
    requires r in w.starts
    ensures var next := Exec(s, w, a).starts;
            r in next && (ArrivalOf(next[r]).Some? ==> ArrivalOf(next[r]) == ArrivalOf(w.starts[r]))
  {
    if MovesStart(a, r) {
      StartMovesOn(s, w, a, r);
    } else {
      OtherStarts(s, w, a, r);
    }
  }

  lemma StartIsNew(s: Settings, w: World, a: Action, r: nat)
    requires r !in w.starts && r in Exec(s, w, a).starts
    ensures var st := Exec(s, w, a).starts[r];
            ArrivalOf(st).Some? ==> ArrivalOf(st) == Some(Here(w))
  {
    if !MovesStart(a, r) {
      OtherStarts(s, w, a, r);
    }
  }

  /** Start r came in at this moment of the run. */
  predicate StartedIn(s: Settings, start: int, actions: seq<Action>, r: nat, m: Moment) {
    && m.step < |actions| && m == Here(Reached(s, start, actions[..m.step]))
    && r !in Reached(s, start, actions[..m.step]).starts && r in Reached(s, start, actions[..m.step + 1]).starts
  }

  lemma StartedEarlier(s: Settings, start: int, actions: seq<Action>, r: nat, m: Moment)
    requires actions != [] && StartedIn(s, start, actions[..|actions| - 1], r, m)
    ensures StartedIn(s, start, actions, r, m)
  {
    var front := actions[..|actions| - 1];
    assert front[..m.step] == actions[..m.step] && front[..m.step + 1] == actions[..m.step + 1];
  }

  /** A start came in at the moment it carries. */
  lemma {:induction false} StartCameIn(s: Settings, start: int, actions: seq<Action>, r: nat, m: Moment)
    requires var starts := Reached(s, start, actions).starts;
             r in starts && ArrivalOf(starts[r]) == Some(m)
    ensures StartedIn(s, start, actions, r, m)
  {
    var front, last := actions[..|actions| - 1], actions[|actions| - 1];
    if r in Reached(s, start, front).starts {
      StartStays(s, Reached(s, start, front), last, r);
      StartCameIn(s, start, front, r, m);
      StartedEarlier(s, start, actions, r, m);
    } else {
      StepsCount(s, start, front);
      StartIsNew(s, Reached(s, start, front), last, r);
      assert actions[..|front|] == front && actions[..|front| + 1] == actions;
    }
  }

  /** A redirect is new in a step, or it stands. */
  lemma RedirectStep(s: Settings, w: World, a: Action, r: nat)
    requires var next := Exec(s, w, a).starts;
             r in next && next[r].SRedirected?
    ensures var st := Exec(s, w, a).starts[r].started;
            r in w.starts
            && (w.starts[r] == SRedirected(st) || (w.starts[r] == SChosen(st.chosen) && st.when == Here(w)))
  {
    if !MovesStart(a, r) {
      OtherStarts(s, w, a, r);
    } else if a.Redirect? {
      RedirectTouches(s, w, r, a.randoms, a.cipher);
    }
  }

  /** At the moment it carries, this start was redirected to its provider. */
  predicate SentAt(s: Settings, start: int, actions: seq<Action>, r: nat, st: Started) {
    var k := st.when.step;
    && k < |actions| && st.when == Here(Reached(s, start, actions[..k]))
    && var before, after := Reached(s, start, actions[..k]).starts, Reached(s, start, actions[..k + 1]).starts;
       && r in before && before[r] == SChosen(st.chosen)
       && r in after && after[r] == SRedirected(st)
  }

  lemma SentEarlier(s: Settings, start: int, actions: seq<Action>, r: nat, st: Started)
    requires actions != [] && SentAt(s, start, actions[..|actions| - 1], r, st)
    ensures SentAt(s, start, actions, r, st)
  {
    var front, k := actions[..|actions| - 1], st.when.step;
    assert front[..k] == actions[..k] && front[..k + 1] == actions[..k + 1];
  }

  lemma {:induction false} StartWasSent(s: Settings, start: int, actions: seq<Action>, r: nat, st: Started)
    requires var starts := Reached(s, start, actions).starts;
             r in starts && starts[r] == SRedirected(st)
    ensures SentAt(s, start, actions, r, st)
  {
    var front, last := actions[..|actions| - 1], actions[|actions| - 1];
    RedirectStep(s, Reached(s, start, front), last, r);
    if Reached(s, start, front).starts[r].SRedirected? {
      StartWasSent(s, start, front, r, st);
      SentEarlier(s, start, actions, r, st);
    } else {
      StepsCount(s, start, front);
      assert actions[..|front|] == front && actions[..|front| + 1] == actions;
    }
  }

  // Callbacks

  function BegunOf(c: CallbackState): Option<Begun> {
    match c
    case COpened(b) => Some(b)
    case CAllowed(a) => Some(a.begun)
    case CProvisioning(a, _) => Some(a.begun)
    case CProvisioned(a, _, _) => Some(a.begun)
    case CSignedIn(i, _) => Some(i.allowed.begun)
    case CPage(_) => None
  }

  function IdentityOf(c: CallbackState): Option<Identity> {
    match c
    case CProvisioning(_, id) => Some(id)
    case CProvisioned(_, id, _) => Some(id)
    case CSignedIn(i, _) => Some(i.identity)
    case _ => None
  }

  predicate MovesCallback(a: Action, r: nat) {
    (a.Callback? || a.StepCallback? || a.Provision? || a.SignIn?) && a.request == r
  }

  lemma StartsAlone(s: Settings, w: World, a: Action)
    requires a.Start? || a.StepStart? || a.Redirect?
    ensures Exec(s, w, a).callbacks == w.callbacks
  {
  }

  lemma CallbacksUntouched(s: Settings, w: World, a: Action)
    requires !a.Callback? && !a.StepCallback? && !a.Provision? && !a.SignIn?
    ensures Exec(s, w, a).callbacks == w.callbacks
  {
    if a.Start? || a.StepStart? || a.Redirect? {
      StartsAlone(s, w, a);
    }
  }

  lemma OtherCallbacks(s: Settings, w: World, a: Action, r: nat)
    requires !MovesCallback(a, r)
    ensures r in Exec(s, w, a).callbacks <==> r in w.callbacks
    ensures r in w.callbacks ==> Exec(s, w, a).callbacks[r] == w.callbacks[r]
  {
    if !a.Callback? && !a.StepCallback? && !a.Provision? && !a.SignIn? {
      CallbacksUntouched(s, w, a);
    } else if a.Provision? || a.SignIn? {
      LastStatementsElsewhere(s, w, a, r);
    } else {
      ComingBackElsewhere(s, w, a, r);
    }
  }

  lemma ComingBackElsewhere(s: Settings, w: World, a: Action, r: nat)
    requires (a.Callback? || a.StepCallback?) && a.request != r
    ensures r in Exec(s, w, a).callbacks <==> r in w.callbacks
    ensures r in w.callbacks ==> Exec(s, w, a).callbacks[r] == w.callbacks[r]
  {
    if a.StepCallback? && a.request in w.callbacks && w.tables != [] {
      var c := ExecCallback(w, a.request, a.fault, a.exchanged, a.random).callbacks[a.request];
      assert Exec(s, w, a).callbacks == w.callbacks[a.request := c];
    }
  }

  lemma LastStatementsElsewhere(s: Settings, w: World, a: Action, r: nat)
    requires (a.Provision? || a.SignIn?) && a.request != r
    ensures r in Exec(s, w, a).callbacks <==> r in w.callbacks
    ensures r in w.callbacks ==> Exec(s, w, a).callbacks[r] == w.callbacks[r]
  {
    LastStatementFollowsUp(s, w, a);
  }

  /** What a last statement leaves of a callback: a page, or a state with the same origin and identity. */
  predicate FollowsUp(before: CallbackState, c: CallbackState) {
    c.CPage? || (BegunOf(c) == BegunOf(before) && IdentityOf(c) == IdentityOf(before))
  }

  predicate OneFollowsUp(w: World, w': World, r: nat) {
    w'.callbacks == w.callbacks
    || (r in w.callbacks && r in w'.callbacks && w'.callbacks == w.callbacks[r := w'.callbacks[r]]
        && FollowsUp(w.callbacks[r], w'.callbacks[r]))
  }

  lemma ProvisionFollowsUp(s: Settings, w: World, r: nat, fault: bool)
    requires r in w.callbacks && w.callbacks[r].CProvisioning?
    ensures OneFollowsUp(w, ExecProvision(s, w, r, fault), r)
  {
  }

  lemma SignInFollowsUp(s: Settings, w: World, r: nat, token: Option<string>)
    requires r in w.callbacks && w.callbacks[r].CProvisioned?
    ensures OneFollowsUp(w, ExecSignIn(s, w, r, token), r)
  {
  }

  lemma LastStatementFollowsUp(s: Settings, w: World, a: Action)
    requires a.Provision? || a.SignIn?
    ensures OneFollowsUp(w, Exec(s, w, a), a.request)
  {
    if Idle(w, a) {
      IdleExec(s, w, a);
    } else {
      LastStatements(s, w, a);
      if a.Provision? {
        ProvisionFollowsUp(s, Later(w), a.request, a.fault);
      } else {
        SignInFollowsUp(s, Later(w), a.request, a.token);
      }
    }
  }

  lemma StepTouches(s: Settings, w: World, a: Action)
    requires a.StepCallback? && a.request in w.callbacks && w.tables != []
    ensures var last := |w.tables| - 1;
            Exec(s, w, a).callbacks
            == w.callbacks[a.request := CallbackStep(w.tables[last], last, a.fault, a.exchanged, w.callbacks[a.request])]
  {
    CallbackCases(s, w, a);
  }

  /** A statement of a callback keeps where it came from, and the exchange gives it its identity. */
  lemma StepIs(table: Providers, at: nat, fault: bool, exchanged: Option<Identity>, c: CallbackState)
    ensures var next := CallbackStep(table, at, fault, exchanged, c);
            && (BegunOf(next).Some? ==> BegunOf(next) == BegunOf(c))
            && (IdentityOf(next).Some? ==>
                  || IdentityOf(next) == IdentityOf(c)
                  || (exchanged.Some? && c.CAllowed?
                      && IdentityOf(next) == Some(exchanged.value.(provider := c.allowed.begun.payload.provider))))
  {
  }

  lemma StepMovesOn(s: Settings, w: World, a: Action, r: nat)
    requires r in w.callbacks && a.StepCallback? && a.request == r
    ensures var next := Exec(s, w, a).callbacks;
            r in next && (BegunOf(next[r]).Some? ==> BegunOf(next[r]) == BegunOf(w.callbacks[r]))
  {
    if w.tables == [] {
      IdleExec(s, w, a);
    } else {
      StepTouches(s, w, a);
      StepIs(w.tables[|w.tables| - 1], |w.tables| - 1, a.fault, a.exchanged, w.callbacks[r]);
    }
  }

  lemma CallbackMovesOn(s: Settings, w: World, a: Action, r: nat)
    requires r in w.callbacks && MovesCallback(a, r)
    ensures var next := Exec(s, w, a).callbacks;
            r in next && (BegunOf(next[r]).Some? ==> BegunOf(next[r]) == BegunOf(w.callbacks[r]))
  {
    if a.Provision? || a.SignIn? {
      LastStatementFollowsUp(s, w, a);
    } else if a.StepCallback? {
      StepMovesOn(s, w, a, r);
    }
  }

  lemma CallbackStays(s: Settings, w: World, a: Action, r: nat)
    requires r in w.callbacks
    ensures var next := Exec(s, w, a).callbacks;
            r in next && (BegunOf(next[r]).Some? ==> BegunOf(next[r]) == BegunOf(w.callbacks[r]))
  {
    if MovesCallback(a, r) {
      CallbackMovesOn(s, w, a, r);
    } else {
      OtherCallbacks(s, w, a, r);
    }
  }

  lemma CallbackIsNew(s: Settings, w: World, a: Action, r: nat)
    requires r !in w.callbacks && r in Exec(s, w, a).callbacks
    ensures var c := Exec(s, w, a).callbacks[r];
            IdentityOf(c) == None && (BegunOf(c).Some? ==> BegunOf(c).value.arrived == Here(w))
  {
    if !MovesCallback(a, r) {
      OtherCallbacks(s, w, a, r);
    }
  }

  /** Callback r came in at this moment of the run. */
  predicate CameBackAt(s: Settings, start: int, actions: seq<Action>, r: nat, m: Moment) {
    && m.step < |actions| && m == Here(Reached(s, start, actions[..m.step]))
    && r !in Reached(s, start, actions[..m.step]).callbacks && r in Reached(s, start, actions[..m.step + 1]).callbacks
  }

  lemma CameBackEarlier(s: Settings, start: int, actions: seq<Action>, r: nat, m: Moment)
    requires actions != [] && CameBackAt(s, start, actions[..|actions| - 1], r, m)
    ensures CameBackAt(s, start, actions, r, m)
  {
    var front := actions[..|actions| - 1];
    assert front[..m.step] == actions[..m.step] && front[..m.step + 1] == actions[..m.step + 1];
  }

  /** A callback came in at the moment it carries. */
  lemma {:induction false} CallbackCameIn(s: Settings, start: int, actions: seq<Action>, r: nat, begun: Begun)
    requires var callbacks := Reached(s, start, actions).callbacks;
             r in callbacks && BegunOf(callbacks[r]) == Some(begun)
    ensures CameBackAt(s, start, actions, r, begun.arrived)
  {
    var front, last := actions[..|actions| - 1], actions[|actions| - 1];
    if r in Reached(s, start, front).callbacks {
      CallbackStays(s, Reached(s, start, front), last, r);
      CallbackCameIn(s, start, front, r, begun);
      CameBackEarlier(s, start, actions, r, begun.arrived);
    } else {
      StepsCount(s, start, front);
      CallbackIsNew(s, Reached(s, start, front), last, r);
      assert actions[..|front|] == front && actions[..|front| + 1] == actions;
    }
  }

  /** An identity is the one that was there, or the exchange has just answered with it. */
  lemma IdentityStep(s: Settings, w: World, a: Action, r: nat)
    requires r in w.callbacks && r in Exec(s, w, a).callbacks && IdentityOf(Exec(s, w, a).callbacks[r]).Some?
    ensures var id := IdentityOf(Exec(s, w, a).callbacks[r]);
            || id == IdentityOf(w.callbacks[r])
            || (&& a.StepCallback? && a.request == r && a.exchanged.Some?
                && w.callbacks[r].CAllowed?
                && id == Some(a.exchanged.value.(provider := w.callbacks[r].allowed.begun.payload.provider)))
  {
    if !MovesCallback(a, r) {
      OtherCallbacks(s, w, a, r);
    } else if a.Provision? || a.SignIn? {
      LastStatementFollowsUp(s, w, a);
    } else if a.StepCallback? {
      IdentityAnswered(s, w, a, r);
    }
  }

  lemma IdentityAnswered(s: Settings, w: World, a: Action, r: nat)
    requires a.StepCallback? && a.request == r && r in w.callbacks
    ensures var next := Exec(s, w, a).callbacks;
            && r in next
            && (IdentityOf(next[r]).Some? ==>
                  || IdentityOf(next[r]) == IdentityOf(w.callbacks[r])
                  || (a.exchanged.Some? && w.callbacks[r].CAllowed?
                      && IdentityOf(next[r])
                         == Some(a.exchanged.value.(provider := w.callbacks[r].allowed.begun.payload.provider))))
  {
    if w.tables == [] {
      IdleExec(s, w, a);
    } else {
      StepTouches(s, w, a);
      StepIs(w.tables[|w.tables| - 1], |w.tables| - 1, a.fault, a.exchanged, w.callbacks[r]);
    }
  }

  /** The exchange of callback r, at step k, answered with this identity of the provider that was asked. */
  predicate ExchangedAt(s: Settings, start: int, actions: seq<Action>, r: nat, k: nat, id: Identity) {
    && k < |actions| && actions[k].StepCallback? && actions[k].request == r && actions[k].exchanged.Some?
    && var w := Reached(s, start, actions[..k]);
       && r in w.callbacks && w.callbacks[r].CAllowed?
       && id == actions[k].exchanged.value.(provider := w.callbacks[r].allowed.begun.payload.provider)
  }

  lemma {:induction false} IdentityWasExchanged(s: Settings, start: int, actions: seq<Action>, r: nat) returns (k: nat)
    requires var callbacks := Reached(s, start, actions).callbacks;
             r in callbacks && IdentityOf(callbacks[r]).Some?
    ensures ExchangedAt(s, start, actions, r, k, IdentityOf(Reached(s, start, actions).callbacks[r]).value)
  {
    var front, last := actions[..|actions| - 1], actions[|actions| - 1];
    var w := Reached(s, start, front);
    if r !in w.callbacks {
      CallbackIsNew(s, w, last, r);
    }
    IdentityStep(s, w, last, r);
    if IdentityOf(w.callbacks[r]) == IdentityOf(Reached(s, start, actions).callbacks[r]) {
      k := IdentityWasExchanged(s, start, front, r);
      assert front[..k] == actions[..k] && front[k] == actions[k];
    } else {
      k := |front|;
      assert actions[..k] == front;
    }
  }

  // Prompts

  lemma PromptStepOf(s: Settings, w: World, a: Action, p: nat)
    requires p in Exec(s, w, a).prompts
    ensures || (p in w.prompts && Exec(s, w, a).prompts[p] == w.prompts[p])
            || (&& a.Prompt? && a.request == p && IsPrompting(w.core, p) && Exec(s, w, a).prompts[p] == w.step)
  {
    if !a.Prompt? {
      PromptsUntouched(s, w, a);
    }
  }

  lemma PromptsUntouched(s: Settings, w: World, a: Action)
    requires !a.Prompt?
    ensures Exec(s, w, a).prompts == w.prompts
  {
    if a.Callback? || a.StepCallback? || a.Provision? || a.SignIn? {
      CallbacksAlone(s, w, a);
    }
  }

  /** The prompt of a request was rendered in the step noted for it. */
  lemma {:induction false} PromptWasRendered(s: Settings, start: int, actions: seq<Action>, p: nat)
    requires p in Reached(s, start, actions).prompts
    ensures var k := Reached(s, start, actions).prompts[p];
            && k < |actions| && actions[k].Prompt? && actions[k].request == p
            && IsPrompting(Reached(s, start, actions[..k]).core, p)
  {
    var front, last := actions[..|actions| - 1], actions[|actions| - 1];
    StepsCount(s, start, front);
    PromptStepOf(s, Reached(s, start, front), last, p);
    var k := Reached(s, start, actions).prompts[p];
    if p in Reached(s, start, front).prompts && Reached(s, start, front).prompts[p] == k {
      PromptWasRendered(s, start, front, p);
      assert front[..k] == actions[..k];
    } else {
      assert actions[..k] == front;
    }
  }

  // Provider tables

  function CurrentTable(w: World): Providers {
    if w.tables == [] then map[] else w.tables[|w.tables| - 1]
  }

  lemma TablesGrowByOne(s: Settings, w: World, a: Action)
    ensures |Exec(s, w, a).tables| <= |w.tables| + 1
  {
    if a.Callback? || a.StepCallback? || a.Provision? || a.SignIn? {
      CallbacksAlone(s, w, a);
    }
  }

  lemma TablesGrow(s: Settings, start: int, actions: seq<Action>, k: nat)
    requires IsJson(s) && k <= |actions|
    ensures Reached(s, start, actions[..k]).tables <= Reached(s, start, actions).tables
  {
    RunExtends(s, start, actions, k);
  }

  lemma LastStepOfTables(s: Settings, start: int, actions: seq<Action>, n: nat)
    requires IsJson(s) && actions != [] && n + 1 < |Reached(s, start, actions).tables|
    ensures var before := Reached(s, start, actions[..|actions| - 1]).tables;
            n < |before| && before[n] == Reached(s, start, actions).tables[n]
  {
    TablesGrowByOne(s, Reached(s, start, actions[..|actions| - 1]), actions[|actions| - 1]);
    TablesGrow(s, start, actions, |actions| - 1);
  }

  /** A provider table first seen at or after step k was the current one at some state from there on. */
  lemma {:induction false} TableWasCurrent(s: Settings, start: int, actions: seq<Action>, k: nat, n: nat) returns (j: nat)
    requires IsJson(s) && k <= |actions|
    requires |Reached(s, start, actions[..k]).tables| <= n + 1 <= |Reached(s, start, actions).tables|
    ensures k <= j <= |actions|
    ensures CurrentTable(Reached(s, start, actions[..j])) == Reached(s, start, actions).tables[n]
    decreases |actions|
  {
    if n == |Reached(s, start, actions).tables| - 1 {
      j := |actions|;
      assert actions[..j] == actions;
    } else {
      assert actions[..|actions|] == actions;
      var front := actions[..|actions| - 1];
      assert front[..k] == actions[..k];
      LastStepOfTables(s, start, actions, n);
      j := TableWasCurrent(s, start, front, k, n);
      assert front[..j] == actions[..j];
    }
  }
}
