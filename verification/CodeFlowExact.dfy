/**
  Two guarantees that depend on what happens between two statements of a request:
  exactly when they hold, and runs from the start in which they do not.
*/
module CodeFlowExact {
  import opened Prelude
  import opened CodeFlow
  import opened CodeFlowInvariant
  import opened CodeFlowResults
  import Forms
  import Oauth
  import Registration
  import Text

  // The stored time of consumption

  /** How far the clock moves along some actions. */
  function Elapsed(actions: seq<Action>): nat {
    if actions == [] then 0
    else
      var last := actions[|actions| - 1];
      Elapsed(actions[..|actions| - 1]) + if last.Tick? then last.duration else 0
  }

  predicate LeavesAlone(actions: seq<Action>, r: nat) {
    forall a <- actions :: !(a.StepToken? && a.request == r)
  }

  lemma {:induction false} OthersPass(cfg: Config, w: World, actions: seq<Action>, r: nat)
    requires r in w.token && LeavesAlone(actions, r)
    ensures var w' := Run(cfg, w, actions);
            w'.now == w.now + Elapsed(actions) && r in w'.token && w'.token[r] == w.token[r]
  {
    if actions != [] {
      var front, last := actions[..|actions| - 1], actions[|actions| - 1];
      assert last in actions;
      OthersPass(cfg, w, front, r);
      OtherPasses(cfg, Run(cfg, w, front), last, r);
    }
  }

  lemma OtherPasses(cfg: Config, w: World, a: Action, r: nat)
    requires r in w.token && !(a.StepToken? && a.request == r)
    ensures var w' := Exec(cfg, w, a);
            w'.now == w.now + (if a.Tick? then a.duration else 0) && r in w'.token && w'.token[r] == w.token[r]
  {
  }

  /**
    Request r reads the clock, reads it again and sends its update; others run
    before the second reading and the update.
  */
  function SlowConsumption(r: nat, between: seq<Action>, later: seq<Action>): seq<Action> {
    [StepToken(r, false)] + between + [StepToken(r, false)] + later + [StepToken(r, false)]
  }

  lemma FourRuns(cfg: Config, w: World, a: Action, b: seq<Action>, c: Action, d: seq<Action>, e: Action)
    ensures Run(cfg, w, [a] + b + [c] + d + [e])
            == Exec(cfg, Run(cfg, Exec(cfg, Run(cfg, Exec(cfg, w, a), b), c), d), e)
  {
    RunConcat(cfg, w, [a], b);
    RunConcat(cfg, w, [a] + b, [c]);
    RunConcat(cfg, w, [a] + b + [c], d);
    RunConcat(cfg, w, [a] + b + [c] + d, [e]);
    RunsOne(cfg, w, a);
    RunsOne(cfg, Run(cfg, w, [a] + b), c);
    RunsOne(cfg, Run(cfg, w, [a] + b + [c] + d), e);
  }

  lemma RunsOne(cfg: Config, w: World, a: Action)
    ensures Run(cfg, w, [a]) == Exec(cfg, w, a)
  {
    assert [a][..0] == [] && Run(cfg, w, []) == w;
  }

  /** It has read the clock when it began and again when it sends, which is its last step. */
  predicate SendsTo(cfg: Config, w: World, r: nat, elapsed: nat, sending: World, sent: World)
    requires r in w.token && w.token[r].TFresh?
  {
    var s := w.token[r];
    && sent == Exec(cfg, sending, StepToken(r, false))
    && r in sending.token && sending.token[r] == TSending(s.input, s.loaded, w.now, w.now + elapsed)
  }

  lemma ReadTwice(cfg: Config, w: World, r: nat, between: seq<Action>, later: seq<Action>) returns (sending: World)
    requires r in w.token && w.token[r].TFresh? && LeavesAlone(between, r) && LeavesAlone(later, r)
    ensures SendsTo(cfg, w, r, Elapsed(between), sending, Run(cfg, w, SlowConsumption(r, between, later)))
  {
    var step := StepToken(r, false);
    FourRuns(cfg, w, step, between, step, later, step);
    var timed := Exec(cfg, w, step);
    FirstReading(cfg, w, r);
    OthersPass(cfg, timed, between, r);
    var read := Run(cfg, timed, between);
    SecondReading(cfg, read, r);
    OthersPass(cfg, Exec(cfg, read, step), later, r);
    sending := Run(cfg, Exec(cfg, read, step), later);
  }

  /** If it consumes, then with its second reading, which lies within the expiry exactly under this condition. */
  predicate StampIsWithin(w: World, r: nat, elapsed: nat, sent: World)
    requires r in w.token && w.token[r].TFresh?
  {
    && r in sent.token
    && (Spent(sent.token[r]).Some? ==>
          var codes, id := sent.db.codes, w.token[r].loaded.id;
          && id < |codes| && codes[id].consumedAt == Some(w.now + elapsed)
          && (codes[id].consumedAt.value < codes[id].expiresAt <==> elapsed < codes[id].expiresAt - w.now))
  }

  /**
    The stored time is a second reading: whatever else happens before it and before
    the update, it lies within the expiry exactly when the clock has not moved by
    what was left of it at the first reading.
  */
  lemma StampWithinExpiry(cfg: Config, w: World, r: nat, between: seq<Action>, later: seq<Action>)
    requires r in w.token && w.token[r].TFresh? && LeavesAlone(between, r) && LeavesAlone(later, r)
    ensures StampIsWithin(w, r, Elapsed(between), Run(cfg, w, SlowConsumption(r, between, later)))
  {
    var sending := ReadTwice(cfg, w, r, between, later);
    StoredWithin(cfg, w, r, Elapsed(between), sending, Run(cfg, w, SlowConsumption(r, between, later)));
  }

  lemma StoredWithin(cfg: Config, w: World, r: nat, elapsed: nat, sending: World, sent: World)
    requires r in w.token && w.token[r].TFresh? && SendsTo(cfg, w, r, elapsed, sending, sent)
    ensures StampIsWithin(w, r, elapsed, sent)
  {
    if Spent(sent.token[r]).Some? {
      ConsumeStores(cfg, sending, r, sent);
    }
  }

  lemma FirstReading(cfg: Config, w: World, r: nat)
    requires r in w.token && w.token[r].TFresh?
    ensures var timed := Exec(cfg, w, StepToken(r, false));
            timed.now == w.now && r in timed.token && timed.token[r] == TTimed(w.token[r].input, w.token[r].loaded, w.now)
  {
  }

  lemma SecondReading(cfg: Config, w: World, r: nat)
    requires r in w.token && w.token[r].TTimed?
    ensures var stamped, s := Exec(cfg, w, StepToken(r, false)), w.token[r];
            r in stamped.token && stamped.token[r] == TSending(s.input, s.loaded, s.asOf, w.now)
  {
  }

  lemma ConsumeStores(cfg: Config, w: World, r: nat, sent: World)
    requires r in w.token && w.token[r].TSending?
    requires sent == Exec(cfg, w, StepToken(r, false)) && r in sent.token && Spent(sent.token[r]).Some?
    ensures var id := w.token[r].loaded.id;
            id < |sent.db.codes| && sent.db.codes[id].consumedAt == Some(w.token[r].stamp)
  {
  }

  // The scopes of a stored code

  /** The last edit of an application that is accepted, if there is one. */
  function LastEdit(actions: seq<Action>, id: nat): Option<Registration.AppInput> {
    if actions == [] then None
    else
      var last := actions[|actions| - 1];
      if last.UpdateApp? && last.id == id && Registration.AcceptableApp(last.app) then Some(last.app)
      else LastEdit(actions[..|actions| - 1], id)
  }

  lemma AppAfterOne(cfg: Config, w: World, a: Action, id: nat)
    requires id < |w.db.registry.apps|
    ensures var apps := Exec(cfg, w, a).db.registry.apps;
            && id < |apps|
            && apps[id] == if a.UpdateApp? && a.id == id && Registration.AcceptableApp(a.app) then Registration.AppRow(a.app)
                           else w.db.registry.apps[id]
  {
    if a.StepAuthorize? && a.request in w.authorize {
      QuietTables(cfg, w.db, w.now, a.fault, w.authorize[a.request]);
    } else if a.StepToken? && a.request in w.token {
      OnlyConsumptionWrites(cfg, w.db, w.now, a.fault, w.token[a.request]);
    }
  }

  lemma {:induction false} AppAfter(cfg: Config, w: World, actions: seq<Action>, id: nat)
    requires id < |w.db.registry.apps|
    ensures var apps, edit := Run(cfg, w, actions).db.registry.apps, LastEdit(actions, id);
            && id < |apps|
            && apps[id] == if edit.Some? then Registration.AppRow(edit.value) else w.db.registry.apps[id]
  {
    if actions != [] {
      AppAfter(cfg, w, actions[..|actions| - 1], id);
      AppAfterOne(cfg, Run(cfg, w, actions[..|actions| - 1]), actions[|actions| - 1], id);
    }
  }

  /** On its way from its checks to its code, or done. */
  predicate Pursues(s: AuthorizeState, g: Grant) {
    s == AReady(g) || (s.AInsert? && s.grant == g) || s.ADone?
  }

  lemma {:induction false} GrantStays(cfg: Config, w: World, actions: seq<Action>, r: nat, g: Grant)
    requires r in w.authorize && Pursues(w.authorize[r], g)
    ensures r in Run(cfg, w, actions).authorize && Pursues(Run(cfg, w, actions).authorize[r], g)
  {
    if actions != [] {
      GrantStays(cfg, w, actions[..|actions| - 1], r, g);
      GrantStaysOnce(cfg, Run(cfg, w, actions[..|actions| - 1]), actions[|actions| - 1], r, g);
    }
  }

  lemma GrantStaysOnce(cfg: Config, w: World, a: Action, r: nat, g: Grant)
    requires r in w.authorize && Pursues(w.authorize[r], g)
    ensures r in Exec(cfg, w, a).authorize && Pursues(Exec(cfg, w, a).authorize[r], g)
  {
    if a.StepAuthorize? && a.request == r {
      PursuesOn(cfg, w.db, w.now, a.fault, w.authorize[r], g);
    }
  }

  lemma PursuesOn(cfg: Config, db: Db, now: int, fault: bool, s: AuthorizeState, g: Grant)
    requires Pursues(s, g)
    ensures Pursues(AuthorizeStep(cfg, db, now, fault, s).1, g)
  {
  }

  predicate NamesAll(edit: Registration.AppInput, scope: string) {
    forall token <- Text.Fields(scope) :: token in Forms.NamedScopes(edit.allowedScopes)
  }

  /**
    When a code is inserted its application allows all its scopes exactly when the
    last accepted edit of it since the request loaded it, if any, names them all.
  */
  lemma ScopesAllowedAtInsertion(cfg: Config, w: World, r: nat, between: seq<Action>)
    requires Inv(cfg, w) && r in w.authorize && w.authorize[r].AClientRead?
    requires var loaded := Exec(cfg, w, StepAuthorize(r, false));
             var ready := Run(cfg, loaded, between);
             && loaded.authorize[r].AReady? && r in ready.authorize && ready.authorize[r].AInsert?
             && |Exec(cfg, ready, StepAuthorize(r, false)).db.codes| > |ready.db.codes|
    ensures var ready := Run(cfg, Exec(cfg, w, StepAuthorize(r, false)), between);
            var db, c := Exec(cfg, ready, StepAuthorize(r, false)).db, |ready.db.codes|;
            var id := w.authorize[r].clientRow.applicationId;
            var edit := LastEdit(between, id);
            && c < |db.codes| && id < |db.registry.apps|
            && (Oauth.ValidateRequestedScopes(db.registry.apps[id], db.codes[c].scope)
                <==> (edit.Some? ==> NamesAll(edit.value, db.codes[c].scope)))
  {
    var loaded := Exec(cfg, w, StepAuthorize(r, false));
    var ready := Run(cfg, loaded, between);
    var id := w.authorize[r].clientRow.applicationId;
    var g := loaded.authorize[r].grant;
    LoadsApp(cfg, w, r);
    AppAfter(cfg, loaded, between, id);
    GrantStays(cfg, loaded, between, r, g);
    AppAfterOne(cfg, ready, StepAuthorize(r, false), id);
    StoresScope(cfg, ready, r);
    var edit := LastEdit(between, id);
    if edit.Some? {
      Forms.DedupElements(Forms.NamedScopes(edit.value.allowedScopes));
    }
  }

  lemma LoadsApp(cfg: Config, w: World, r: nat)
    requires r in w.authorize && w.authorize[r].AClientRead? && Exec(cfg, w, StepAuthorize(r, false)).authorize[r].AReady?
    ensures var loaded, id := Exec(cfg, w, StepAuthorize(r, false)), w.authorize[r].clientRow.applicationId;
            && loaded.db == w.db && id < |w.db.registry.apps|
            && loaded.authorize[r].grant.input == w.authorize[r].input
            && Oauth.ValidateRequestedScopes(w.db.registry.apps[id], w.authorize[r].input.req.scope)
  {
  }

  lemma StoresScope(cfg: Config, w: World, r: nat)
    requires r in w.authorize && w.authorize[r].AInsert?
    requires |Exec(cfg, w, StepAuthorize(r, false)).db.codes| > |w.db.codes|
    ensures Exec(cfg, w, StepAuthorize(r, false)).db.codes[|w.db.codes|].scope == w.authorize[r].grant.input.req.scope
  {
  }
}
