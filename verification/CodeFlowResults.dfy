/** Properties of every run of the authorization code flow, from empty tables on. */
module CodeFlowResults {
  import opened Prelude
  import opened Models
  import opened CodeFlow
  import opened CodeFlowInvariant
  import Text
  import Oauth
  import Registration
  import Sessions

  /** The state reached from empty tables. */
  function Reached(cfg: Config, start: int, actions: seq<Action>): World {
    Run(cfg, Initial(start), actions)
  }

  lemma ReachedInv(cfg: Config, start: int, actions: seq<Action>)
    ensures Inv(cfg, Reached(cfg, start, actions))
  {
    InitialInv(cfg, start);
    RunKeeps(cfg, Initial(start), actions);
  }

  lemma ReachedExtends(cfg: Config, start: int, first: seq<Action>, more: seq<Action>)
    ensures Extends(Reached(cfg, start, first), Reached(cfg, start, first + more))
  {
    ReachedInv(cfg, start, first);
    RunConcat(cfg, Initial(start), first, more);
    RunKeeps(cfg, Reached(cfg, start, first), more);
  }

  // Arrivals

  lemma {:induction false} StepsCount(cfg: Config, start: int, actions: seq<Action>)
    ensures Reached(cfg, start, actions).step == |actions|
  {
    if actions != [] {
      StepsCount(cfg, start, actions[..|actions| - 1]);
    }
  }

  /** The stamp of an authorization request is the state of the run it came in at. */
  predicate CameInAt(cfg: Config, start: int, actions: seq<Action>, r: nat, k: nat) {
    && k < |actions| && r in Reached(cfg, start, actions).authorize
    && r !in Reached(cfg, start, actions[..k]).authorize && r in Reached(cfg, start, actions[..k + 1]).authorize
    && InputOf(Reached(cfg, start, actions).authorize[r]).arrival == ArrivalAt(Reached(cfg, start, actions[..k]))
  }

  lemma {:induction false} ArrivalIsReal(cfg: Config, start: int, actions: seq<Action>, r: nat)
    requires r in Reached(cfg, start, actions).authorize
    ensures CameInAt(cfg, start, actions, r, InputOf(Reached(cfg, start, actions).authorize[r]).arrival.step)
  {
    var front, last := actions[..|actions| - 1], actions[|actions| - 1];
    var u := Reached(cfg, start, front);
    StepsCount(cfg, start, front);
    if r in u.authorize {
      ArrivalIsReal(cfg, start, front, r);
      var k := InputOf(u.authorize[r]).arrival.step;
      assert actions[..k] == front[..k] && actions[..k + 1] == front[..k + 1];
      ArrivalStays(cfg, u, last, r);
    } else {
      assert actions[..|front|] == front && actions[..|front| + 1] == actions;
      NewArrival(cfg, u, last, r);
    }
  }

  lemma ArrivalStays(cfg: Config, w: World, a: Action, r: nat)
    requires r in w.authorize
    ensures r in Exec(cfg, w, a).authorize && InputOf(Exec(cfg, w, a).authorize[r]) == InputOf(w.authorize[r])
  {
    if a.StepAuthorize? && a.request in w.authorize {
      InputKept(cfg, w.db, w.now, a.fault, w.authorize[a.request]);
    }
  }

  lemma NewArrival(cfg: Config, w: World, a: Action, r: nat)
    requires r !in w.authorize && r in Exec(cfg, w, a).authorize
    ensures InputOf(Exec(cfg, w, a).authorize[r]).arrival == ArrivalAt(w)
  {
  }

  /** The stamp of a token request is the state of the run it came in at. */
  predicate TokenCameInAt(cfg: Config, start: int, actions: seq<Action>, r: nat, k: nat) {
    && k < |actions| && r in Reached(cfg, start, actions).token
    && r !in Reached(cfg, start, actions[..k]).token && r in Reached(cfg, start, actions[..k + 1]).token
    && Reached(cfg, start, actions).token[r].input.arrival == ArrivalAt(Reached(cfg, start, actions[..k]))
  }

  lemma {:induction false} TokenArrivalIsReal(cfg: Config, start: int, actions: seq<Action>, r: nat)
    requires r in Reached(cfg, start, actions).token
    ensures TokenCameInAt(cfg, start, actions, r, Reached(cfg, start, actions).token[r].input.arrival.step)
  {
    var front, last := actions[..|actions| - 1], actions[|actions| - 1];
    var u := Reached(cfg, start, front);
    if r in u.token {
      TokenArrivalIsReal(cfg, start, front, r);
      TokenInputStays(cfg, u, last, r);
      TokenCameInEarlier(cfg, start, actions, r, u.token[r].input.arrival.step);
    } else {
      TokenCameInLast(cfg, start, actions, r);
    }
  }

  lemma TokenCameInEarlier(cfg: Config, start: int, actions: seq<Action>, r: nat, k: nat)
    requires actions != [] && TokenCameInAt(cfg, start, actions[..|actions| - 1], r, k)
    requires r in Reached(cfg, start, actions).token
    requires Reached(cfg, start, actions).token[r].input == Reached(cfg, start, actions[..|actions| - 1]).token[r].input
    ensures TokenCameInAt(cfg, start, actions, r, k)
  {
    var front := actions[..|actions| - 1];
    assert actions[..k] == front[..k] && actions[..k + 1] == front[..k + 1];
  }

  lemma TokenCameInLast(cfg: Config, start: int, actions: seq<Action>, r: nat)
    requires r in Reached(cfg, start, actions).token
    requires actions != [] && r !in Reached(cfg, start, actions[..|actions| - 1]).token
    ensures TokenCameInAt(cfg, start, actions, r, Reached(cfg, start, actions).token[r].input.arrival.step)
  {
    var front := actions[..|actions| - 1];
    StepsCount(cfg, start, front);
    assert actions[..|front|] == front && actions[..|front| + 1] == actions;
    NewTokenArrival(cfg, Reached(cfg, start, front), actions[|front|], r);
  }

  lemma TokenInputStays(cfg: Config, w: World, a: Action, r: nat)
    requires r in w.token
    ensures r in Exec(cfg, w, a).token && Exec(cfg, w, a).token[r].input == w.token[r].input
  {
    if a.StepToken? && a.request in w.token {
      TokenInputKept(cfg, w.db, w.now, a.fault, w.token[a.request]);
    }
  }

  lemma TokenInputKept(cfg: Config, db: Db, now: int, fault: bool, s: TokenState)
    ensures TokenStep(cfg, db, now, fault, s).1.input == s.input
  {
  }

  lemma NewTokenArrival(cfg: Config, w: World, a: Action, r: nat)
    requires r !in w.token && r in Exec(cfg, w, a).token
    ensures Exec(cfg, w, a).token[r].input.arrival == ArrivalAt(w)
  {
  }

  // What was current when

  lemma TablesGrowByOne(cfg: Config, w: World, a: Action)
    ensures |Exec(cfg, w, a).db.appTables| <= |w.db.appTables| + 1
    ensures |Exec(cfg, w, a).db.history| <= |w.db.history| + 1
  {
    if a.StepAuthorize? && a.request in w.authorize {
      QuietTables(cfg, w.db, w.now, a.fault, w.authorize[a.request]);
    } else if a.StepToken? && a.request in w.token {
      OnlyConsumptionWrites(cfg, w.db, w.now, a.fault, w.token[a.request]);
    }
  }

  lemma QuietTables(cfg: Config, db: Db, now: int, fault: bool, s: AuthorizeState)
    ensures var db' := AuthorizeStep(cfg, db, now, fault, s).0;
            db' == db.(codes := db'.codes)
  {
  }

  lemma LastTableIsCurrent(cfg: Config, start: int, actions: seq<Action>)
    ensures var db := Reached(cfg, start, actions).db;
            db.appTables != [] && db.appTables[|db.appTables| - 1] == db.registry.apps
  {
    ReachedInv(cfg, start, actions);
  }

  lemma LastStep(cfg: Config, start: int, actions: seq<Action>)
    requires actions != []
    ensures var before, after := Reached(cfg, start, actions[..|actions| - 1]).db, Reached(cfg, start, actions).db;
            && before.appTables <= after.appTables && |after.appTables| <= |before.appTables| + 1
            && before.history <= after.history && |after.history| <= |before.history| + 1
  {
    var front, last := actions[..|actions| - 1], actions[|actions| - 1];
    TablesGrowByOne(cfg, Reached(cfg, start, front), last);
    assert front + [last] == actions;
    ReachedExtends(cfg, start, front, [last]);
  }

  /** An application table seen at or after step k was the current one at some state from there on. */
  lemma {:induction false} TableWasCurrent(cfg: Config, start: int, actions: seq<Action>, k: nat, n: nat) returns (j: nat)
    requires k <= |actions|
    requires |Reached(cfg, start, actions[..k]).db.appTables| <= n + 1 <= |Reached(cfg, start, actions).db.appTables|
    ensures k <= j <= |actions|
    ensures Reached(cfg, start, actions[..j]).db.registry.apps == Reached(cfg, start, actions).db.appTables[n]
    decreases |actions|
  {
    if n == |Reached(cfg, start, actions).db.appTables| - 1 {
      j := |actions|;
      assert actions[..j] == actions;
      LastTableIsCurrent(cfg, start, actions);
    } else {
      assert actions[..|actions|] == actions;
      var front := actions[..|actions| - 1];
      assert front[..k] == actions[..k];
      LastStep(cfg, start, actions);
      j := TableWasCurrent(cfg, start, front, k, n);
      assert front[..j] == actions[..j];
    }
  }

  /** A length the session history had at or after step k is its length at some state from there on. */
  lemma {:induction false} HistoryWasCurrent(cfg: Config, start: int, actions: seq<Action>, k: nat, e: nat) returns (j: nat)
    requires k <= |actions|
    requires |Reached(cfg, start, actions[..k]).db.history| <= e <= |Reached(cfg, start, actions).db.history|
    ensures k <= j <= |actions|
    ensures Reached(cfg, start, actions[..j]).db.history == Reached(cfg, start, actions).db.history[..e]
    decreases |actions|
  {
    if e == |Reached(cfg, start, actions).db.history| {
      j := |actions|;
      assert actions[..j] == actions;
    } else {
      assert actions[..|actions|] == actions;
      var front := actions[..|actions| - 1];
      assert front[..k] == actions[..k];
      LastStep(cfg, start, actions);
      j := HistoryWasCurrent(cfg, start, front, k, e);
      assert front[..j] == actions[..j];
    }
  }

  predicate IsGranted(w: World, r: nat) {
    r in w.token && w.token[r].TDone? && w.token[r].outcome.Granted?
  }

  // Single use

  /**
    However a run goes on, a code row keeps everything but `consumed_at`, which
    changes at most once, from null to set.
  */
  lemma ConsumedAtMostOnce(cfg: Config, start: int, first: seq<Action>, more: seq<Action>, c: nat)
    requires c < |Reached(cfg, start, first).db.codes|
    ensures var before, after := Reached(cfg, start, first).db.codes[c], Reached(cfg, start, first + more).db.codes;
            && c < |after|
            && after[c].(consumedAt := before.consumedAt) == before
            && (before.consumedAt.Some? ==> after[c] == before)
  {
    ReachedExtends(cfg, start, first, more);
    assert Evolves(Reached(cfg, start, first).db.codes[c], Reached(cfg, start, first + more).db.codes[c]);
  }

  /** A request that consumed a row consumed the only one its code text can name, and the row says so. */
  lemma SpentOnItsCode(cfg: Config, w: World, r: nat)
    requires Inv(cfg, w) && r in w.token && w.token[r].TDone? && w.token[r].spent.Some?
    ensures var id := w.token[r].spent.value.loaded.id;
            && FindCode(w.db.codes, cfg.sha(w.token[r].input.code)) == Some(id)
            && id in w.uses && w.uses[id].request == r
  {
    assert TokenOk(cfg, w, r, w.token[r]);
    FindCodeIsUnique(cfg, w, cfg.sha(w.token[r].input.code), w.token[r].spent.value.loaded.id);
  }

  lemma GrantedHasSpent(cfg: Config, w: World, r: nat)
    requires Inv(cfg, w) && IsGranted(w, r)
    ensures w.token[r].spent.Some?
  {
    assert TokenOk(cfg, w, r, w.token[r]);
  }

  /** Of all requests that ever present one code text, at most one is answered with a token. */
  lemma OneGrantPerCode(cfg: Config, start: int, actions: seq<Action>, r: nat, q: nat)
    requires var w := Reached(cfg, start, actions);
             IsGranted(w, r) && IsGranted(w, q) && w.token[r].input.code == w.token[q].input.code
    ensures r == q
  {
    var w := Reached(cfg, start, actions);
    ReachedInv(cfg, start, actions);
    GrantedHasSpent(cfg, w, r);
    GrantedHasSpent(cfg, w, q);
    SpentOnItsCode(cfg, w, r);
    SpentOnItsCode(cfg, w, q);
  }

  /** A step of a token request writes the code table only by consuming for itself. */
  lemma OnlyConsumptionWrites(cfg: Config, db: Db, now: int, fault: bool, s: TokenState)
    ensures var (db', s') := TokenStep(cfg, db, now, fault, s);
            && db' == db.(codes := db'.codes)
            && (db'.codes != db.codes ==>
                  && Spent(s) == None && Spent(s').Some?
                  && var u := Spent(s').value;
                     db'.codes == ConsumeRow(db.codes, u.loaded.id, u.asOf, u.stamp)
                     && u.loaded.id < |db.codes| && db.codes[u.loaded.id].consumedAt == None)
            && (Spent(s).Some? ==> Spent(s') == Spent(s))
  {
  }

  /** A request rejected before consuming has consumed nothing: no row carries its mark. */
  lemma RejectedBeforeConsuming(cfg: Config, start: int, actions: seq<Action>, r: nat, c: nat)
    requires var w := Reached(cfg, start, actions);
             r in w.token && Spent(w.token[r]) == None && c in w.uses
    ensures Reached(cfg, start, actions).uses[c].request != r
  {
    ReachedInv(cfg, start, actions);
    assert UsedOk(Reached(cfg, start, actions), c);
  }

  /** A code consumed by a request that was then rejected is dead: nobody is ever granted on it. */
  lemma RejectedAfterConsuming(cfg: Config, start: int, first: seq<Action>, more: seq<Action>, r: nat, q: nat)
    requires var w := Reached(cfg, start, first);
             r in w.token && w.token[r].TDone? && w.token[r].outcome.Rejected? && w.token[r].spent.Some?
    requires IsGranted(Reached(cfg, start, first + more), q)
    ensures Reached(cfg, start, first + more).token[q].input.code != Reached(cfg, start, first).token[r].input.code
  {
    var w, w' := Reached(cfg, start, first), Reached(cfg, start, first + more);
    ReachedExtends(cfg, start, first, more);
    ReachedInv(cfg, start, first + more);
    GrantedHasSpent(cfg, w', q);
    SpentOnItsCode(cfg, w', r);
    SpentOnItsCode(cfg, w', q);
  }

  // Binding

  /** Request `a` issued the code that token request `r` was granted on. */
  ghost predicate TracesTo(cfg: Config, w: World, r: nat, a: nat)
    requires IsGranted(w, r)
  {
    var input, use := w.token[r].input, w.token[r].spent;
    && use.Some?
    && var u := use.value;
       && a in w.authorize && w.authorize[a].ADone? && w.authorize[a].issued.Some?
       && var i := w.authorize[a].issued.value;
          && i.code == u.loaded.id
          && cfg.sha(i.grant.rawCode) == cfg.sha(input.code)
          && SameParty(cfg, input, i.grant)
          && MadeWithLiveSession(cfg, w, i.grant)
          && u.loaded.code.userRow == i.grant.signIn.session.owner
          && input.arrival.at <= u.asOf < i.expiresAt && ExpiryOk(i.grant, i.expiresAt, u.loaded.code.createdAt)
          && i.code < |w.issues| && w.issues[i.code].request == a
          && i.code in w.uses && w.uses[i.code].request == r
          && w.issues[i.code].step < w.uses[i.code].step
  }

  /** The form's client id, or without one the header's. */
  predicate Presents(input: TokenInput, id: string) {
    && id != ""
    && (input.clientId == id || (input.clientId == "" && input.basic.Some? && input.basic.value.clientId == id))
  }

  /** A public client needs none; a confidential one needs its secret, where its method wants it. */
  predicate HasCredentials(sha: Digest, input: TokenInput, c: Client) {
    || c.clientType == "public"
    || (&& c.clientType == "confidential" && c.tokenEndpointAuthMethod == "client_secret_basic"
        && input.basic.Some? && input.basic.value.clientId == c.clientId
        && input.basic.value.secret != "" && sha(input.basic.value.secret) == c.secretHash)
    || (&& c.clientType == "confidential" && c.tokenEndpointAuthMethod == "client_secret_post"
        && Presents(input, c.clientId)
        && input.clientSecret != "" && sha(input.clientSecret) == c.secretHash)
  }

  lemma AuthenticatedExactly(cfg: Config, input: TokenInput, c: Client)
    requires Registration.HasCredential(c) && c.clientId != ""
    ensures Authenticated(cfg, input, c) <==> HasCredentials(cfg.sha, input, c)
  {
  }

  /** Same client, authenticated; same redirect URI; the verifier of the challenge. */
  ghost predicate SameParty(cfg: Config, input: TokenInput, g: Grant) {
    && Presents(input, g.clientRow.clientId) && g.clientRow.clientId == g.input.req.clientId
    && HasCredentials(cfg.sha, input, g.clientRow)
    && g.input.req.redirectURI == input.redirectURI
    && g.input.req.codeChallenge == Oauth.PKCEChallenge(cfg.sha, input.codeVerifier)
    && 43 <= Text.ByteLen(input.codeVerifier) <= 128
  }

  /** The session was live when it was read and checked, after the request came in, and it is the stored user's. */
  ghost predicate MadeWithLiveSession(cfg: Config, w: World, g: Grant) {
    && g.input.arrival.events <= g.signIn.events <= |w.db.history|
    && g.input.arrival.at <= g.signIn.at
    && g.input.cookie == Some(g.signIn.cookie)
    && g.signIn.session.owner < |w.db.users|
    && exists i: nat ::
         && Sessions.LiveAt(cfg.sha, w.db.history[..g.signIn.events], i, g.signIn.cookie, g.signIn.at)
         && w.db.history[i].owner == g.signIn.session.owner
  }

  lemma GrantHasLiveSession(cfg: Config, w: World, g: Grant)
    requires GrantOk(cfg, w, g)
    ensures MadeWithLiveSession(cfg, w, g)
  {
    var h := w.db.history[..g.signIn.events];
    var i: nat :| ReadFrom(cfg, h, i, g.signIn.cookie, g.signIn.session);
    assert Sessions.LiveAt(cfg.sha, h, i, g.signIn.cookie, g.signIn.at);
    assert w.db.history[i] == h[i];
  }

  /**
    Every granted token traces back to one earlier authorization request: for the
    same client and redirect URI, made with a session of the stored user that was
    live after the request came in, whose challenge is the S256 of the presented
    verifier. The update's condition was evaluated for a reading made since the token
    request came in, strictly before `expiresAt`, which is 60 seconds after a reading
    of the authorization request.
  */
  lemma GrantIsBound(cfg: Config, start: int, actions: seq<Action>, r: nat)
    requires IsGranted(Reached(cfg, start, actions), r)
    ensures exists a: nat, k: nat :: TracesTo(cfg, Reached(cfg, start, actions), r, a) && CameInAt(cfg, start, actions, a, k)
    ensures exists j: nat :: TokenCameInAt(cfg, start, actions, r, j)
  {
    ReachedInv(cfg, start, actions);
    var a := GrantTraces(cfg, Reached(cfg, start, actions), r);
    ArrivalIsReal(cfg, start, actions, a);
    TokenArrivalIsReal(cfg, start, actions, r);
  }

  /** A token request that is not there yet comes in later, at a clock that has not gone back. */
  lemma TokenCameInAfter(cfg: Config, start: int, first: seq<Action>, more: seq<Action>, r: nat)
    requires r !in Reached(cfg, start, first).token && r in Reached(cfg, start, first + more).token
    ensures Reached(cfg, start, first).now <= Reached(cfg, start, first + more).token[r].input.arrival.at
  {
    var actions := first + more;
    var k := Reached(cfg, start, actions).token[r].input.arrival.step;
    TokenArrivalIsReal(cfg, start, actions, r);
    assert actions[..|first|] == first;
    if k < |first| {
      RequestsStay(cfg, start, actions, k + 1, |first|);
    } else {
      RequestsStay(cfg, start, actions, |first|, k);
    }
  }

  /** Whoever spends a code does so for a reading before its expiry and after the request came in. */
  lemma SpentInTime(cfg: Config, w: World, r: nat, c: nat)
    requires Inv(cfg, w) && r in w.token && Spent(w.token[r]).Some?
    requires c < |w.db.codes| && w.db.codes[c].codeHash == cfg.sha(w.token[r].input.code)
    ensures Spent(w.token[r]).value.loaded.id == c
    ensures w.token[r].input.arrival.at < w.db.codes[c].expiresAt
  {
    assert TokenOk(cfg, w, r, w.token[r]);
    var u := Spent(w.token[r]).value;
    FindCodeIsUnique(cfg, w, cfg.sha(w.token[r].input.code), u.loaded.id);
    FindCodeIsUnique(cfg, w, cfg.sha(w.token[r].input.code), c);
    assert Evolves(u.loaded.code, w.db.codes[u.loaded.id]);
  }

  /** A token request that comes in at or after the expiry of the code it presents consumes nothing and is never granted. */
  lemma ExpiredCodesAreRefused(cfg: Config, start: int, first: seq<Action>, more: seq<Action>, r: nat, c: nat)
    requires r !in Reached(cfg, start, first).token
    requires var w := Reached(cfg, start, first + more);
             && r in w.token && c < |w.db.codes| && w.db.codes[c].codeHash == cfg.sha(w.token[r].input.code)
             && w.db.codes[c].expiresAt <= Reached(cfg, start, first).now
    ensures var w := Reached(cfg, start, first + more);
            !IsGranted(w, r) && forall d <- w.uses :: w.uses[d].request != r
  {
    var w := Reached(cfg, start, first + more);
    ReachedInv(cfg, start, first + more);
    TokenCameInAfter(cfg, start, first, more, r);
    if Spent(w.token[r]).Some? {
      SpentInTime(cfg, w, r, c);
    }
    if IsGranted(w, r) {
      GrantedHasSpent(cfg, w, r);
    }
    forall d <- w.uses ensures w.uses[d].request != r {
      RejectedBeforeConsuming(cfg, start, first + more, r, d);
    }
  }

  lemma GrantTraces(cfg: Config, w: World, r: nat) returns (a: nat)
    requires Inv(cfg, w) && IsGranted(w, r)
    ensures TracesTo(cfg, w, r, a)
  {
    assert TokenOk(cfg, w, r, w.token[r]);
    var input, u := w.token[r].input, w.token[r].spent.value;
    var c := u.loaded.id;
    assert IssueOk(cfg, w, c) && UsedOk(w, c);
    a := w.issues[c].request;
    var i := w.authorize[a].issued.value;
    assert AuthorizeOk(cfg, w, a, w.authorize[a]);
    GrantHasLiveSession(cfg, w, i.grant);
    LoadedIsIssued(cfg, w, u, i);
    PartiesAgree(cfg, w, input, u, i.grant);
  }

  /** The token request that proved itself for a code of this grant is of the grant's client. */
  lemma PartiesAgree(cfg: Config, w: World, input: TokenInput, u: Use, g: Grant)
    requires DbOk(cfg, w) && LoadedOk(cfg, w, input, u.loaded) && Proved(cfg, input, u)
    requires ClientReadOk(cfg, w, g.input.req, g.client, g.clientRow) && u.loaded.client == g.client
    requires u.loaded.code.redirectURI == g.input.req.redirectURI
    requires u.loaded.code.codeChallenge == g.input.req.codeChallenge
    requires u.loaded.code.codeChallengeMethod == g.input.req.codeChallengeMethod
    ensures SameParty(cfg, input, g)
  {
    Oauth.ValidatesExactly(g.input.req);
    Oauth.VerifyPKCEExact(cfg.sha, u.loaded.code.codeChallenge, input.codeVerifier);
    assert Registration.ClientOk(cfg.parse, w.db.registry, w.db.registry.clients[g.client]);
    AuthenticatedExactly(cfg, input, g.clientRow);
  }

  /**
    In terms of the run: request a came in at state k, and at a state j from there
    on the session of its cookie was live for a clock reading made since k.
  */
  lemma CodesNeedALiveSession(cfg: Config, start: int, actions: seq<Action>, a: nat) returns (k: nat, j: nat, i: nat)
    requires var w := Reached(cfg, start, actions);
             a in w.authorize && w.authorize[a].ADone? && w.authorize[a].issued.Some?
    ensures var signIn := Reached(cfg, start, actions).authorize[a].issued.value.grant.signIn;
            && CameInAt(cfg, start, actions, a, k) && k <= j <= |actions|
            && Reached(cfg, start, actions).authorize[a].input.cookie == Some(signIn.cookie)
            && Sessions.LiveAt(cfg.sha, Reached(cfg, start, actions[..j]).db.history, i, signIn.cookie, signIn.at)
            && Reached(cfg, start, actions[..j]).db.history[i].owner == signIn.session.owner
            && Reached(cfg, start, actions[..k]).now <= signIn.at
  {
    var w := Reached(cfg, start, actions);
    ReachedInv(cfg, start, actions);
    assert AuthorizeOk(cfg, w, a, w.authorize[a]);
    var g := w.authorize[a].issued.value.grant;
    GrantHasLiveSession(cfg, w, g);
    i :| Sessions.LiveAt(cfg.sha, w.db.history[..g.signIn.events], i, g.signIn.cookie, g.signIn.at)
         && w.db.history[i].owner == g.signIn.session.owner;
    k := w.authorize[a].input.arrival.step;
    ArrivalIsReal(cfg, start, actions, a);
    j := HistoryWasCurrent(cfg, start, actions, k, g.signIn.events);
  }

  lemma RequestsStay(cfg: Config, start: int, actions: seq<Action>, m: nat, n: nat)
    requires m <= n <= |actions|
    ensures Extends(Reached(cfg, start, actions[..m]), Reached(cfg, start, actions[..n]))
  {
    ReachedExtends(cfg, start, actions[..m], actions[m..n]);
    assert actions[..m] + actions[m..n] == actions[..n];
  }

  /** A request that is not there yet comes in later. */
  lemma CameInAfter(cfg: Config, start: int, first: seq<Action>, more: seq<Action>, a: nat, k: nat)
    requires a !in Reached(cfg, start, first).authorize && CameInAt(cfg, start, first + more, a, k)
    ensures |first| <= k
  {
    assert (first + more)[..|first|] == first;
    if k + 1 <= |first| {
      RequestsStay(cfg, start, first + more, k + 1, |first|);
    }
  }

  lemma StillDead(sha: Digest, h: seq<Sessions.Event>, g: seq<Sessions.Event>, now: int, i: nat, cookie: string, at: int)
    requires h <= g && now <= at
    requires i < |h| && h[i].Created? && (Sessions.RevokedSince(h, i) || h[i].at + h[i].ttl < now)
    ensures !Sessions.LiveAt(sha, g, i, cookie, at)
  {
    if Sessions.RevokedSince(h, i) {
      Sessions.RevokedSincePrefix(h, g, i);
    }
  }

  /** A request whose cookie has, from its arrival on, only revoked or expired sessions gets no code. */
  lemma DeadSessionsGetNoCode(cfg: Config, start: int, first: seq<Action>, more: seq<Action>, a: nat, cookie: string)
    requires a !in Reached(cfg, start, first).authorize
    requires var w := Reached(cfg, start, first + more);
             a in w.authorize && InputOf(w.authorize[a]).cookie == Some(cookie)
    requires var h, h' := Reached(cfg, start, first).db.history, Reached(cfg, start, first + more).db.history;
             forall i: nat :: i < |h'| && h'[i].Created? && cfg.sha(h'[i].token) == cfg.sha(cookie) ==>
               i < |h| && h[i].Created? && (Sessions.RevokedSince(h, i) || h[i].at + h[i].ttl < Reached(cfg, start, first).now)
    ensures var s := Reached(cfg, start, first + more).authorize[a];
            !(s.ADone? && s.issued.Some?)
  {
    var actions := first + more;
    var s := Reached(cfg, start, actions).authorize[a];
    if s.ADone? && s.issued.Some? {
      var k, j, i := CodesNeedALiveSession(cfg, start, actions, a);
      CameInAfter(cfg, start, first, more, a, k);
      assert actions[..|first|] == first && actions[..|actions|] == actions;
      RequestsStay(cfg, start, actions, |first|, k);
      RequestsStay(cfg, start, actions, |first|, j);
      RequestsStay(cfg, start, actions, j, |actions|);
      var h, g := Reached(cfg, start, first).db.history, Reached(cfg, start, actions[..j]).db.history;
      assert g[i] == Reached(cfg, start, actions).db.history[i];
      StillDead(cfg.sha, h, g, Reached(cfg, start, first).now, i, cookie, s.issued.value.grant.signIn.at);
    }
  }

  /** There is only one such request, and with a collision-free digest it handed out this very code. */
  lemma OneOrigin(cfg: Config, start: int, actions: seq<Action>, r: nat, a: nat, b: nat)
    requires var w := Reached(cfg, start, actions);
             IsGranted(w, r) && TracesTo(cfg, w, r, a) && TracesTo(cfg, w, r, b)
    ensures a == b
    ensures CollisionFree(cfg.sha) ==>
              var w := Reached(cfg, start, actions);
              && w.authorize[a].issued.value.grant.rawCode == w.token[r].input.code
              && w.authorize[a].outcome == RedirectCode(w.token[r].input.redirectURI, w.token[r].input.code,
                                                        w.authorize[a].input.req.state)
  {
    var w := Reached(cfg, start, actions);
    ReachedInv(cfg, start, actions);
    assert AuthorizeOk(cfg, w, a, w.authorize[a]);
  }

  /**
    Every code expires 60 seconds after a reading that its own request made between
    the check of its session and the insertion.
  */
  lemma ExpiryIsSixtySeconds(cfg: Config, start: int, actions: seq<Action>, c: nat)
    requires c < |Reached(cfg, start, actions).db.codes|
    ensures var w := Reached(cfg, start, actions);
            exists a :: a in w.authorize && w.authorize[a].ADone? && w.authorize[a].issued.Some?
                        && var i := w.authorize[a].issued.value;
                           i.code == c && w.db.codes[c].codeHash == cfg.sha(i.grant.rawCode)
                           && i.grant.input.arrival.at <= i.grant.signIn.at
                              <= w.db.codes[c].expiresAt - 60 * SECOND <= w.db.codes[c].createdAt <= w.now
  {
    var w := Reached(cfg, start, actions);
    ReachedInv(cfg, start, actions);
    assert IssueOk(cfg, w, c);
    var a := w.issues[c].request;
    assert AuthorizeOk(cfg, w, a, w.authorize[a]);
  }

  // ID tokens

  /**
    An ID token is issued exactly when `openid` was requested. It carries the
    non-empty nonce of the request, the stored user's subject and the exchanging
    client's id; an address only if `email` was requested, and then the user's. It
    lives as long as the answer says, or up to a second longer.
  */
  lemma IdTokenContent(cfg: Config, start: int, actions: seq<Action>, r: nat, a: nat)
    requires IsGranted(Reached(cfg, start, actions), r) && TracesTo(cfg, Reached(cfg, start, actions), r, a)
    ensures var w := Reached(cfg, start, actions);
            var req, owner := w.authorize[a].input.req, w.authorize[a].issued.value.grant.signIn.session.owner;
            var token, c := w.token[r].outcome.response.idToken, w.authorize[a].issued.value.code;
            && c < |w.db.codes|
            && w.token[r].outcome.response.expiresIn == (if cfg.idTokenTtl <= 0 then 600 else cfg.idTokenTtl / SECOND)
            && (token.Some? <==> "openid" in Text.Fields(req.scope))
            && (token.Some? ==>
                  && token.value.nonce == req.nonce != ""
                  && token.value.sub == w.db.users[owner].subject
                  && Presents(w.token[r].input, token.value.aud)
                  && token.value.email == (if "email" in Text.Fields(req.scope) then w.db.users[owner].email else "")
                  && token.value.iss == cfg.issuer
                  && w.db.codes[c].consumedAt.Some? && token.value.authTime == Unix(w.db.codes[c].createdAt)
                  && token.value.authTime <= Unix(w.db.codes[c].consumedAt.value) <= token.value.iat <= Unix(w.now)
                  && (token.value.exp - token.value.iat == w.token[r].outcome.response.expiresIn
                      || token.value.exp - token.value.iat == w.token[r].outcome.response.expiresIn + 1))
  {
    var w := Reached(cfg, start, actions);
    ReachedInv(cfg, start, actions);
    GrantedFromIssue(cfg, w, r, a);
    var u, i := w.token[r].spent.value, w.authorize[a].issued.value;
    if WantsIdToken(u.loaded.code) {
      var now :| w.token[r].outcome.response.idToken.value
                 == IssueClaims(cfg, now, u.loaded, w.db.users[u.loaded.code.userRow]) && u.stamp <= now <= w.now;
      ClaimsOf(cfg, now, u.loaded, w.db.users[u.loaded.code.userRow], i.grant.input.req);
      UnixMonotone(u.loaded.code.createdAt, u.stamp);
      UnixMonotone(u.stamp, now);
      UnixMonotone(now, w.now);
    }
  }

  lemma GrantedFromIssue(cfg: Config, w: World, r: nat, a: nat)
    requires Inv(cfg, w) && IsGranted(w, r) && TracesTo(cfg, w, r, a)
    ensures var u, i := w.token[r].spent.value, w.authorize[a].issued.value;
            && i.grant.input == w.authorize[a].input && i.grant.input.req.Validate() == None
            && u.loaded.code.scope == i.grant.input.req.scope
            && u.loaded.code.nonce == (if i.grant.input.req.nonce != "" then Some(i.grant.input.req.nonce) else None)
            && i.code < |w.db.codes| && w.db.codes[i.code].consumedAt == Some(u.stamp)
            && u.loaded.code.createdAt == w.db.codes[i.code].createdAt <= u.stamp
            && Presents(w.token[r].input, u.loaded.clientRow.clientId)
            && ResponseOk(cfg, w, u, w.token[r].outcome.response)
  {
    assert TokenOk(cfg, w, r, w.token[r]) && AuthorizeOk(cfg, w, a, w.authorize[a]);
    var u, i := w.token[r].spent.value, w.authorize[a].issued.value;
    assert IssueOk(cfg, w, i.code);
    LoadedIsIssued(cfg, w, u, i);
    assert i.grant.clientRow.clientId != "";
  }

  lemma ClaimsOf(cfg: Config, now: int, l: Loaded, user: User, req: Oauth.AuthorizeRequest)
    requires l.code.scope == req.scope && l.code.nonce == (if req.nonce != "" then Some(req.nonce) else None)
    requires req.HasScope("openid") && req.Validate() == None && l.code.createdAt <= now
    ensures var claims := IssueClaims(cfg, now, l, user);
            && claims.nonce == req.nonce != "" && claims.sub == user.subject && claims.aud == l.clientRow.clientId
            && claims.email == (if req.HasScope("email") then user.email else "")
            && claims.iss == cfg.issuer && claims.authTime == Unix(l.code.createdAt) <= claims.iat == Unix(now)
            && (claims.exp - claims.iat == ExpiresIn(cfg) || claims.exp - claims.iat == ExpiresIn(cfg) + 1)
  {
    UnixMonotone(l.code.createdAt, now);
    UnixOfSum(now, TokenLifetime(cfg.idTokenTtl));
  }

  lemma UnixOfSum(s: int, t: int)
    ensures Unix(s + t) - Unix(s) == t / SECOND || Unix(s + t) - Unix(s) == t / SECOND + 1
  {
  }

  /** The row a token request loaded carries what the code was issued for. */
  lemma LoadedIsIssued(cfg: Config, w: World, u: Use, i: IssuedCode)
    requires i.code == u.loaded.id < |w.db.codes|
    requires Evolves(CodeRow(cfg, i.grant, i.expiresAt, w.db.codes[i.code].createdAt), w.db.codes[i.code])
    requires Evolves(u.loaded.code, w.db.codes[i.code])
    ensures var req, code := i.grant.input.req, u.loaded.code;
            && code.scope == req.scope && code.redirectURI == req.redirectURI
            && code.nonce == (if req.nonce != "" then Some(req.nonce) else None)
            && code.userRow == i.grant.signIn.session.owner && code.expiresAt == i.expiresAt
            && code.codeChallenge == req.codeChallenge && code.codeChallengeMethod == req.codeChallengeMethod
            && code.codeHash == cfg.sha(i.grant.rawCode) && code.clientRow == i.grant.client
  {
  }

  lemma UnixMonotone(s: int, t: int)
    requires s <= t
    ensures Unix(s) <= Unix(t)
  {
  }

  /** The state in which code c was inserted. */
  lemma {:induction false} InsertedAt(cfg: Config, start: int, actions: seq<Action>, c: nat)
    requires c < |Reached(cfg, start, actions).db.codes| && c < |Reached(cfg, start, actions).issues|
    ensures var w := Reached(cfg, start, actions);
            var m := w.issues[c];
            && m.step < |actions|
            && var u := Reached(cfg, start, actions[..m.step]);
               && |u.db.codes| == c && m.request in u.authorize && u.authorize[m.request].AInsert?
               && m.request in w.authorize && w.authorize[m.request].ADone? && w.authorize[m.request].issued.Some?
               && w.authorize[m.request].issued.value.grant == u.authorize[m.request].grant
  {
    var front, last := actions[..|actions| - 1], actions[|actions| - 1];
    CodesStay(cfg, start, actions, c);
    if c < |Reached(cfg, start, front).db.codes| {
      InsertedAt(cfg, start, front, c);
      assert actions[..Reached(cfg, start, front).issues[c].step] == front[..Reached(cfg, start, front).issues[c].step];
    } else {
      StepsCount(cfg, start, front);
      assert actions[..|front|] == front;
      NewCode(cfg, Reached(cfg, start, front), last);
    }
  }

  /** The marks of the codes that were there before the last step, and the requests that were done. */
  lemma CodesStay(cfg: Config, start: int, actions: seq<Action>, c: nat)
    requires c < |Reached(cfg, start, actions).db.codes|
    ensures actions != []
    ensures var u, w := Reached(cfg, start, actions[..|actions| - 1]), Reached(cfg, start, actions);
            && |u.issues| == |u.db.codes| && u.issues <= w.issues
            && (forall r :: r in u.authorize && u.authorize[r].ADone? ==> r in w.authorize && w.authorize[r] == u.authorize[r])
  {
    var front, last := actions[..|actions| - 1], actions[|actions| - 1];
    ReachedInv(cfg, start, front);
    assert front + [last] == actions;
    ReachedExtends(cfg, start, front, [last]);
  }

  lemma NewCode(cfg: Config, w: World, a: Action)
    requires |w.issues| == |w.db.codes| < |Exec(cfg, w, a).db.codes|
    ensures var w' := Exec(cfg, w, a);
            && a.StepAuthorize? && a.request in w.authorize && w.authorize[a.request].AInsert?
            && |w'.db.codes| == |w.db.codes| + 1 && w'.issues == w.issues + [Mark(a.request, w.step)]
            && w'.authorize[a.request].ADone? && w'.authorize[a.request].issued.Some?
            && w'.authorize[a.request].issued.value.grant == w.authorize[a.request].grant
  {
    if a.StepToken? && a.request in w.token {
      OnlyConsumptionWrites(cfg, w.db, w.now, a.fault, w.token[a.request]);
    }
  }

  /**
    Every scope of a stored code is supported. And between the state k at which its
    request came in and its insertion there was a state j in which the client's
    application, as it then was, allowed all of them.
  */
  lemma StoredScopesWereAllowed(cfg: Config, start: int, actions: seq<Action>, c: nat) returns (k: nat, j: nat)
    requires c < |Reached(cfg, start, actions).db.codes|
    ensures forall scope <- Text.Fields(Reached(cfg, start, actions).db.codes[c].scope) ::
              scope == "openid" || scope == "profile" || scope == "email"
    ensures var w := Reached(cfg, start, actions);
            && c < |w.issues| && CameInAt(cfg, start, actions, w.issues[c].request, k)
            && k <= j <= w.issues[c].step < |actions|
            && w.db.codes[c].clientRow < |w.db.registry.clients|
            && var id, apps := w.db.registry.clients[w.db.codes[c].clientRow].applicationId,
                               Reached(cfg, start, actions[..j]).db.registry.apps;
               id < |apps| && Oauth.ValidateRequestedScopes(apps[id], w.db.codes[c].scope)
  {
    IssuedInRun(cfg, start, actions, c);
    InsertedAt(cfg, start, actions, c);
    var m := Reached(cfg, start, actions).issues[c];
    var before := actions[..m.step];
    k, j := AllowedSinceArrival(cfg, start, before, m.request);
    ArrivalIsReal(cfg, start, actions, m.request);
    assert before[..k] == actions[..k] && before[..j] == actions[..j];
  }

  lemma IssuedInRun(cfg: Config, start: int, actions: seq<Action>, c: nat)
    requires c < |Reached(cfg, start, actions).db.codes|
    ensures var w := Reached(cfg, start, actions);
            c < |w.issues| && IssueOk(cfg, w, c) && IssuedFor(w, c, w.authorize[w.issues[c].request])
  {
    ReachedInv(cfg, start, actions);
    IssuedForClient(cfg, Reached(cfg, start, actions), c);
  }

  /** A stored code is for the scopes of its request and for a client of its application. */
  predicate IssuedFor(w: World, c: nat, s: AuthorizeState)
    requires c < |w.db.codes| && s.ADone? && s.issued.Some?
  {
    var g := s.issued.value.grant;
    && s.input == g.input
    && w.db.codes[c].scope == g.input.req.scope && w.db.codes[c].clientRow == g.client < |w.db.registry.clients|
    && w.db.registry.clients[g.client].applicationId == g.clientRow.applicationId
  }

  lemma IssuedForClient(cfg: Config, w: World, c: nat)
    requires Inv(cfg, w) && c < |w.db.codes| && IssueOk(cfg, w, c)
    ensures IssuedFor(w, c, w.authorize[w.issues[c].request])
  {
    assert AuthorizeOk(cfg, w, w.issues[c].request, w.authorize[w.issues[c].request]);
  }

  /** A table from which a request was admitted allows its scopes, all supported. */
  lemma AdmittedTable(cfg: Config, w: World, input: AuthorizeInput, a: Admitted) returns (n: nat)
    requires DbOk(cfg, w) && AdmittedOk(cfg, w, input, a)
    ensures AppReadOk(w, input.arrival, a.clientRow.applicationId, a.app, n)
    ensures forall scope <- Text.Fields(input.req.scope) :: Oauth.IsSupportedScope(scope) && scope in a.app.allowedScopes
  {
    n :| AppReadOk(w, input.arrival, a.clientRow.applicationId, a.app, n);
    assert w.db.appTables[n] in w.db.appTables && a.app in w.db.appTables[n];
  }

  /** Up to its insertion, a request's application allowed its scopes at some state since it came in. */
  lemma AllowedSinceArrival(cfg: Config, start: int, actions: seq<Action>, r: nat) returns (k: nat, j: nat)
    requires var w := Reached(cfg, start, actions);
             r in w.authorize && w.authorize[r].AInsert?
    ensures k <= j <= |actions| && CameInAt(cfg, start, actions, r, k)
    ensures var g := Reached(cfg, start, actions).authorize[r].grant;
            var id, apps := g.clientRow.applicationId, Reached(cfg, start, actions[..j]).db.registry.apps;
            && k == g.input.arrival.step && id < |apps| && Oauth.ValidateRequestedScopes(apps[id], g.input.req.scope)
            && forall scope <- Text.Fields(g.input.req.scope) :: Oauth.IsSupportedScope(scope)
  {
    var w := Reached(cfg, start, actions);
    ReachedInv(cfg, start, actions);
    assert AuthorizeOk(cfg, w, r, w.authorize[r]);
    var g := w.authorize[r].grant;
    var n := AdmittedTable(cfg, w, g.input, Admitted(g.client, g.clientRow, g.app));
    k := g.input.arrival.step;
    ArrivalIsReal(cfg, start, actions, r);
    j := TableWasCurrent(cfg, start, actions, k, n);
  }

  // Requests

  /** Whoever got a code or was shown the prompt had asked properly, in every part. */
  lemma AdmittedRequestsAreProper(cfg: Config, start: int, actions: seq<Action>, r: nat)
    requires var w := Reached(cfg, start, actions);
             r in w.authorize && w.authorize[r].ADone? && (w.authorize[r].outcome.RedirectCode? || w.authorize[r].outcome.Prompt?)
    ensures var req := Reached(cfg, start, actions).authorize[r].input.req;
            && req.responseType == "code"
            && req.codeChallengeMethod == "S256" && 43 <= Text.ByteLen(req.codeChallenge) <= 128
            && req.state != ""
            && ("openid" in Text.Fields(req.scope) ==> req.nonce != "")
  {
    ReachedInv(cfg, start, actions);
    var w := Reached(cfg, start, actions);
    assert AuthorizeOk(cfg, w, r, w.authorize[r]);
    Oauth.ValidatesExactly(w.authorize[r].input.req);
  }

  /** So had the request of every stored code, whose row carries its challenge and nonce. */
  lemma StoredCodesAreProper(cfg: Config, start: int, actions: seq<Action>, c: nat)
    requires c < |Reached(cfg, start, actions).db.codes|
    ensures var w := Reached(cfg, start, actions);
            var code := w.db.codes[c];
            && c < |w.issues| && w.issues[c].request in w.authorize
            && var req := InputOf(w.authorize[w.issues[c].request]).req;
               && req.responseType == "code" && req.state != ""
               && code.codeChallenge == req.codeChallenge && code.codeChallengeMethod == req.codeChallengeMethod == "S256"
               && 43 <= Text.ByteLen(code.codeChallenge) <= 128
               && code.scope == req.scope && code.nonce == (if req.nonce != "" then Some(req.nonce) else None)
               && ("openid" in Text.Fields(code.scope) ==> code.nonce.Some?)
  {
    EveryCodeWasDelivered(cfg, start, actions, c);
    var w := Reached(cfg, start, actions);
    AdmittedRequestsAreProper(cfg, start, actions, w.issues[c].request);
    StoredAsAsked(cfg, start, actions, c);
  }

  lemma StoredAsAsked(cfg: Config, start: int, actions: seq<Action>, c: nat)
    requires c < |Reached(cfg, start, actions).db.codes|
    ensures var w := Reached(cfg, start, actions);
            && c < |w.issues| && w.issues[c].request in w.authorize && w.authorize[w.issues[c].request].ADone?
            && var code, req := w.db.codes[c], w.authorize[w.issues[c].request].input.req;
               && code.codeChallenge == req.codeChallenge && code.codeChallengeMethod == req.codeChallengeMethod
               && code.scope == req.scope && code.nonce == (if req.nonce != "" then Some(req.nonce) else None)
               && code.userRow < |w.db.users|
  {
    ReachedInv(cfg, start, actions);
    var w := Reached(cfg, start, actions);
    assert IssueOk(cfg, w, c);
    assert AuthorizeOk(cfg, w, w.issues[c].request, w.authorize[w.issues[c].request]);
  }

  // Redirects

  /**
    Every redirect goes to a URI that is registered for the named client and parses,
    absolute and without a fragment, over https or to the machine itself.
  */
  lemma RedirectsAreRegistered(cfg: Config, start: int, actions: seq<Action>, r: nat)
    requires var w := Reached(cfg, start, actions);
             r in w.authorize && w.authorize[r].ADone?
             && (w.authorize[r].outcome.RedirectCode? || w.authorize[r].outcome.RedirectError?)
    ensures var w := Reached(cfg, start, actions);
            var to := w.authorize[r].outcome.to;
            && to == w.authorize[r].input.req.redirectURI
            && (exists c <- w.db.registry.clients ::
                  c.clientId == w.authorize[r].input.req.clientId && to in c.redirectURIs)
            && cfg.parse(to).Some? && Oauth.IsSafeTarget(to, cfg.parse(to).value)
  {
    var w := Reached(cfg, start, actions);
    ReachedInv(cfg, start, actions);
    assert AuthorizeOk(cfg, w, r, w.authorize[r]);
    var req, to := w.authorize[r].input.req, w.authorize[r].outcome.to;
    if w.authorize[r].outcome.RedirectCode? {
      assert RedirectOk(w, req, to) by {
        var g := w.authorize[r].issued.value.grant;
        assert w.db.registry.clients[g.client].clientId == req.clientId;
      }
    }
    var c :| 0 <= c < |w.db.registry.clients| && w.db.registry.clients[c].clientId == req.clientId
             && to in w.db.registry.clients[c].redirectURIs;
    assert w.db.registry.clients[c] in w.db.registry.clients;
    assert Registration.ClientOk(cfg.parse, w.db.registry, w.db.registry.clients[c]);
  }

  /** The exits for a redirect URI that does not parse are never taken once the URI was found registered. */
  lemma ParseExitsUnreachable(cfg: Config, start: int, actions: seq<Action>, r: nat, error: Oauth.ErrorCode)
    requires var w := Reached(cfg, start, actions);
             r in w.authorize && (w.authorize[r].AClientRead? || w.authorize[r].AReady? || w.authorize[r].AInsert?)
    ensures var s := Reached(cfg, start, actions).authorize[r];
            var input := if s.AClientRead? then s.input else s.grant.input;
            RedirectOrPage(cfg, input, error)
            == ADone(input, RedirectError(input.req.redirectURI, error, input.req.state), None)
  {
    var w := Reached(cfg, start, actions);
    ReachedInv(cfg, start, actions);
    var s := w.authorize[r];
    assert AuthorizeOk(cfg, w, r, s);
    var client := if s.AClientRead? then s.client else s.grant.client;
    var input := if s.AClientRead? then s.input else s.grant.input;
    ParsesRegistered(cfg, w, client, input.req.redirectURI);
  }

  /** Nor when the request itself is refused: the error goes to the registered URI. */
  lemma RefusedRequestsAreRedirected(cfg: Config, start: int, actions: seq<Action>, r: nat, c: nat)
    requires var w := Reached(cfg, start, actions);
             && r in w.authorize && w.authorize[r].AHandler? && c < |w.db.registry.clients|
             && var req := w.authorize[r].input.req;
                && req.clientId == w.db.registry.clients[c].clientId != ""
                && req.redirectURI in w.db.registry.clients[c].redirectURIs && req.redirectURI != ""
    ensures var w := Reached(cfg, start, actions);
            var s := w.authorize[r];
            var req, next := s.input.req, LookUpClient(cfg, w.db, false, s.input, s.signIn);
            var error := if req.responseType != "code" then Oauth.UnsupportedResponseType else Oauth.InvalidRequest;
            if Oauth.IsProper(req) then next == AClientRead(s.input, s.signIn, c, w.db.registry.clients[c])
            else next == ADone(s.input, RedirectError(req.redirectURI, error, req.state), None)
  {
    var w := Reached(cfg, start, actions);
    ReachedInv(cfg, start, actions);
    var req := w.authorize[r].input.req;
    OneClientPerId(cfg, w, c);
    ParsesRegistered(cfg, w, c, req.redirectURI);
    Oauth.ValidatesExactly(req);
  }

  lemma OneClientPerId(cfg: Config, w: World, c: nat)
    requires DbOk(cfg, w) && c < |w.db.registry.clients|
    ensures Registration.FindClient(w.db.registry.clients, w.db.registry.clients[c].clientId) == Some(c)
  {
  }

  /** No stored code is stranded: the request that inserted it redirected with it. */
  lemma EveryCodeWasDelivered(cfg: Config, start: int, actions: seq<Action>, c: nat)
    requires c < |Reached(cfg, start, actions).db.codes|
    ensures var w := Reached(cfg, start, actions);
            && c < |w.issues|
            && var a := w.issues[c].request;
               && a in w.authorize && w.authorize[a].ADone? && w.authorize[a].outcome.RedirectCode?
               && w.authorize[a].issued.Some? && w.authorize[a].issued.value.code == c
               && cfg.sha(w.authorize[a].outcome.code) == w.db.codes[c].codeHash
               && w.authorize[a].outcome.to == w.db.codes[c].redirectURI
  {
    var w := Reached(cfg, start, actions);
    ReachedInv(cfg, start, actions);
    assert IssueOk(cfg, w, c);
    var a := w.issues[c].request;
    assert AuthorizeOk(cfg, w, a, w.authorize[a]);
  }
}
