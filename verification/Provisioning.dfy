/**
  Provisioning of local users from upstream identities. `ProvisionUser` reads,
  decides and writes in separate statements; many runs of it interleave over
  two tables that only their unique constraints protect.
*/
module Provisioning {
  import opened Prelude
  import opened Models
  import opened Upstream
  import Base64
  import Text

  /** A row of `user_identities`; `user` refers to a row of `users`. */
  datatype IdentityRow = IdentityRow(
    user: nat, provider: string, subject: string, email: string, emailVerified: bool, name: string)

  /** Both tables. Nothing is deleted, so a row's id is its index. */
  datatype Accounts = Accounts(users: seq<User>, identities: seq<IdentityRow>)

  // Addresses

  const RESERVED_DOMAIN := "@users.centrauth.invalid"

  function SafeChar(c: char): char {
    if 'a' <= c <= 'z' || 'A' <= c <= 'Z' || '0' <= c <= '9' || c == '-' || c == '_' then c else '-'
  }

  function Sanitise(s: string): (t: string)
    ensures |t| == |s| && forall i :: 0 <= i < |s| ==> t[i] == SafeChar(s[i])
  {
    seq(|s|, i requires 0 <= i < |s| => SafeChar(s[i]))
  }

  function SyntheticEmail(provider: string, subject: string): string {
    provider + "-" + Sanitise(subject) + RESERVED_DOMAIN
  }

  /** The address a provider vouches for; empty when there is none. */
  function Vouched(email: string, verified: bool): string {
    if verified then Text.TrimSpace(email) else ""
  }

  /** The address a user created for this identity gets. */
  function EmailFor(provider: string, subject: string, email: string, verified: bool): string {
    if Vouched(email, verified) != "" then Vouched(email, verified) else SyntheticEmail(provider, subject)
  }

  predicate SameAddress(x: string, y: string) {
    Text.ToLower(x) == Text.ToLower(y)
  }

  // Statements

  predicate IsFor(row: IdentityRow, provider: string, subject: string) {
    row.provider == provider && row.subject == subject
  }

  /** `GetByProviderSubject`. */
  function FindIdentity(rows: seq<IdentityRow>, provider: string, subject: string): (r: Option<nat>)
    ensures r.Some? ==> r.value < |rows| && IsFor(rows[r.value], provider, subject)
    ensures r.None? ==> forall i :: 0 <= i < |rows| ==> !IsFor(rows[i], provider, subject)
  {
    if rows == [] then None
    else
      var n := |rows| - 1;
      var earlier := FindIdentity(rows[..n], provider, subject);
      if earlier.Some? then earlier else if IsFor(rows[n], provider, subject) then Some(n) else None
  }

  /** `GetByEmail`: the column compares without regard to case. */
  function FindByEmail(users: seq<User>, email: string): (r: Option<nat>)
    ensures r.Some? ==> r.value < |users| && SameAddress(users[r.value].email, email)
    ensures r.None? ==> forall u :: 0 <= u < |users| ==> !SameAddress(users[u].email, email)
  {
    if users == [] then None
    else
      var n := |users| - 1;
      var earlier := FindByEmail(users[..n], email);
      if earlier.Some? then earlier else if SameAddress(users[n].email, email) then Some(n) else None
  }

  /** The foreign key and both unique constraints of `user_identities`. */
  predicate MayInsertIdentity(a: Accounts, row: IdentityRow) {
    && row.user < |a.users|
    && (forall x <- a.identities :: !IsFor(x, row.provider, row.subject))
    && (forall x <- a.identities :: !(x.user == row.user && x.provider == row.provider))
  }

  function InsertIdentity(a: Accounts, row: IdentityRow): Option<Accounts> {
    if MayInsertIdentity(a, row) then Some(a.(identities := a.identities + [row])) else None
  }

  /** Both unique constraints of `users`. */
  predicate MayInsertUser(a: Accounts, user: User) {
    forall x <- a.users :: x.subject != user.subject && !SameAddress(x.email, user.email)
  }

  function InsertUser(a: Accounts, user: User): Option<Accounts> {
    if MayInsertUser(a, user) then Some(a.(users := a.users + [user])) else None
  }

  /** One transaction: both rows or neither. */
  function CreateWithUser(a: Accounts, user: User, row: IdentityRow): Option<Accounts> {
    match InsertUser(a, user)
    case None => None
    case Some(b) => InsertIdentity(b, row.(user := |a.users|))
  }

  // One run of ProvisionUser

  /** `random` is None when the random source fails. */
  datatype Input = Input(identity: Identity, random: Option<Bytes>)

  datatype Outcome = Provisioned(user: nat, row: User) | Failed

  datatype State =
    | Start(input: Input)
    | Found(input: Input, user: nat)
    | ByEmail(input: Input)
    | Linking(input: Input, user: nat, row: User)
    | Creating(input: Input)
    | Finished(input: Input, outcome: Outcome)

  function VouchedBy(identity: Identity): string {
    Vouched(identity.email, identity.emailVerified)
  }

  function NewUser(input: Input): User
    requires input.random.Some?
  {
    var id := input.identity;
    User(Base64.Encode(Base64.Url, input.random.value), EmailFor(id.provider, id.subject, id.email, id.emailVerified))
  }

  function LinkRow(user: nat, identity: Identity): IdentityRow {
    IdentityRow(user, identity.provider, identity.subject, VouchedBy(identity), true, identity.name)
  }

  function NewRow(user: nat, identity: Identity): IdentityRow {
    IdentityRow(user, identity.provider, identity.subject, identity.email, identity.emailVerified, identity.name)
  }

  function ToCreate(input: Input): State {
    if input.random == None then Finished(input, Failed) else Creating(input)
  }

  /** One statement. `fault` makes it fail without effect. */
  function Step(a: Accounts, fault: bool, s: State): (Accounts, State) {
    if s.Finished? then (a, s)
    else if fault then (a, Finished(s.input, Failed))
    else
      var id := s.input.identity;
      match s
      case Start(input) =>
        var found := FindIdentity(a.identities, id.provider, id.subject);
        (a, if found.Some? then Found(input, a.identities[found.value].user)
            else if VouchedBy(id) != "" then ByEmail(input)
            else ToCreate(input))
      case Found(input, user) =>
        (a, Finished(input, if user < |a.users| then Provisioned(user, a.users[user]) else Failed))
      case ByEmail(input) =>
        var found := FindByEmail(a.users, VouchedBy(id));
        (a, if found.Some? then Linking(input, found.value, a.users[found.value]) else ToCreate(input))
      case Linking(input, user, row) =>
        (match InsertIdentity(a, LinkRow(user, id))
         case None => (a, Finished(input, Failed))
         case Some(b) => (b, Finished(input, Provisioned(user, row))))
      case Creating(input) =>
        if input.random == None then (a, Finished(input, Failed))
        else
          match CreateWithUser(a, NewUser(input), NewRow(0, id))
          case None => (a, Finished(input, Failed))
          case Some(b) => (b, Finished(input, Provisioned(|a.users|, NewUser(input))))
  }

  // Many runs

  datatype World = World(accounts: Accounts, requests: map<nat, State>)

  datatype Action = Begin(request: nat, input: Input) | Advance(request: nat, fault: bool)

  function Exec(w: World, action: Action): World {
    match action
    case Begin(r, input) => if r in w.requests then w else w.(requests := w.requests[r := Start(input)])
    case Advance(r, fault) =>
      if r !in w.requests then w
      else
        var (a, s) := Step(w.accounts, fault, w.requests[r]);
        World(a, w.requests[r := s])
  }

  const EMPTY := World(Accounts([], []), map[])

  function Run(w: World, actions: seq<Action>): World {
    if actions == [] then w else Exec(Run(w, actions[..|actions| - 1]), actions[|actions| - 1])
  }

  // What every step keeps

  /** This pair is bound to this user, by the identity at i. */
  predicate BoundAt(a: Accounts, i: nat, provider: string, subject: string, user: nat) {
    i < |a.identities| && IsFor(a.identities[i], provider, subject) && a.identities[i].user == user
  }

  ghost predicate Bound(a: Accounts, provider: string, subject: string, user: nat) {
    exists i :: BoundAt(a, i, provider, subject, user)
  }

  /** The identity at i is one the user's address came from. */
  predicate Founds(a: Accounts, i: nat, u: nat) {
    && i < |a.identities| && a.identities[i].user == u && u < |a.users|
    && var x := a.identities[i];
       a.users[u].email == EmailFor(x.provider, x.subject, x.email, x.emailVerified)
  }

  ghost predicate HasFounder(a: Accounts, u: nat) {
    exists i :: Founds(a, i, u)
  }

  ghost predicate UsersOk(a: Accounts) {
    && (forall u, v :: 0 <= u < v < |a.users| ==>
          a.users[u].subject != a.users[v].subject && !SameAddress(a.users[u].email, a.users[v].email))
    && (forall u: nat :: u < |a.users| ==> HasFounder(a, u))
  }

  ghost predicate IdentitiesOk(a: Accounts) {
    && (forall i, j :: 0 <= i < j < |a.identities| ==>
          var x, y := a.identities[i], a.identities[j];
          !IsFor(x, y.provider, y.subject) && !(x.user == y.user && x.provider == y.provider))
    && (forall x <- a.identities :: x.user < |a.users|)
  }

  ghost predicate AccountsOk(a: Accounts) {
    UsersOk(a) && IdentitiesOk(a)
  }

  ghost predicate RequestOk(a: Accounts, s: State) {
    var id := s.input.identity;
    match s
    case Found(_, user) => Bound(a, id.provider, id.subject, user)
    case ByEmail(_) => VouchedBy(id) != ""
    case Linking(_, user, row) =>
      user < |a.users| && a.users[user] == row && VouchedBy(id) != "" && SameAddress(row.email, VouchedBy(id))
    case Finished(_, Provisioned(user, row)) =>
      Bound(a, id.provider, id.subject, user) && user < |a.users| && a.users[user] == row
    case _ => true
  }

  ghost predicate Inv(w: World) {
    AccountsOk(w.accounts) && forall r <- w.requests :: RequestOk(w.accounts, w.requests[r])
  }

  /** Rows are only ever appended, and never changed. */
  predicate Grows(a: Accounts, b: Accounts) {
    a.users <= b.users && a.identities <= b.identities
  }

  lemma BoundGrows(a: Accounts, b: Accounts, provider: string, subject: string, user: nat)
    requires Grows(a, b) && Bound(a, provider, subject, user)
    ensures Bound(b, provider, subject, user)
  {
    var i :| BoundAt(a, i, provider, subject, user);
    assert BoundAt(b, i, provider, subject, user);
  }

  lemma RequestOkGrows(a: Accounts, b: Accounts, s: State)
    requires Grows(a, b) && RequestOk(a, s)
    ensures RequestOk(b, s)
  {
    var id := s.input.identity;
    match s {
      case Found(_, user) => BoundGrows(a, b, id.provider, id.subject, user);
      case Finished(_, Provisioned(user, row)) => BoundGrows(a, b, id.provider, id.subject, user);
      case _ =>
    }
  }

  lemma InsertIdentityKeeps(a: Accounts, row: IdentityRow)
    requires AccountsOk(a) && MayInsertIdentity(a, row)
    ensures var b := a.(identities := a.identities + [row]);
            AccountsOk(b) && Grows(a, b) && BoundAt(b, |a.identities|, row.provider, row.subject, row.user)
  {
    var b := a.(identities := a.identities + [row]);
    forall u: nat | u < |b.users| ensures HasFounder(b, u) {
      assert HasFounder(a, u);
      var i :| Founds(a, i, u);
      assert Founds(b, i, u);
    }
  }

  lemma CreateWithUserKeeps(a: Accounts, user: User, row: IdentityRow)
    requires AccountsOk(a) && CreateWithUser(a, user, row).Some?
    requires user.email == EmailFor(row.provider, row.subject, row.email, row.emailVerified)
    ensures var b := CreateWithUser(a, user, row).value;
            AccountsOk(b) && Grows(a, b) && BoundAt(b, |a.identities|, row.provider, row.subject, |a.users|)
  {
    var b := CreateWithUser(a, user, row).value;
    assert b.users == a.users + [user] && b.identities == a.identities + [row.(user := |a.users|)];
    forall u: nat | u < |b.users| ensures HasFounder(b, u) {
      if u < |a.users| {
        assert HasFounder(a, u);
        var i :| Founds(a, i, u);
        assert Founds(b, i, u);
      } else {
        assert Founds(b, |a.identities|, u);
      }
    }
    assert forall u :: 0 <= u < |a.users| ==> a.users[u] in a.users;
    assert forall i :: 0 <= i < |a.identities| ==> a.identities[i] in a.identities;
  }

  lemma StepKeeps(a: Accounts, fault: bool, s: State)
    requires AccountsOk(a) && RequestOk(a, s)
    ensures var (b, t) := Step(a, fault, s);
            AccountsOk(b) && Grows(a, b) && RequestOk(b, t) && t.input == s.input
  {
    var (b, t) := Step(a, fault, s);
    if fault {
      return;
    }
    var id := s.input.identity;
    match s {
      case Start(_) =>
        var found := FindIdentity(a.identities, id.provider, id.subject);
        if found.Some? {
          assert BoundAt(a, found.value, id.provider, id.subject, a.identities[found.value].user);
        }
      case Linking(_, user, _) =>
        if InsertIdentity(a, LinkRow(user, id)).Some? {
          InsertIdentityKeeps(a, LinkRow(user, id));
        }
      case Creating(input) =>
        if input.random.Some? && CreateWithUser(a, NewUser(input), NewRow(0, id)).Some? {
          CreateWithUserKeeps(a, NewUser(input), NewRow(0, id));
        }
      case _ =>
    }
  }

  lemma ExecKeeps(w: World, action: Action)
    requires Inv(w)
    ensures Inv(Exec(w, action)) && Grows(w.accounts, Exec(w, action).accounts)
  {
    if action.Advance? && action.request in w.requests {
      var (a, s) := Step(w.accounts, action.fault, w.requests[action.request]);
      StepKeeps(w.accounts, action.fault, w.requests[action.request]);
      forall r <- w.requests ensures RequestOk(a, w.requests[r]) {
        RequestOkGrows(w.accounts, a, w.requests[r]);
      }
    }
  }

  lemma {:induction false} RunKeeps(w: World, actions: seq<Action>)
    requires Inv(w)
    ensures Inv(Run(w, actions)) && Grows(w.accounts, Run(w, actions).accounts)
  {
    if actions != [] {
      RunKeeps(w, actions[..|actions| - 1]);
      ExecKeeps(Run(w, actions[..|actions| - 1]), actions[|actions| - 1]);
    }
  }

  lemma {:induction false} RunConcat(w: World, first: seq<Action>, more: seq<Action>)
    ensures Run(w, first + more) == Run(Run(w, first), more)
  {
    if more == [] {
      assert first + more == first;
    } else {
      RunConcat(w, first, more[..|more| - 1]);
      assert (first + more)[..|first + more| - 1] == first + more[..|more| - 1];
    }
  }

  // Main results, over every interleaving

  /** In every reachable state: unique bindings, no dangling identity, no user without an identity. */
  lemma TablesStaySound(actions: seq<Action>)
    ensures AccountsOk(Run(EMPTY, actions).accounts)
    ensures var users := Run(EMPTY, actions).accounts.users;
            forall u, v :: 0 <= u < v < |users| ==>
              users[u].subject != users[v].subject && Text.ToLower(users[u].email) != Text.ToLower(users[v].email)
  {
    RunKeeps(EMPTY, actions);
  }

  lemma BoundOnce(a: Accounts, provider: string, subject: string, u: nat, v: nat)
    requires IdentitiesOk(a) && Bound(a, provider, subject, u) && Bound(a, provider, subject, v)
    ensures u == v
  {
    var i :| BoundAt(a, i, provider, subject, u);
    var j :| BoundAt(a, j, provider, subject, v);
    assert i == j;
  }

  /** A pair bound once keeps its user for ever. */
  lemma NeverRebound(first: seq<Action>, more: seq<Action>, provider: string, subject: string, u: nat, v: nat)
    requires Bound(Run(EMPTY, first).accounts, provider, subject, u)
    requires Bound(Run(EMPTY, first + more).accounts, provider, subject, v)
    ensures u == v
  {
    RunConcat(EMPTY, first, more);
    RunKeeps(EMPTY, first);
    RunKeeps(Run(EMPTY, first), more);
    BoundGrows(Run(EMPTY, first).accounts, Run(EMPTY, first + more).accounts, provider, subject, u);
    BoundOnce(Run(EMPTY, first + more).accounts, provider, subject, u, v);
  }

  /** Whatever races they ran, two successful runs for one pair return the same user. */
  lemma ProvisioningIsAFunction(actions: seq<Action>, p: nat, q: nat)
    requires var w := Run(EMPTY, actions);
             && p in w.requests && w.requests[p].Finished? && w.requests[p].outcome.Provisioned?
             && q in w.requests && w.requests[q].Finished? && w.requests[q].outcome.Provisioned?
             && w.requests[p].input.identity.provider == w.requests[q].input.identity.provider
             && w.requests[p].input.identity.subject == w.requests[q].input.identity.subject
    ensures Run(EMPTY, actions).requests[p].outcome == Run(EMPTY, actions).requests[q].outcome
  {
    var w := Run(EMPTY, actions);
    RunKeeps(EMPTY, actions);
    var s, t := w.requests[p], w.requests[q];
    assert RequestOk(w.accounts, s) && RequestOk(w.accounts, t);
    var id := s.input.identity;
    BoundOnce(w.accounts, id.provider, id.subject, s.outcome.user, t.outcome.user);
  }

  /**
    A step that changes a table adds one identity for its own pair, with the user
    it belongs to or for a user already there, and finishes returning that user. A
    failing run, a lost race included, leaves nothing behind.
  */
  lemma StepAddsOneIdentityOrNothing(a: Accounts, fault: bool, s: State)
    ensures var (b, t) := Step(a, fault, s);
            || b == a
            || (&& t.Finished? && t.outcome.Provisioned?
                && |b.identities| == |a.identities| + 1 && Grows(a, b) && |b.users| <= |a.users| + 1
                && BoundAt(b, |a.identities|, s.input.identity.provider, s.input.identity.subject, t.outcome.user)
                && (|b.users| == |a.users| + 1 ==> t.outcome.user == |a.users| && b.users[|a.users|] == t.outcome.row))
    ensures var (b, t) := Step(a, fault, s);
            t.Finished? && t.outcome.Failed? ==> b == a
  {
  }

  // What the rows say

  /** Request r ended with user u, whom it made from its own random buffer. */
  predicate Made(w: World, r: nat, u: nat) {
    && r in w.requests && w.requests[r].Finished? && w.requests[r].input.random.Some? && u < |w.accounts.users|
    && w.requests[r].outcome == Provisioned(u, w.accounts.users[u])
    && w.accounts.users[u].subject == Base64.Encode(Base64.Url, w.requests[r].input.random.value)
  }

  lemma MadeLasts(w: World, action: Action, r: nat, u: nat)
    requires Inv(w) && Made(w, r, u)
    ensures Made(Exec(w, action), r, u)
  {
    ExecKeeps(w, action);
  }

  lemma NewUserIsMade(w: World, action: Action)
    requires |Exec(w, action).accounts.users| > |w.accounts.users|
    ensures action.Advance? && Made(Exec(w, action), action.request, |w.accounts.users|)
    ensures |Exec(w, action).accounts.users| == |w.accounts.users| + 1
  {
  }

  /** The subject of every user is the text of the random bytes of the request that made it, whatever came from upstream. */
  lemma {:induction false} SubjectsAreRandom(actions: seq<Action>, u: nat) returns (r: nat)
    requires u < |Run(EMPTY, actions).accounts.users|
    ensures Made(Run(EMPTY, actions), r, u)
  {
    var front, last := actions[..|actions| - 1], actions[|actions| - 1];
    var w := Run(EMPTY, front);
    if u < |w.accounts.users| {
      r := SubjectsAreRandom(front, u);
      RunKeeps(EMPTY, front);
      MadeLasts(w, last, r, u);
    } else {
      r := last.request;
      NewUserIsMade(w, last);
    }
  }

  /** So a buffer no request has used gives a subject no user has. */
  lemma DistinctRandomsNeverClash(actions: seq<Action>, random: Bytes)
    requires var w := Run(EMPTY, actions);
             forall r <- w.requests :: w.requests[r].input.random != Some(random)
    ensures forall u <- Run(EMPTY, actions).accounts.users :: u.subject != Base64.Encode(Base64.Url, random)
  {
    var w := Run(EMPTY, actions);
    forall user <- w.accounts.users ensures user.subject != Base64.Encode(Base64.Url, random) {
      var u: nat :| u < |w.accounts.users| && w.accounts.users[u] == user;
      var r := SubjectsAreRandom(actions, u);
      if user.subject == Base64.Encode(Base64.Url, random) {
        Base64.EncodeInjective(Base64.Url, w.requests[r].input.random.value, random);
      }
    }
  }

  /** Request r ended with the user of the identity at i, which it wrote as it came, or, linking it, with the vouched address. */
  predicate Wrote(w: World, r: nat, i: nat) {
    && r in w.requests && w.requests[r].Finished? && i < |w.accounts.identities|
    && var row, id := w.accounts.identities[i], w.requests[r].input.identity;
       && w.requests[r].outcome.Provisioned? && w.requests[r].outcome.user == row.user
       && row.provider == id.provider && row.subject == id.subject && row.name == id.name
       && row.emailVerified == id.emailVerified
       && (row.email == id.email || (id.emailVerified && row.email == Text.TrimSpace(id.email) != ""))
  }

  lemma WroteLasts(w: World, action: Action, r: nat, i: nat)
    requires Inv(w) && Wrote(w, r, i)
    ensures Wrote(Exec(w, action), r, i)
  {
    ExecKeeps(w, action);
  }

  lemma NewIdentityIsWritten(w: World, action: Action)
    requires Inv(w) && |Exec(w, action).accounts.identities| > |w.accounts.identities|
    ensures action.Advance? && Wrote(Exec(w, action), action.request, |w.accounts.identities|)
    ensures |Exec(w, action).accounts.identities| == |w.accounts.identities| + 1
  {
    assert RequestOk(w.accounts, w.requests[action.request]);
  }

  /** Every identity is one that a request came with. */
  lemma {:induction false} IdentitiesAreWritten(actions: seq<Action>, i: nat) returns (r: nat)
    requires i < |Run(EMPTY, actions).accounts.identities|
    ensures Wrote(Run(EMPTY, actions), r, i)
  {
    var front, last := actions[..|actions| - 1], actions[|actions| - 1];
    var w := Run(EMPTY, front);
    RunKeeps(EMPTY, front);
    if i < |w.accounts.identities| {
      r := IdentitiesAreWritten(front, i);
      WroteLasts(w, last, r, i);
    } else {
      r := last.request;
      NewIdentityIsWritten(w, last);
    }
  }

  // A run that nothing interrupts

  function Rank(s: State): nat {
    match s
    case Start(_) => 4
    case ByEmail(_) => 3
    case Found(_, _) => 1
    case Linking(_, _, _) => 1
    case Creating(_) => 1
    case Finished(_, _) => 0
  }

  /** A run of `ProvisionUser` that nothing interrupts; `faults` says which of its statements fail. */
  function Alone(a: Accounts, s: State, faults: nat -> bool, k: nat): (r: (Accounts, State))
    ensures r.1.Finished?
    decreases Rank(s)
  {
    if s.Finished? then (a, s)
    else
      var (b, t) := Step(a, faults(k), s);
      Alone(b, t, faults, k + 1)
  }

  lemma RunOne(w: World, action: Action)
    ensures Run(w, [action]) == Exec(w, action)
  {
    assert [action][..0] == [];
    assert Run(w, []) == w;
  }

  /** It is one of the interleavings. */
  lemma {:induction false} AloneIsRun(w: World, r: nat, faults: nat -> bool, k: nat) returns (actions: seq<Action>)
    requires r in w.requests
    ensures var v := Run(w, actions);
            r in v.requests && (v.accounts, v.requests[r]) == Alone(w.accounts, w.requests[r], faults, k)
    decreases Rank(w.requests[r])
  {
    if w.requests[r].Finished? {
      actions := [];
    } else {
      var first := [Advance(r, faults(k))];
      var v := Exec(w, first[0]);
      RunOne(w, first[0]);
      var rest := AloneIsRun(v, r, faults, k + 1);
      RunConcat(w, first, rest);
      actions := first + rest;
    }
  }

  lemma Continues(a: Accounts, s: State, faults: nat -> bool, k: nat)
    requires !s.Finished? && !faults(k)
    ensures var (b, t) := Step(a, false, s);
            Alone(a, s, faults, k) == Alone(b, t, faults, k + 1)
            && (t.Finished? ==> Alone(a, s, faults, k) == (b, t))
  {
  }

  class ProviderService {
    var users: seq<User>
    var identities: seq<IdentityRow>

    ghost function Tables(): Accounts
      reads this
    {
      Accounts(users, identities)
    }

    constructor ()
      ensures Tables() == EMPTY.accounts
    {
      users, identities := [], [];
    }

    method CreateIdentity(row: IdentityRow) returns (created: bool)
      modifies this`identities
      ensures created <==> MayInsertIdentity(old(Tables()), row)
      ensures identities == if created then old(identities) + [row] else old(identities)
    {
      created := row.user < |users| && FindIdentity(identities, row.provider, row.subject) == None
        && !exists x <- identities :: x.user == row.user && x.provider == row.provider;
      if created {
        identities := identities + [row];
      }
    }

    /** One transaction; when the second insert is refused the first is undone. */
    method CreateUserWithIdentity(user: User, row: IdentityRow) returns (created: bool)
      modifies this
      ensures match CreateWithUser(old(Tables()), user, row)
              case None => !created && Tables() == old(Tables())
              case Some(after) => created && Tables() == after
    {
      var before := users;
      if exists x <- users :: x.subject == user.subject || SameAddress(x.email, user.email) {
        return false;
      }
      users := users + [user];
      created := CreateIdentity(row.(user := |before|));
      if !created {
        users := before;
      }
    }

    method ProvisionUser(input: Input, faults: nat -> bool) returns (outcome: Outcome)
      modifies this
      ensures (Tables(), Finished(input, outcome)) == Alone(old(Tables()), Start(input), faults, 0)
    {
      var id := input.identity;
      ghost var a := Tables();
      if faults(0) {
        return Failed;
      }
      var bound := FindIdentity(identities, id.provider, id.subject);
      if bound.Some? {
        Continues(a, Start(input), faults, 0);
        var user := identities[bound.value].user;
        if faults(1) || user >= |users| {
          return Failed;
        }
        return Provisioned(user, users[user]);
      }

      var verifiedEmail := "";
      if id.emailVerified {
        verifiedEmail := Text.TrimSpace(id.email);
      }
      var k := 1;
      if verifiedEmail != "" {
        Continues(a, Start(input), faults, 0);
        if faults(1) {
          return Failed;
        }
        k := 2;
        var existing := FindByEmail(users, verifiedEmail);
        if existing.Some? {
          Continues(a, ByEmail(input), faults, 1);
          outcome := Link(input, existing.value, verifiedEmail, faults);
          return;
        }
      }

      var email := verifiedEmail;
      if email == "" {
        email := SyntheticEmail(id.provider, id.subject);
      }
      if input.random == None {
        return Failed;
      }
      assert Alone(a, Start(input), faults, 0) == Alone(a, Creating(input), faults, k);
      if faults(k) {
        assert Alone(a, Creating(input), faults, k) == Alone(a, Finished(input, Failed), faults, k + 1);
        return Failed;
      }
      var user := User(Base64.Encode(Base64.Url, input.random.value), email);
      var row := IdentityRow(0, id.provider, id.subject, id.email, id.emailVerified, id.name);
      ghost var newId := |users|;
      var created := CreateUserWithIdentity(user, row);
      Continues(a, Creating(input), faults, k);
      return if created then Provisioned(|users| - 1, user) else Failed;
    }

    method Link(input: Input, user: nat, verifiedEmail: string, faults: nat -> bool) returns (outcome: Outcome)
      requires user < |users| && verifiedEmail == VouchedBy(input.identity)
      modifies this`identities
      ensures (Tables(), Finished(input, outcome)) == Alone(old(Tables()), Linking(input, user, users[user]), faults, 2)
    {
      var id := input.identity;
      if faults(2) {
        return Failed;
      }
      var created := CreateIdentity(IdentityRow(user, id.provider, id.subject, verifiedEmail, true, id.name));
      return if created then Provisioned(user, users[user]) else Failed;
    }
  }
}
