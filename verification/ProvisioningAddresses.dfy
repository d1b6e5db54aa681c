/**
  Which addresses users carry after any number of interleaved provisionings, and
  exactly when provisioning an identity succeeds.
*/
module ProvisioningAddresses {
  import opened Prelude
  import opened Models
  import opened Upstream
  import opened Provisioning
  import Base64
  import Text

  /** The provider, a hyphen, and the subject with a hyphen for every character but letters, digits, `-` and `_`. */
  ghost predicate IsSyntheticFor(email: string, provider: string, subject: string) {
    exists part :: email == provider + "-" + part + "@users.centrauth.invalid" && IsSafeCopy(part, subject)
  }

  predicate IsSafeCopy(part: string, subject: string) {
    && |part| == |subject|
    && forall i :: 0 <= i < |part| ==>
         var c := subject[i];
         if 'a' <= c <= 'z' || 'A' <= c <= 'Z' || '0' <= c <= '9' || c in "-_" then part[i] == c else part[i] == '-'
  }

  lemma SyntheticIsSafeCopy(provider: string, subject: string)
    ensures IsSyntheticFor(SyntheticEmail(provider, subject), provider, subject)
  {
    assert IsSafeCopy(Sanitise(subject), subject);
  }

  /** An address comes from an identity that vouched for it, or is synthetic: unverified ones stay out. */
  lemma UnverifiedAddressesStayOut(actions: seq<Action>, u: nat) returns (i: nat)
    requires u < |Run(EMPTY, actions).accounts.users|
    ensures var a := Run(EMPTY, actions).accounts;
            && i < |a.identities| && a.identities[i].user == u
            && var x, email := a.identities[i], a.users[u].email;
               if x.emailVerified && Text.TrimSpace(x.email) != "" then email == Text.TrimSpace(x.email)
               else IsSyntheticFor(email, x.provider, x.subject)
  {
    TablesStaySound(actions);
    assert HasFounder(Run(EMPTY, actions).accounts, u);
    i :| Founds(Run(EMPTY, actions).accounts, i, u);
    var x := Run(EMPTY, actions).accounts.identities[i];
    SyntheticIsSafeCopy(x.provider, x.subject);
  }

  // Synthetic addresses

  predicate IsReserved(address: string) {
    Text.HasSuffix(Text.ToLower(address), RESERVED_DOMAIN)
  }

  lemma LowerIsKept(s: string)
    requires forall c <- s :: !('A' <= c <= 'Z')
    ensures Text.ToLower(s) == s
  {
    assert forall i :: 0 <= i < |s| ==> s[i] in s;
  }

  lemma EndsInDomain(front: string, domain: string)
    requires Text.ToLower(domain) == domain
    ensures Text.HasSuffix(Text.ToLower(front + domain), domain)
  {
    Text.ToLowerConcat(front, domain);
  }

  lemma SyntheticIsReserved(provider: string, subject: string)
    ensures IsReserved(SyntheticEmail(provider, subject))
  {
    LowerIsKept(RESERVED_DOMAIN);
    EndsInDomain(provider + "-" + Sanitise(subject), RESERVED_DOMAIN);
  }

  lemma ReservedUpToCase(x: string, y: string)
    requires SameAddress(x, y)
    ensures IsReserved(x) == IsReserved(y)
  {
  }

  lemma SupportedPrefix(p: string, x: string, q: string, y: string)
    requires IsSupported(p) && IsSupported(q)
    ensures SameAddress(p + x, q + y) <==> p == q && SameAddress(x, y)
  {
    Text.ToLowerConcat(p, x);
    Text.ToLowerConcat(q, y);
    if SameAddress(p + x, q + y) {
      assert Text.ToLower(p + x)[1] == p[1] && Text.ToLower(q + y)[1] == q[1];
      assert p == q;
      assert Text.ToLower(x) == Text.ToLower(p + x)[6..];
      assert Text.ToLower(y) == Text.ToLower(q + y)[6..];
    }
  }

  lemma SameMiddle(a: string, x: string, y: string, b: string)
    requires SameAddress(a + x + b, a + y + b)
    ensures SameAddress(x, y)
  {
    Text.ToLowerConcat(a + x, b);
    Text.ToLowerConcat(a, x);
    Text.ToLowerConcat(a + y, b);
    Text.ToLowerConcat(a, y);
    assert |x| == |y| by {
      assert |Text.ToLower(a + x + b)| == |Text.ToLower(a + y + b)|;
    }
    assert Text.ToLower(x) == Text.ToLower(a + x + b)[|a|..|a| + |x|];
    assert Text.ToLower(y) == Text.ToLower(a + y + b)[|a|..|a| + |y|];
  }

  lemma PrefixedCollide(p: string, s: string, q: string, t: string, domain: string)
    requires IsSupported(p) && IsSupported(q)
    ensures SameAddress(p + "-" + s + domain, q + "-" + t + domain) <==> p == q && SameAddress(s, t)
  {
    var x, y := "-" + s + domain, "-" + t + domain;
    assert p + "-" + s + domain == p + x && q + "-" + t + domain == q + y;
    SupportedPrefix(p, x, q, y);
    if SameAddress(x, y) {
      SameMiddle("-", s, t, domain);
    }
  }

  /** Two supported identities get the same synthetic address exactly when their sanitised subjects agree up to case. */
  lemma SyntheticEmailsCollide(p: string, s: string, q: string, t: string)
    requires IsSupported(p) && IsSupported(q)
    ensures SameAddress(SyntheticEmail(p, s), SyntheticEmail(q, t))
            <==> p == q && SameAddress(Sanitise(s), Sanitise(t))
  {
    PrefixedCollide(p, Sanitise(s), q, Sanitise(t), RESERVED_DOMAIN);
  }

  /** Lower-case subjects over letters, digits, `-` and `_`, as GitHub's decimal ids are. */
  predicate IsPlain(subject: string) {
    forall c <- subject :: 'a' <= c <= 'z' || '0' <= c <= '9' || c == '-' || c == '_'
  }

  /** On plain subjects the address determines the identity, even ignoring case. */
  lemma PlainSubjectsNeverCollide(p: string, s: string, q: string, t: string)
    requires IsSupported(p) && IsSupported(q) && IsPlain(s) && IsPlain(t)
    ensures SameAddress(SyntheticEmail(p, s), SyntheticEmail(q, t)) <==> p == q && s == t
  {
    SyntheticEmailsCollide(p, s, q, t);
    PlainIsKept(s);
    PlainIsKept(t);
  }

  lemma PlainIsKept(s: string)
    requires IsPlain(s)
    ensures Sanitise(s) == s && Text.ToLower(s) == s
  {
    assert forall i :: 0 <= i < |s| ==> s[i] in s;
  }

  // The two kinds of users

  /** From a supported provider that vouches for no address under the reserved domain. */
  predicate IsGenuine(provider: string, email: string, verified: bool) {
    IsSupported(provider) && !IsReserved(Vouched(email, verified))
  }

  predicate IsGenuineIdentity(id: Identity) {
    IsGenuine(id.provider, id.email, id.emailVerified)
  }

  /** The assumption on providers, for a whole run. */
  predicate AllGenuine(actions: seq<Action>) {
    forall action <- actions :: action.Begin? ==> IsGenuineIdentity(action.input.identity)
  }

  function RowVouches(x: IdentityRow): string {
    Vouched(x.email, x.emailVerified)
  }

  /** All its identities are verified and carry its address, up to trimming and case. */
  predicate IsVerifiedUser(a: Accounts, u: nat)
    requires u < |a.users|
  {
    forall x <- a.identities :: x.user == u ==>
      x.emailVerified && SameAddress(Text.TrimSpace(x.email), a.users[u].email)
  }

  /** The identity at i is its only one, vouches for nothing, and gave it its synthetic address. */
  predicate IsSoleSynthetic(a: Accounts, i: nat, u: nat)
    requires u < |a.users|
  {
    && i < |a.identities| && a.identities[i].user == u && RowVouches(a.identities[i]) == ""
    && a.users[u].email == SyntheticEmail(a.identities[i].provider, a.identities[i].subject)
    && forall j :: 0 <= j < |a.identities| && a.identities[j].user == u ==> j == i
  }

  ghost predicate IsSyntheticUser(a: Accounts, u: nat)
    requires u < |a.users|
  {
    exists i :: IsSoleSynthetic(a, i, u)
  }

  ghost predicate KindsOk(a: Accounts) {
    && (forall u: nat :: u < |a.users| ==> IsVerifiedUser(a, u) || IsSyntheticUser(a, u))
    && (forall x <- a.identities :: IsGenuine(x.provider, x.email, x.emailVerified))
  }

  lemma SyntheticStays(a: Accounts, b: Accounts, row: IdentityRow, u: nat)
    requires Grows(a, b) && b.identities == a.identities + [row] && u < |a.users|
    requires IsSyntheticUser(a, u) && row.user != u
    ensures IsSyntheticUser(b, u)
  {
    var i: nat :| IsSoleSynthetic(a, i, u);
    assert IsSoleSynthetic(b, i, u);
  }

  lemma SyntheticUserIsReserved(a: Accounts, u: nat)
    requires u < |a.users|
    ensures IsSyntheticUser(a, u) ==> IsReserved(a.users[u].email)
  {
    if IsSyntheticUser(a, u) {
      var i: nat :| IsSoleSynthetic(a, i, u);
      SyntheticIsReserved(a.identities[i].provider, a.identities[i].subject);
    }
  }

  /** Only a verified user can be found by a genuine address. */
  lemma GenuineFindsVerified(a: Accounts, u: nat, address: string)
    requires u < |a.users| && KindsOk(a) && !IsReserved(address) && SameAddress(a.users[u].email, address)
    ensures IsVerifiedUser(a, u)
  {
    SyntheticUserIsReserved(a, u);
    ReservedUpToCase(a.users[u].email, address);
  }

  lemma LinkKeepsKinds(a: Accounts, u: nat, id: Identity)
    requires KindsOk(a) && MayInsertIdentity(a, LinkRow(u, id)) && IsGenuineIdentity(id)
    requires SameAddress(a.users[u].email, VouchedBy(id)) && VouchedBy(id) != ""
    ensures KindsOk(a.(identities := a.identities + [LinkRow(u, id)]))
  {
    var row := LinkRow(u, id);
    var b := a.(identities := a.identities + [row]);
    GenuineFindsVerified(a, u, VouchedBy(id));
    Text.TrimSpaceIdempotent(id.email);
    forall v: nat | v < |b.users| ensures IsVerifiedUser(b, v) || IsSyntheticUser(b, v) {
      if !IsVerifiedUser(a, v) {
        SyntheticStays(a, b, row, v);
      }
    }
  }

  lemma CreateKeepsKinds(a: Accounts, input: Input)
    requires input.random.Some? && AccountsOk(a) && KindsOk(a) && IsGenuineIdentity(input.identity)
    requires CreateWithUser(a, NewUser(input), NewRow(0, input.identity)).Some?
    ensures KindsOk(CreateWithUser(a, NewUser(input), NewRow(0, input.identity)).value)
  {
    var id := input.identity;
    var b := CreateWithUser(a, NewUser(input), NewRow(0, id)).value;
    var row := NewRow(|a.users|, id);
    assert b.users == a.users + [NewUser(input)] && b.identities == a.identities + [row];
    forall v: nat | v < |b.users| ensures IsVerifiedUser(b, v) || IsSyntheticUser(b, v) {
      if v < |a.users| {
        if !IsVerifiedUser(a, v) {
          SyntheticStays(a, b, row, v);
        }
      } else if VouchedBy(id) == "" {
        assert IsSoleSynthetic(b, |a.identities|, v);
      }
    }
  }

  lemma StepKeepsKinds(a: Accounts, fault: bool, s: State)
    requires AccountsOk(a) && RequestOk(a, s) && KindsOk(a) && IsGenuineIdentity(s.input.identity)
    ensures KindsOk(Step(a, fault, s).0)
  {
    var id := s.input.identity;
    if fault {
    } else if s.Linking? && MayInsertIdentity(a, LinkRow(s.user, id)) {
      LinkKeepsKinds(a, s.user, id);
    } else if s.Creating? && s.input.random.Some?
              && CreateWithUser(a, NewUser(s.input), NewRow(0, id)).Some? {
      CreateKeepsKinds(a, s.input);
    }
  }

  lemma {:induction false} RunKeepsKinds(actions: seq<Action>)
    requires AllGenuine(actions)
    ensures var w := Run(EMPTY, actions);
            KindsOk(w.accounts) && forall r <- w.requests :: IsGenuineIdentity(w.requests[r].input.identity)
  {
    if actions != [] {
      var before, last := actions[..|actions| - 1], actions[|actions| - 1];
      RunKeepsKinds(before);
      RunKeeps(EMPTY, before);
      var w := Run(EMPTY, before);
      if last.Advance? && last.request in w.requests {
        StepKeeps(w.accounts, last.fault, w.requests[last.request]);
        StepKeepsKinds(w.accounts, last.fault, w.requests[last.request]);
      }
    }
  }

  lemma EmailNotEmpty(a: Accounts, u: nat)
    requires UsersOk(a) && u < |a.users|
    ensures a.users[u].email != ""
  {
    assert HasFounder(a, u);
    var i: nat :| Founds(a, i, u);
    var x := a.identities[i];
    assert |SyntheticEmail(x.provider, x.subject)| > 0;
  }

  lemma VerifiedUsersRowsVouch(a: Accounts, x: IdentityRow)
    requires AccountsOk(a) && x in a.identities
    ensures IsVerifiedUser(a, x.user) ==> RowVouches(x) != "" && SameAddress(RowVouches(x), a.users[x.user].email)
  {
    EmailNotEmpty(a, x.user);
    assert |Text.ToLower(a.users[x.user].email)| > 0;
  }

  lemma SyntheticUsersRowsAreSilent(a: Accounts, x: IdentityRow)
    requires IdentitiesOk(a) && x in a.identities
    ensures IsSyntheticUser(a, x.user) ==>
              RowVouches(x) == "" && a.users[x.user].email == SyntheticEmail(x.provider, x.subject)
  {
    if IsSyntheticUser(a, x.user) {
      var i: nat :| IsSoleSynthetic(a, i, x.user);
      var j: nat :| j < |a.identities| && a.identities[j] == x;
      assert j == i;
    }
  }

  lemma OneKind(a: Accounts, u: nat)
    requires AccountsOk(a) && KindsOk(a) && u < |a.users|
    ensures IsVerifiedUser(a, u) <==> !IsSyntheticUser(a, u)
  {
    assert HasFounder(a, u);
    var i: nat :| Founds(a, i, u);
    VerifiedUsersRowsVouch(a, a.identities[i]);
    SyntheticUsersRowsAreSilent(a, a.identities[i]);
  }

  /** Every user is of exactly one kind, whatever the interleaving. */
  lemma TwoKindsOfUsers(actions: seq<Action>, u: nat)
    requires AllGenuine(actions) && u < |Run(EMPTY, actions).accounts.users|
    ensures var a := Run(EMPTY, actions).accounts;
            IsVerifiedUser(a, u) <==> !IsSyntheticUser(a, u)
  {
    TablesStaySound(actions);
    RunKeepsKinds(actions);
    OneKind(Run(EMPTY, actions).accounts, u);
  }

  // Progress

  predicate Clashes(x: IdentityRow, id: Identity) {
    && x.provider == id.provider
    && if VouchedBy(id) != "" then SameAddress(RowVouches(x), VouchedBy(id))
       else RowVouches(x) == "" && SameAddress(Sanitise(x.subject), Sanitise(id.subject))
  }

  /** Not bound yet, and an identity of the same provider stands in the way. */
  predicate IsBlocked(a: Accounts, id: Identity) {
    && (forall x <- a.identities :: !IsFor(x, id.provider, id.subject))
    && exists x <- a.identities :: Clashes(x, id)
  }

  lemma SameAddressSameUser(a: Accounts, u: nat, v: nat)
    requires UsersOk(a) && u < |a.users| && v < |a.users| && SameAddress(a.users[u].email, a.users[v].email)
    ensures u == v
  {
  }

  lemma LinkedUserClashes(a: Accounts, id: Identity, u: nat)
    requires AccountsOk(a) && KindsOk(a) && IsGenuineIdentity(id) && VouchedBy(id) != ""
    requires u < |a.users| && SameAddress(a.users[u].email, VouchedBy(id))
    ensures (exists x <- a.identities :: x.user == u && x.provider == id.provider)
            <==> exists x <- a.identities :: Clashes(x, id)
  {
    GenuineFindsVerified(a, u, VouchedBy(id));
    if x :| x in a.identities && x.user == u && x.provider == id.provider {
      VerifiedUsersRowsVouch(a, x);
      assert Clashes(x, id);
    }
    if x :| x in a.identities && Clashes(x, id) {
      VouchingRowIsOfItsUser(a, x);
      SameAddressSameUser(a, x.user, u);
    }
  }

  /** A row that vouches for an address vouches for its user's. */
  lemma VouchingRowIsOfItsUser(a: Accounts, x: IdentityRow)
    requires AccountsOk(a) && KindsOk(a) && x in a.identities
    requires RowVouches(x) != ""
    ensures SameAddress(RowVouches(x), a.users[x.user].email)
  {
    VerifiedUsersRowsVouch(a, x);
    SyntheticUsersRowsAreSilent(a, x);
  }

  /** A row that vouches for nothing belongs to a user with its synthetic address. */
  lemma SilentRowIsSynthetic(a: Accounts, x: IdentityRow)
    requires AccountsOk(a) && KindsOk(a) && x in a.identities && RowVouches(x) == ""
    ensures a.users[x.user].email == SyntheticEmail(x.provider, x.subject)
  {
    VerifiedUsersRowsVouch(a, x);
    SyntheticUsersRowsAreSilent(a, x);
  }

  lemma FreshUserClashes(a: Accounts, id: Identity, email: string)
    requires AccountsOk(a) && KindsOk(a) && IsGenuineIdentity(id)
    requires VouchedBy(id) == "" && email == SyntheticEmail(id.provider, id.subject)
    ensures (exists u <- a.users :: SameAddress(u.email, email))
            <==> exists x <- a.identities :: Clashes(x, id)
  {
    SyntheticIsReserved(id.provider, id.subject);
    if v :| v in a.users && SameAddress(v.email, email) {
      var u: nat :| u < |a.users| && a.users[u] == v;
      assert HasFounder(a, u);
      var f: nat :| Founds(a, f, u);
      var x := a.identities[f];
      assert RowVouches(x) == "";
      SyntheticEmailsCollide(x.provider, x.subject, id.provider, id.subject);
      assert Clashes(x, id);
    }
    if x :| x in a.identities && Clashes(x, id) {
      SilentRowIsSynthetic(a, x);
      SyntheticEmailsCollide(x.provider, x.subject, id.provider, id.subject);
      assert a.users[x.user] in a.users;
    }
  }

  lemma NoUserNoClash(a: Accounts, id: Identity)
    requires AccountsOk(a) && KindsOk(a) && VouchedBy(id) != "" && FindByEmail(a.users, VouchedBy(id)) == None
    ensures forall x <- a.identities :: !Clashes(x, id)
  {
    forall x <- a.identities ensures !Clashes(x, id) {
      if Clashes(x, id) {
        VouchingRowIsOfItsUser(a, x);
        assert false;
      }
    }
  }

  predicate Succeeds(a: Accounts, s: State, faults: nat -> bool, k: nat) {
    Alone(a, s, faults, k).1.outcome.Provisioned?
  }

  predicate IsUnbound(a: Accounts, id: Identity) {
    forall x <- a.identities :: !IsFor(x, id.provider, id.subject)
  }

  lemma CreatingSucceeds(a: Accounts, input: Input, faults: nat -> bool, k: nat)
    requires AccountsOk(a) && input.random.Some? && !faults(k) && IsUnbound(a, input.identity)
    requires forall u <- a.users :: u.subject != Base64.Encode(Base64.Url, input.random.value)
    ensures Succeeds(a, Creating(input), faults, k)
            <==> !exists u <- a.users :: SameAddress(u.email, NewUser(input).email)
  {
    Continues(a, Creating(input), faults, k);
    if MayInsertUser(a, NewUser(input)) {
      var b := InsertUser(a, NewUser(input)).value;
      assert MayInsertIdentity(b, NewRow(|a.users|, input.identity));
    }
  }

  lemma LinkingSucceeds(a: Accounts, input: Input, u: nat, row: User, faults: nat -> bool, k: nat)
    requires u < |a.users| && !faults(k) && IsUnbound(a, input.identity)
    ensures Succeeds(a, Linking(input, u, row), faults, k)
            <==> !exists x <- a.identities :: x.user == u && x.provider == input.identity.provider
  {
    Continues(a, Linking(input, u, row), faults, k);
  }

  lemma VouchedSucceeds(a: Accounts, input: Input, faults: nat -> bool)
    requires AccountsOk(a) && KindsOk(a) && IsGenuineIdentity(input.identity) && IsUnbound(a, input.identity)
    requires input.random.Some? && forall u <- a.users :: u.subject != Base64.Encode(Base64.Url, input.random.value)
    requires VouchedBy(input.identity) != "" && forall k :: !faults(k)
    ensures Succeeds(a, ByEmail(input), faults, 1) <==> !exists x <- a.identities :: Clashes(x, input.identity)
  {
    Continues(a, ByEmail(input), faults, 1);
    var found := FindByEmail(a.users, VouchedBy(input.identity));
    if found.Some? {
      LinkingSucceeds(a, input, found.value, a.users[found.value], faults, 2);
      LinkedUserClashes(a, input.identity, found.value);
    } else {
      CreatingSucceeds(a, input, faults, 2);
      NoUserNoClash(a, input.identity);
    }
  }

  /** Without faults, and with a fresh random subject, provisioning fails exactly when it is blocked. */
  lemma ProvisioningSucceedsExactly(actions: seq<Action>, input: Input, faults: nat -> bool)
    requires AllGenuine(actions) && IsGenuineIdentity(input.identity) && forall k :: !faults(k)
    requires input.random.Some?
    requires forall u <- Run(EMPTY, actions).accounts.users :: u.subject != Base64.Encode(Base64.Url, input.random.value)
    ensures var a := Run(EMPTY, actions).accounts;
            Succeeds(a, Start(input), faults, 0) <==> !IsBlocked(a, input.identity)
  {
    var a, id := Run(EMPTY, actions).accounts, input.identity;
    RunKeeps(EMPTY, actions);
    RunKeepsKinds(actions);
    Continues(a, Start(input), faults, 0);
    var found := FindIdentity(a.identities, id.provider, id.subject);
    if found.Some? {
      assert a.identities[found.value] in a.identities;
      Continues(a, Found(input, a.identities[found.value].user), faults, 1);
    } else if VouchedBy(id) != "" {
      VouchedSucceeds(a, input, faults);
    } else {
      CreatingSucceeds(a, input, faults, 1);
      FreshUserClashes(a, id, NewUser(input).email);
    }
  }

  /** Among plain subjects a new identity without a vouched address is never blocked. */
  lemma PlainSubjectsAlwaysSucceed(actions: seq<Action>, input: Input, faults: nat -> bool)
    requires AllGenuine(actions) && IsGenuineIdentity(input.identity) && forall k :: !faults(k)
    requires input.random.Some? && VouchedBy(input.identity) == ""
    requires forall u <- Run(EMPTY, actions).accounts.users :: u.subject != Base64.Encode(Base64.Url, input.random.value)
    requires IsPlain(input.identity.subject)
    requires forall x <- Run(EMPTY, actions).accounts.identities :: IsPlain(x.subject)
    ensures Succeeds(Run(EMPTY, actions).accounts, Start(input), faults, 0)
  {
    var a, id := Run(EMPTY, actions).accounts, input.identity;
    ProvisioningSucceedsExactly(actions, input, faults);
    if IsBlocked(a, id) {
      var x :| x in a.identities && Clashes(x, id);
      PlainIsKept(x.subject);
      PlainIsKept(id.subject);
      assert IsFor(x, id.provider, id.subject);
      assert false;
    }
  }

  /** Outside them it can be: after `a.b`, `a-b` from the same provider is refused. */
  lemma CollidingSubjects(first: Bytes, second: Bytes, faults: nat -> bool) returns (actions: seq<Action>, input: Input)
    requires first != second && forall k :: !faults(k)
    ensures AllGenuine(actions) && IsGenuineIdentity(input.identity) && input.identity.subject == "a-b"
    ensures Bound(Run(EMPTY, actions).accounts, "google", "a.b", 0)
    ensures !Succeeds(Run(EMPTY, actions).accounts, Start(input), faults, 0)
  {
    var one := Input(Identity("google", "a.b", "", false, ""), Some(first));
    input := Input(Identity("google", "a-b", "", false, ""), Some(second));
    actions := [Begin(0, one), Advance(0, false), Advance(0, false)];
    var a := RunOfOne(one);
    assert BoundAt(a, 0, "google", "a.b", 0);
    if Base64.Encode(Base64.Url, first) == Base64.Encode(Base64.Url, second) {
      Base64.EncodeInjective(Base64.Url, first, second);
    }
    assert IsReserved("") == false;
    assert Sanitise("a.b") == "a-b";
    ProvisioningSucceedsExactly(actions, input, faults);
    assert Clashes(a.identities[0], input.identity);
  }

  lemma RunOfOne(input: Input) returns (a: Accounts)
    requires input.random.Some? && VouchedBy(input.identity) == ""
    ensures a == Accounts([NewUser(input)], [NewRow(0, input.identity)])
    ensures Run(EMPTY, [Begin(0, input), Advance(0, false), Advance(0, false)]).accounts == a
  {
    a := Accounts([NewUser(input)], [NewRow(0, input.identity)]);
    var begin, advance := Begin(0, input), Advance(0, false);
    RunOne(EMPTY, begin);
    var u := Exec(EMPTY, begin);
    RunConcat(EMPTY, [begin], [advance]);
    RunOne(u, advance);
    var v := Exec(u, advance);
    assert v == World(EMPTY.accounts, map[0 := Creating(input)]);
    RunConcat(EMPTY, [begin] + [advance], [advance]);
    RunOne(v, advance);
    assert [begin] + [advance] + [advance] == [begin, advance, advance];
  }
}
