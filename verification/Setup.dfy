/**
  Claiming the first operator's seat. A setup request looks at the table without a
  lock, checks its form, and then claims the seat in a transaction that holds one
  advisory lock; requests interleave between any two statements.
*/
module Setup {
  import opened Prelude
  import opened Models
  import Base64
  import Oauth
  import Password
  import Sessions
  import Text

  datatype Settings = Settings(sha: Digest, kdf: Password.KeyDerivation, sessionTtl: int)

  datatype Operator = Operator(email: string, passwordHash: string)

  /** A 16-byte salt and a 32-byte token buffer; None when the random source fails. */
  type Salt = b: Bytes | |b| == Password.DEFAULT_PARAMS.saltLength witness seq(16, _ => 0)

  datatype Form = Form(email: string, password: string, confirm: string, salt: Option<Salt>, random: Option<Bytes>)

  /** The committed operators, who holds the lock, and the operator sessions with their history. */
  datatype Db = Db(
    operators: seq<Operator>, lock: Option<nat>, sessions: Sessions.Store, history: seq<Sessions.Event>)

  datatype FormError = PasswordsDiffer | InvalidEmail | PasswordTooShort

  datatype Outcome =
    | ToLogin
    | ShowForm(error: FormError)
    | ServerError
    | SetUp(operator: nat, token: string)

  /** `claimed` is the row a request has committed, if any. */
  datatype State =
    | UStart(form: Form)
    | UCounted(form: Form)
    | UHashed(form: Form, row: Operator)
    | ULocked(form: Form, row: Operator)
    | UChecked(form: Form, row: Operator)
    | UInserted(form: Form, row: Operator)
    | UClaimed(form: Form, id: nat)
    | UDone(form: Form, outcome: Outcome, claimed: Option<nat>)

  /** What a statement meets: it works, it fails without effect, or it works and its answer is lost. */
  datatype Fate = Works | Fails | AnswerLost

  function Fail(form: Form): State {
    UDone(form, ServerError, None)
  }

  function CheckForm(form: Form): Option<FormError> {
    if form.password != form.confirm then Some(PasswordsDiffer)
    else if Text.TrimSpace(form.email) == "" || '@' !in Text.TrimSpace(form.email) then Some(InvalidEmail)
    else if Text.ByteLen(form.password) < 8 then Some(PasswordTooShort)
    else None
  }

  /** The local part of the handler: checks, then hashing. */
  function HashForm(s: Settings, form: Form): State {
    if CheckForm(form).Some? then UDone(form, ShowForm(CheckForm(form).value), None)
    else if form.salt == None then Fail(form)
    else
      match Password.HashPassword(s.kdf, form.password, Password.DEFAULT_PARAMS, form.salt.value)
      case Encoded(text) => UHashed(form, Operator(Text.TrimSpace(form.email), text))
      case HashPanics => Fail(form)
  }

  function SessionEvent(s: Settings, now: int, id: nat, token: string): Sessions.Event {
    Sessions.Created(now, token, id, s.sessionTtl)
  }

  function CreateSession(s: Settings, db: Db, now: int, form: Form, id: nat): (Db, State) {
    var lost := UDone(form, ServerError, Some(id));
    if form.random == None then (db, lost)
    else
      var token := Oauth.FromRandom(form.random.value);
      match Sessions.After(s.sha, db.sessions, SessionEvent(s, now, id, token))
      case None => (db, lost)
      case Some(next) =>
        (db.(sessions := next, history := db.history + [SessionEvent(s, now, id, token)]),
         UDone(form, SetUp(id, token), Some(id)))
  }

  function Rollback(db: Db): Db {
    db.(lock := None)
  }

  /**
    One statement of request r. Waiting for the lock changes nothing. A commit
    publishes the row and frees the lock at once.
  */
  function Step(s: Settings, db: Db, now: int, r: nat, fate: Fate, st: State): (Db, State) {
    match st
    case UStart(form) =>
      (db, if !fate.Works? then Fail(form) else if |db.operators| >= 1 then UDone(form, ToLogin, None) else UCounted(form))
    case UCounted(form) => (db, HashForm(s, form))
    case UHashed(form, row) =>
      if fate.Fails? then (db, Fail(form))
      else if db.lock.Some? then (db, st)
      else if fate.AnswerLost? then (db, Fail(form))
      else (db.(lock := Some(r)), ULocked(form, row))
    case ULocked(form, row) =>
      if !fate.Works? then (Rollback(db), Fail(form))
      else if |db.operators| > 0 then (Rollback(db), UDone(form, ToLogin, None))
      else (db, UChecked(form, row))
    case UChecked(form, row) =>
      if !fate.Works? then (Rollback(db), Fail(form)) else (db, UInserted(form, row))
    case UInserted(form, row) =>
      if fate.Fails? then (Rollback(db), Fail(form))
      else
        var id := |db.operators|;
        (db.(operators := db.operators + [row], lock := None),
         if fate.Works? then UClaimed(form, id) else UDone(form, ServerError, Some(id)))
    case UClaimed(form, id) =>
      if fate.Works? then CreateSession(s, db, now, form, id) else (db, UDone(form, ServerError, Some(id)))
    case UDone(_, _, _) => (db, st)
  }

  // Many requests

  /** `authors` says which request committed each operator. */
  datatype World = World(db: Db, now: int, requests: map<nat, State>, authors: seq<nat>)

  datatype Action =
    | Tick(duration: nat)
    | Begin(request: nat, form: Form)
    | Advance(request: nat, fate: Fate)
    | ChangeSessions(event: Sessions.Event)

  function Initial(now: int): World {
    World(Db([], None, Sessions.EMPTY, []), now, map[], [])
  }

  function Exec(s: Settings, w: World, a: Action): World {
    match a
    case Tick(duration) => w.(now := w.now + duration)
    case Begin(r, form) => if r in w.requests then w else w.(requests := w.requests[r := UStart(form)])
    case Advance(r, fate) =>
      if r !in w.requests then w
      else
        var (db, st) := Step(s, w.db, w.now, r, fate, w.requests[r]);
        w.(db := db, requests := w.requests[r := st],
           authors := if |db.operators| > |w.db.operators| then w.authors + [r] else w.authors)
    case ChangeSessions(event) =>
      var next := Sessions.After(s.sha, w.db.sessions, event);
      if next == None || event.at > w.now then w
      else w.(db := w.db.(sessions := next.value, history := w.db.history + [event]))
  }

  function Run(s: Settings, w: World, actions: seq<Action>): World {
    if actions == [] then w else Exec(s, Run(s, w, actions[..|actions| - 1]), actions[|actions| - 1])
  }

  // The invariant

  predicate InTransaction(st: State) {
    st.ULocked? || st.UChecked? || st.UInserted?
  }

  function Claimed(st: State): Option<nat> {
    match st
    case UClaimed(_, id) => Some(id)
    case UDone(_, _, claimed) => claimed
    case _ => None
  }

  /** The password twice and long enough, and something like an address. */
  predicate IsGood(form: Form) {
    && form.password == form.confirm && Text.ByteLen(form.password) >= 8
    && Text.TrimSpace(form.email) != "" && '@' in Text.TrimSpace(form.email)
  }

  /** What a form is shown again for: the passwords first, then the address, then the length. */
  predicate IsFaultOf(form: Form, error: FormError) {
    var good := Text.TrimSpace(form.email) != "" && '@' in Text.TrimSpace(form.email);
    match error
    case PasswordsDiffer => form.password != form.confirm
    case InvalidEmail => form.password == form.confirm && !good
    case PasswordTooShort => form.password == form.confirm && good && Text.ByteLen(form.password) < 8
  }

  lemma FormsCheckedExactly(form: Form)
    ensures CheckForm(form) == None <==> IsGood(form)
    ensures CheckForm(form).Some? ==> IsFaultOf(form, CheckForm(form).value)
  {
  }

  /** The row holds the good form's trimmed address and a hash of its password. */
  predicate IsRowOf(s: Settings, form: Form, row: Operator) {
    && IsGood(form)
    && row.email == Text.TrimSpace(form.email)
    && form.salt.Some?
    && Password.HashPassword(s.kdf, form.password, Password.DEFAULT_PARAMS, form.salt.value) == Password.Encoded(row.passwordHash)
  }

  predicate IsCreation(s: Settings, e: Sessions.Event, token: string, id: nat) {
    e.Created? && e.token == token && e.owner == id && e.ttl == s.sessionTtl
  }

  predicate HasSession(s: Settings, history: seq<Sessions.Event>, token: string, id: nat) {
    exists e <- history :: IsCreation(s, e, token, id)
  }

  ghost predicate RequestOk(s: Settings, w: World, r: nat, st: State) {
    && (InTransaction(st) <==> w.db.lock == Some(r))
    && (st.UChecked? || st.UInserted? ==> w.db.operators == [])
    && (st.UHashed? || InTransaction(st) ==> IsRowOf(s, st.form, st.row))
    && (Claimed(st).Some? ==>
          Claimed(st) == Some(0) && w.authors == [r] && |w.db.operators| == 1 && IsRowOf(s, st.form, w.db.operators[0]))
    && (st.UDone? && st.outcome.SetUp? ==>
          && st.claimed == Some(st.outcome.operator)
          && HasSession(s, w.db.history, st.outcome.token, st.outcome.operator))
    && (st.UDone? && (st.outcome.ToLogin? || st.outcome.ShowForm?) ==> st.claimed == None)
    && (st.UDone? && st.outcome.ShowForm? ==> IsFaultOf(st.form, st.outcome.error))
  }

  ghost predicate Inv(s: Settings, w: World) {
    && |w.authors| == |w.db.operators| <= 1
    && (forall r <- w.authors :: r in w.requests && Claimed(w.requests[r]).Some?)
    && (w.db.lock.Some? ==> w.db.lock.value in w.requests)
    && Sessions.Represents(s.sha, w.db.sessions, w.db.history)
    && Sessions.Until(w.db.history, w.now)
    && (forall r <- w.requests :: RequestOk(s, w, r, w.requests[r]))
  }

  lemma SessionEventKeeps(s: Settings, w: World, event: Sessions.Event)
    requires Inv(s, w) && event.at <= w.now && Sessions.After(s.sha, w.db.sessions, event).Some?
    ensures var w' := w.(db := w.db.(sessions := Sessions.After(s.sha, w.db.sessions, event).value,
                                     history := w.db.history + [event]));
            Inv(s, w')
  {
    Sessions.AfterRepresents(s.sha, w.db.sessions, w.db.history, event);
    var w' := w.(db := w.db.(sessions := Sessions.After(s.sha, w.db.sessions, event).value,
                             history := w.db.history + [event]));
    forall r <- w'.requests ensures RequestOk(s, w', r, w'.requests[r]) {
      assert RequestOk(s, w, r, w.requests[r]);
    }
  }

  /** Request r moves on and the tables stay. */
  lemma QuietKeeps(s: Settings, w: World, r: nat, st: State)
    requires Inv(s, w) && r in w.requests && RequestOk(s, w, r, st)
    requires Claimed(w.requests[r]).Some? ==> Claimed(st).Some?
    ensures Inv(s, w.(requests := w.requests[r := st]))
  {
    var w' := w.(requests := w.requests[r := st]);
    forall q <- w'.requests ensures RequestOk(s, w', q, w'.requests[q]) {
      assert RequestOk(s, w, q, if q == r then st else w.requests[q]);
    }
  }

  /** Request r takes or frees the lock. */
  lemma LockKeeps(s: Settings, w: World, r: nat, st: State, lock: Option<nat>)
    requires Inv(s, w) && r in w.requests && Claimed(w.requests[r]).None? && Claimed(st).None?
    requires if w.db.lock == None then lock == Some(r) else w.db.lock == Some(r) && lock == None
    requires RequestOk(s, w.(db := w.db.(lock := lock)), r, st)
    ensures Inv(s, w.(db := w.db.(lock := lock), requests := w.requests[r := st]))
  {
    var w' := w.(db := w.db.(lock := lock), requests := w.requests[r := st]);
    forall q <- w'.requests ensures RequestOk(s, w', q, w'.requests[q]) {
      if q != r {
        assert RequestOk(s, w, q, w.requests[q]);
      }
    }
  }

  lemma CommitKeeps(s: Settings, w: World, r: nat, st: State)
    requires Inv(s, w) && r in w.requests && w.requests[r].UInserted?
    requires st.form == w.requests[r].form
    requires (st.UClaimed? && st.id == 0) || st == UDone(st.form, ServerError, Some(0))
    ensures Inv(s, w.(db := w.db.(operators := [w.requests[r].row], lock := None),
                      requests := w.requests[r := st], authors := [r]))
  {
    var w' := w.(db := w.db.(operators := [w.requests[r].row], lock := None),
                 requests := w.requests[r := st], authors := [r]);
    assert RequestOk(s, w, r, w.requests[r]);
    forall q <- w'.requests ensures RequestOk(s, w', q, w'.requests[q]) {
      if q != r {
        assert RequestOk(s, w, q, w.requests[q]);
      }
    }
  }

  lemma SessionKeeps(s: Settings, w: World, r: nat)
    requires Inv(s, w) && r in w.requests && w.requests[r].UClaimed?
    ensures Inv(s, Exec(s, w, Advance(r, Works)))
  {
    var form, id := w.requests[r].form, w.requests[r].id;
    var (db, st) := CreateSession(s, w.db, w.now, form, id);
    assert RequestOk(s, w, r, w.requests[r]);
    assert Exec(s, w, Advance(r, Works)) == w.(db := db, requests := w.requests[r := st]);
    if st.outcome.SetUp? {
      SessionCreatedKeeps(s, w, r, form, id);
    } else {
      QuietKeeps(s, w, r, st);
    }
  }

  lemma SessionCreatedKeeps(s: Settings, w: World, r: nat, form: Form, id: nat)
    requires Inv(s, w) && r in w.requests && w.requests[r] == UClaimed(form, id) && form.random.Some?
    requires CreateSession(s, w.db, w.now, form, id).1.outcome.SetUp?
    ensures var (db, st) := CreateSession(s, w.db, w.now, form, id);
            Inv(s, w.(db := db, requests := w.requests[r := st]))
  {
    var token := Oauth.FromRandom(form.random.value);
    var event := SessionEvent(s, w.now, id, token);
    var next := Sessions.After(s.sha, w.db.sessions, event);
    SessionEventKeeps(s, w, event);
    assert IsCreation(s, event, token, id);
    var u := w.(db := w.db.(sessions := next.value, history := w.db.history + [event]));
    assert RequestOk(s, w, r, w.requests[r]);
    QuietKeeps(s, u, r, UDone(form, SetUp(id, token), Some(id)));
  }

  lemma HashFormOk(s: Settings, w: World, r: nat, form: Form)
    requires w.db.lock != Some(r)
    ensures RequestOk(s, w, r, HashForm(s, form)) && Claimed(HashForm(s, form)) == None
  {
    FormsCheckedExactly(form);
  }

  /** A step that leaves the tables alone and neither takes nor frees the lock. */
  lemma QuietStepOk(s: Settings, w: World, r: nat, fate: Fate, st: State)
    requires RequestOk(s, w, r, st) && !(st.UClaimed? && fate.Works?)
    requires Step(s, w.db, w.now, r, fate, st).0 == w.db
    ensures RequestOk(s, w, r, Step(s, w.db, w.now, r, fate, st).1)
    ensures Claimed(st).Some? ==> Claimed(Step(s, w.db, w.now, r, fate, st).1).Some?
  {
    if st.UCounted? {
      HashFormOk(s, w, r, st.form);
    } else if InTransaction(st) {
      InsideStepOk(s, w, r, fate, st);
    } else if st.UHashed? {
      WaitingOk(s, w, r, fate, st);
    }
  }

  lemma WaitingOk(s: Settings, w: World, r: nat, fate: Fate, st: State)
    requires RequestOk(s, w, r, st) && st.UHashed?
    requires Step(s, w.db, w.now, r, fate, st).0 == w.db
    ensures RequestOk(s, w, r, Step(s, w.db, w.now, r, fate, st).1)
  {
  }

  lemma InsideStepOk(s: Settings, w: World, r: nat, fate: Fate, st: State)
    requires RequestOk(s, w, r, st) && InTransaction(st)
    requires Step(s, w.db, w.now, r, fate, st).0 == w.db
    ensures RequestOk(s, w, r, Step(s, w.db, w.now, r, fate, st).1)
    ensures Claimed(st).None?
  {
  }

  lemma LockStepOk(s: Settings, w: World, r: nat, fate: Fate, st: State)
    requires RequestOk(s, w, r, st) && !st.UClaimed? && !(st.UInserted? && !fate.Fails?)
    requires Step(s, w.db, w.now, r, fate, st).0 != w.db
    ensures var (db, next) := Step(s, w.db, w.now, r, fate, st);
            && Claimed(st).None? && Claimed(next).None?
            && db == w.db.(lock := db.lock)
            && (if w.db.lock == None then db.lock == Some(r) else w.db.lock == Some(r) && db.lock == None)
            && RequestOk(s, w.(db := db), r, next)
  {
  }

  lemma AdvanceKeeps(s: Settings, w: World, r: nat, fate: Fate)
    requires Inv(s, w) && r in w.requests
    ensures Inv(s, Exec(s, w, Advance(r, fate)))
  {
    var st := w.requests[r];
    if st.UInserted? && !fate.Fails? {
      assert RequestOk(s, w, r, st);
      CommitKeeps(s, w, r, Step(s, w.db, w.now, r, fate, st).1);
    } else if st.UClaimed? && fate.Works? {
      SessionKeeps(s, w, r);
    } else {
      OtherStepKeeps(s, w, r, fate);
    }
  }

  /** A step that neither commits nor makes a session. */
  lemma OtherStepKeeps(s: Settings, w: World, r: nat, fate: Fate)
    requires Inv(s, w) && r in w.requests
    requires !(w.requests[r].UInserted? && !fate.Fails?) && !(w.requests[r].UClaimed? && fate.Works?)
    ensures Inv(s, Exec(s, w, Advance(r, fate)))
  {
    var st := w.requests[r];
    var (db, next) := Step(s, w.db, w.now, r, fate, st);
    assert RequestOk(s, w, r, st);
    if db == w.db {
      QuietStepOk(s, w, r, fate, st);
      QuietKeeps(s, w, r, next);
    } else {
      LockStepOk(s, w, r, fate, st);
      LockKeeps(s, w, r, next, db.lock);
    }
  }

  lemma ExecKeeps(s: Settings, w: World, a: Action)
    requires Inv(s, w)
    ensures Inv(s, Exec(s, w, a))
  {
    var w' := Exec(s, w, a);
    match a
    case Advance(r, fate) =>
      if r in w.requests {
        AdvanceKeeps(s, w, r, fate);
      }
    case ChangeSessions(event) =>
      if Sessions.After(s.sha, w.db.sessions, event).Some? && event.at <= w.now {
        SessionEventKeeps(s, w, event);
      }
    case _ =>
      forall r <- w'.requests ensures RequestOk(s, w', r, w'.requests[r]) {
        assert r in w.requests ==> RequestOk(s, w, r, w.requests[r]);
      }
  }

  lemma {:induction false} RunKeeps(s: Settings, start: int, actions: seq<Action>)
    ensures Inv(s, Run(s, Initial(start), actions))
  {
    if actions != [] {
      RunKeeps(s, start, actions[..|actions| - 1]);
      ExecKeeps(s, Run(s, Initial(start), actions[..|actions| - 1]), actions[|actions| - 1]);
    }
  }

  lemma {:induction false} RunConcat(s: Settings, w: World, a: seq<Action>, b: seq<Action>)
    ensures Run(s, w, a + b) == Run(s, Run(s, w, a), b)
  {
    if b == [] {
      assert a + b == a;
    } else {
      RunConcat(s, w, a, b[..|b| - 1]);
      assert (a + b)[..|a + b| - 1] == a + b[..|b| - 1];
    }
  }

  // Main results

  function Reached(s: Settings, start: int, actions: seq<Action>): World {
    Run(s, Initial(start), actions)
  }

  lemma {:induction false} OperatorsOnlyAppear(s: Settings, w: World, actions: seq<Action>)
    ensures w.db.operators <= Run(s, w, actions).db.operators && w.authors <= Run(s, w, actions).authors
  {
    if actions != [] {
      OperatorsOnlyAppear(s, w, actions[..|actions| - 1]);
    }
  }

  /** There is never more than one operator, and the first one stays as it is. */
  lemma OneSeat(s: Settings, start: int, first: seq<Action>, more: seq<Action>)
    ensures var before, after := Reached(s, start, first).db.operators, Reached(s, start, first + more).db.operators;
            |after| <= 1 && (|before| == 1 ==> after == before)
  {
    RunKeeps(s, start, first + more);
    RunConcat(s, Initial(start), first, more);
    OperatorsOnlyAppear(s, Reached(s, start, first), more);
  }

  /** A request that finished without a committed row added none, at any time. */
  lemma LosersLeaveNoTrace(s: Settings, start: int, first: seq<Action>, more: seq<Action>, r: nat)
    requires var w := Reached(s, start, first);
             r in w.requests && w.requests[r].UDone? && w.requests[r].claimed == None
    ensures r !in Reached(s, start, first + more).authors
  {
    RunKeeps(s, start, first + more);
    RunConcat(s, Initial(start), first, more);
    DoneStays(s, Reached(s, start, first), more, r);
  }

  lemma {:induction false} DoneStays(s: Settings, w: World, actions: seq<Action>, r: nat)
    requires r in w.requests && w.requests[r].UDone?
    ensures r in Run(s, w, actions).requests && Run(s, w, actions).requests[r] == w.requests[r]
  {
    if actions != [] {
      DoneStays(s, w, actions[..|actions| - 1], r);
    }
  }

  /** Being sent to the login page, or back to the form, means having claimed nothing. */
  lemma TurnedAwayIsALoss(s: Settings, start: int, actions: seq<Action>, r: nat)
    requires var w := Reached(s, start, actions);
             r in w.requests && w.requests[r].UDone? && (w.requests[r].outcome.ToLogin? || w.requests[r].outcome.ShowForm?)
    ensures r !in Reached(s, start, actions).authors
  {
    RunKeeps(s, start, actions);
    assert RequestOk(s, Reached(s, start, actions), r, Reached(s, start, actions).requests[r]);
  }

  lemma RowVerifies(s: Settings, form: Form, row: Operator)
    requires IsRowOf(s, form, row)
    ensures Password.VerifyPassword(s.kdf, form.password, row.passwordHash) == Password.Match
  {
    Password.HashThenVerify(s.kdf, form.password, Password.DEFAULT_PARAMS, form.salt.value);
  }

  /**
    The one operator has the winner's trimmed address, which holds an `@`, and a hash
    that the password, given twice and long enough, verifies against. The winner's
    session was created for that operator.
  */
  lemma WinnerOwnsSeatAndSession(s: Settings, start: int, actions: seq<Action>, r: nat)
    requires var w := Reached(s, start, actions);
             r in w.requests && w.requests[r].UDone? && w.requests[r].outcome.SetUp?
    ensures var w := Reached(s, start, actions);
            var form, out := w.requests[r].form, w.requests[r].outcome;
            && out.operator == 0 && |w.db.operators| == 1
            && form.password == form.confirm && Text.ByteLen(form.password) >= 8
            && w.db.operators[0].email == Text.TrimSpace(form.email) != "" && '@' in w.db.operators[0].email
            && Password.VerifyPassword(s.kdf, form.password, w.db.operators[0].passwordHash) == Password.Match
            && HasSession(s, w.db.history, out.token, out.operator)
  {
    var w := Reached(s, start, actions);
    RunKeeps(s, start, actions);
    assert RequestOk(s, w, r, w.requests[r]);
    RowVerifies(s, w.requests[r].form, w.db.operators[0]);
  }

  /** A form is shown again exactly for its first fault, in every run. */
  lemma FormShownForItsFault(s: Settings, start: int, actions: seq<Action>, r: nat)
    requires var w := Reached(s, start, actions);
             r in w.requests && w.requests[r].UDone? && w.requests[r].outcome.ShowForm?
    ensures var st := Reached(s, start, actions).requests[r];
            var good := Text.TrimSpace(st.form.email) != "" && '@' in Text.TrimSpace(st.form.email);
            if st.form.password != st.form.confirm then st.outcome.error == PasswordsDiffer
            else if !good then st.outcome.error == InvalidEmail
            else st.outcome.error == PasswordTooShort && Text.ByteLen(st.form.password) < 8
  {
    RunKeeps(s, start, actions);
    assert RequestOk(s, Reached(s, start, actions), r, Reached(s, start, actions).requests[r]);
  }

  /** At most one request ever sets up the seat. */
  lemma OneWinner(s: Settings, start: int, actions: seq<Action>, q: nat, r: nat)
    requires var w := Reached(s, start, actions);
             && q in w.requests && w.requests[q].UDone? && w.requests[q].outcome.SetUp?
             && r in w.requests && w.requests[r].UDone? && w.requests[r].outcome.SetUp?
    ensures q == r
  {
    var w := Reached(s, start, actions);
    RunKeeps(s, start, actions);
    assert RequestOk(s, w, q, w.requests[q]) && RequestOk(s, w, r, w.requests[r]);
  }

  function StatementsLeft(st: State): nat {
    if st.ULocked? then 3 else if st.UChecked? then 2 else if st.UInserted? then 1 else 0
  }

  lemma HolderMoves(s: Settings, w: World, r: nat, fate: Fate)
    requires r in w.requests && InTransaction(w.requests[r]) && w.db.lock == Some(r)
    ensures var u := Exec(s, w, Advance(r, fate));
            || u.db.lock == None
            || (u.db.lock == Some(r) && r in u.requests && InTransaction(u.requests[r])
                && StatementsLeft(u.requests[r]) < StatementsLeft(w.requests[r]))
  {
  }

  /** Some prefix of these steps of r frees the lock. */
  ghost predicate Frees(s: Settings, w: World, r: nat, fates: seq<Fate>)
    decreases |fates|
  {
    fates != [] &&
    var u := Exec(s, w, Advance(r, fates[0]));
    u.db.lock == None || Frees(s, u, r, fates[1..])
  }

  /** Whoever holds the lock frees it within three of its own steps, whatever these meet. */
  lemma {:induction false} HolderFreesTheLock(s: Settings, w: World, r: nat, fates: seq<Fate>)
    requires Inv(s, w) && w.db.lock == Some(r) && |fates| >= StatementsLeft(w.requests[r])
    ensures Frees(s, w, r, fates)
    decreases StatementsLeft(w.requests[r])
  {
    assert RequestOk(s, w, r, w.requests[r]);
    HolderMoves(s, w, r, fates[0]);
    var u := Exec(s, w, Advance(r, fates[0]));
    if u.db.lock != None {
      AdvanceKeeps(s, w, r, fates[0]);
      HolderFreesTheLock(s, u, r, fates[1..]);
    }
  }

  // The handler as it is written, with nobody in between

  function Rank(st: State): nat {
    match st
    case UStart(_) => 7
    case UCounted(_) => 6
    case UHashed(_, _) => 5
    case ULocked(_, _) => 4
    case UChecked(_, _) => 3
    case UInserted(_, _) => 2
    case UClaimed(_, _) => 1
    case UDone(_, _, _) => 0
  }

  /** r holds the lock if it is in its transaction, and otherwise nobody does. */
  predicate OnlyHolder(db: Db, r: nat, st: State) {
    db.lock == if InTransaction(st) then Some(r) else None
  }

  lemma StepDrops(s: Settings, db: Db, now: int, r: nat, fate: Fate, st: State)
    requires !st.UDone? && OnlyHolder(db, r, st)
    ensures var (db', st') := Step(s, db, now, r, fate, st);
            OnlyHolder(db', r, st') && Rank(st') < Rank(st)
  {
  }

  /** Request r runs to its end; it never waits, as nobody else holds the lock. */
  function Alone(s: Settings, db: Db, now: int, r: nat, st: State, fates: nat -> Fate): (Db, State)
    requires OnlyHolder(db, r, st)
    decreases Rank(st)
  {
    if st.UDone? then (db, st)
    else
      var (db', st') := Step(s, db, now, r, fates(Rank(st)), st);
      StepDrops(s, db, now, r, fates(Rank(st)), st);
      Alone(s, db', now, r, st', fates)
  }

  /** It is one of the interleavings. */
  lemma {:induction false} AloneIsRun(s: Settings, w: World, r: nat, fates: nat -> Fate) returns (actions: seq<Action>)
    requires r in w.requests && OnlyHolder(w.db, r, w.requests[r])
    ensures var v := Run(s, w, actions);
            r in v.requests && (v.db, v.requests[r]) == Alone(s, w.db, w.now, r, w.requests[r], fates)
    decreases Rank(w.requests[r])
  {
    if w.requests[r].UDone? {
      actions := [];
    } else {
      var first := Advance(r, fates(Rank(w.requests[r])));
      var v := Exec(s, w, first);
      StepDrops(s, w.db, w.now, r, first.fate, w.requests[r]);
      assert [first][..0] == [] && Run(s, w, []) == w;
      var rest := AloneIsRun(s, v, r, fates);
      RunConcat(s, w, [first], rest);
      actions := [first] + rest;
    }
  }

  // What a request gets that nothing interrupts and no statement fails for

  ghost predicate NoFaults(fates: nat -> Fate) {
    forall k :: fates(k) == Works
  }

  lemma Continues(s: Settings, db: Db, now: int, r: nat, st: State, fates: nat -> Fate)
    requires NoFaults(fates) && !st.UDone? && OnlyHolder(db, r, st)
    ensures var (db', st') := Step(s, db, now, r, Works, st);
            OnlyHolder(db', r, st') && Alone(s, db, now, r, st, fates) == Alone(s, db', now, r, st', fates)
  {
    StepDrops(s, db, now, r, Works, st);
  }

  /** From the hashed row to the committed one. */
  lemma ClaimsTheSeat(s: Settings, db: Db, now: int, r: nat, form: Form, row: Operator, fates: nat -> Fate)
    requires NoFaults(fates) && db.lock == None && db.operators == []
    ensures Alone(s, db, now, r, UHashed(form, row), fates)
            == Alone(s, db.(operators := [row]), now, r, UClaimed(form, 0), fates)
  {
    var locked := db.(lock := Some(r));
    Continues(s, db, now, r, UHashed(form, row), fates);
    Continues(s, locked, now, r, ULocked(form, row), fates);
    Continues(s, locked, now, r, UChecked(form, row), fates);
    Continues(s, locked, now, r, UInserted(form, row), fates);
    assert locked.(operators := [] + [row], lock := None) == db.(operators := [row]);
  }

  /** The answer to a lone request: the seat is taken, the form has a fault, or the request gets the seat and a session. */
  ghost predicate IsAnswered(s: Settings, db: Db, now: int, form: Form, result: (Db, State)) {
    && result.1.UDone?
    && (db.operators != [] ==> result.0 == db && result.1.outcome == ToLogin)
    && (db.operators == [] && !IsGood(form) ==>
          result.0 == db && result.1.outcome.ShowForm? && IsFaultOf(form, result.1.outcome.error))
    && (db.operators == [] && IsGood(form) && CanSetUp(s, db, form) ==> IsSeated(s, db, now, form, result))
    && (db.operators == [] && IsGood(form) && !CanSetUp(s, db, form) ==> result.1.outcome == ServerError)
  }

  /** The random source works and the token is new. */
  predicate CanSetUp(s: Settings, db: Db, form: Form) {
    && form.salt.Some? && form.random.Some?
    && s.sha(Base64.Encode(Base64.Url, form.random.value)) !in db.sessions.rows
  }

  /** The first operator, with the address and a hash the password verifies against, and a session for the token sent. */
  predicate IsSeated(s: Settings, db: Db, now: int, form: Form, result: (Db, State))
    requires form.random.Some?
  {
    && result.1.UDone? && HasNewSession(s, db, now, form, result)
    && |result.0.operators| == 1 && result.0.operators[0].email == Text.TrimSpace(form.email)
    && Password.VerifyPassword(s.kdf, form.password, result.0.operators[0].passwordHash) == Password.Match
    && result.0.lock == db.lock
  }

  /** A session of operator 0 for the token sent. */
  predicate HasNewSession(s: Settings, db: Db, now: int, form: Form, result: (Db, State))
    requires form.random.Some? && result.1.UDone?
  {
    var token := Base64.Encode(Base64.Url, form.random.value);
    && result.1.outcome == SetUp(0, token)
    && result.0.history == db.history + [Sessions.Created(now, token, 0, s.sessionTtl)]
  }

  lemma FormIsLooked(s: Settings, db: Db, now: int, r: nat, form: Form, fates: nat -> Fate)
    requires NoFaults(fates) && db.lock == None && db.operators == []
    ensures Alone(s, db, now, r, UStart(form), fates) == Alone(s, db, now, r, HashForm(s, form), fates)
  {
    Continues(s, db, now, r, UStart(form), fates);
    Continues(s, db, now, r, UCounted(form), fates);
  }

  lemma GoodFormIsHashed(s: Settings, form: Form)
    requires IsGood(form) && form.salt.Some?
    ensures var st := HashForm(s, form);
            && st.UHashed? && st.form == form && st.row.email == Text.TrimSpace(form.email)
            && Password.VerifyPassword(s.kdf, form.password, st.row.passwordHash) == Password.Match
  {
    FormsCheckedExactly(form);
    Password.HashThenVerify(s.kdf, form.password, Password.DEFAULT_PARAMS, form.salt.value);
  }

  lemma GoodFormIsSeated(s: Settings, db: Db, now: int, r: nat, form: Form, fates: nat -> Fate)
    requires NoFaults(fates) && db.lock == None && db.operators == [] && IsGood(form) && form.salt.Some?
    ensures var result := Alone(s, db, now, r, UStart(form), fates);
            if CanSetUp(s, db, form) then IsSeated(s, db, now, form, result)
            else result.1.UDone? && result.1.outcome == ServerError
  {
    FormIsLooked(s, db, now, r, form, fates);
    GoodFormIsHashed(s, form);
    var row := HashForm(s, form).row;
    var seated := db.(operators := [row]);
    ClaimsTheSeat(s, db, now, r, form, row, fates);
    ClaimGetsSession(s, seated, now, r, form, fates);
  }

  lemma ClaimGetsSession(s: Settings, db: Db, now: int, r: nat, form: Form, fates: nat -> Fate)
    requires NoFaults(fates) && db.lock == None && form.salt.Some?
    ensures var result := Alone(s, db, now, r, UClaimed(form, 0), fates);
            && result.0.operators == db.operators && result.0.lock == db.lock && result.1.UDone?
            && if CanSetUp(s, db, form) then HasNewSession(s, db, now, form, result)
               else result.1.outcome == ServerError
  {
    Continues(s, db, now, r, UClaimed(form, 0), fates);
    var (db', st) := CreateSession(s, db, now, form, 0);
    DoneIsDone(s, db', now, r, st, fates);
  }

  lemma DoneIsDone(s: Settings, db: Db, now: int, r: nat, st: State, fates: nat -> Fate)
    requires st.UDone? && OnlyHolder(db, r, st)
    ensures Alone(s, db, now, r, st, fates) == (db, st)
  {
  }

  lemma FaultyFormIsShown(s: Settings, db: Db, now: int, r: nat, form: Form, fates: nat -> Fate)
    requires NoFaults(fates) && db.lock == None && db.operators == [] && !(IsGood(form) && form.salt.Some?)
    ensures var result := Alone(s, db, now, r, UStart(form), fates);
            && result.0 == db && result.1.UDone?
            && if IsGood(form) then result.1.outcome == ServerError
               else result.1.outcome.ShowForm? && IsFaultOf(form, result.1.outcome.error)
  {
    FormIsLooked(s, db, now, r, form, fates);
    FormsCheckedExactly(form);
  }

  /** Exactly what a lone request is answered: on an empty table a good form sets up the seat. */
  lemma LoneRequestsAreAnswered(s: Settings, db: Db, now: int, r: nat, form: Form, fates: nat -> Fate)
    requires NoFaults(fates) && db.lock == None
    ensures IsAnswered(s, db, now, form, Alone(s, db, now, r, UStart(form), fates))
  {
    if db.operators != [] {
      Continues(s, db, now, r, UStart(form), fates);
    } else if IsGood(form) && form.salt.Some? {
      GoodFormIsSeated(s, db, now, r, form, fates);
    } else {
      FaultyFormIsShown(s, db, now, r, form, fates);
    }
  }

  class App {
    const s: Settings
    var operators: seq<Operator>
    var sessions: Sessions.Store
    ghost var history: seq<Sessions.Event>

    ghost function Tables(): Db
      reads this
    {
      Db(operators, None, sessions, history)
    }

    constructor (s: Settings)
      ensures this.s == s && Tables() == Initial(0).db
    {
      this.s := s;
      operators, sessions, history := [], Sessions.EMPTY, [];
    }

    /** None when the seat is taken or the transaction failed; `taken` tells which. */
    method CreateFirstOperator(row: Operator, fates: nat -> Fate, ghost form: Form, ghost r: nat, ghost now: int)
      returns (id: Option<nat>, taken: bool, ghost claimed: Option<nat>)
      modifies this`operators
      ensures taken ==> id == None
      ensures var st := if id.Some? then UClaimed(form, id.value)
                        else UDone(form, if taken then ToLogin else ServerError, claimed);
              Alone(s, old(Tables()), now, r, UHashed(form, row), fates) == Alone(s, Tables(), now, r, st, fates)
    {
      ghost var db := Tables();
      ghost var locked := db.(lock := Some(r));
      if fates(5) != Works {
        return None, false, None;
      }
      assert Alone(s, db, now, r, UHashed(form, row), fates) == Alone(s, locked, now, r, ULocked(form, row), fates);
      if fates(4) != Works {
        return None, false, None;
      }
      var count := |operators|;
      if count > 0 {
        return None, true, None;
      }
      assert Alone(s, locked, now, r, ULocked(form, row), fates) == Alone(s, locked, now, r, UChecked(form, row), fates);
      if fates(3) != Works {
        return None, false, None;
      }
      assert Alone(s, locked, now, r, UChecked(form, row), fates) == Alone(s, locked, now, r, UInserted(form, row), fates);
      if fates(2) == Fails {
        return None, false, None;
      }
      operators := operators + [row];
      if fates(2) == AnswerLost {
        return None, false, Some(count);
      }
      return Some(count), false, Some(count);
    }

    method SetupHandler(form: Form, now: int, fates: nat -> Fate, ghost r: nat) returns (outcome: Outcome, ghost claimed: Option<nat>)
      modifies this
      ensures (Tables(), UDone(form, outcome, claimed)) == Alone(s, old(Tables()), now, r, UStart(form), fates)
    {
      ghost var db := Tables();
      claimed := None;
      if fates(7) != Works {
        return ServerError, None;
      }
      if |operators| >= 1 {
        return ToLogin, None;
      }
      assert Alone(s, db, now, r, UStart(form), fates) == Alone(s, db, now, r, UCounted(form), fates);
      assert Alone(s, db, now, r, UCounted(form), fates) == Alone(s, db, now, r, HashForm(s, form), fates);
      var email := Text.TrimSpace(form.email);
      if form.password != form.confirm {
        return ShowForm(PasswordsDiffer), None;
      }
      if email == "" || '@' !in email {
        return ShowForm(InvalidEmail), None;
      }
      if Text.ByteLen(form.password) < 8 {
        return ShowForm(PasswordTooShort), None;
      }
      if form.salt == None {
        return ServerError, None;
      }
      var hashed := Password.HashPassword(s.kdf, form.password, Password.DEFAULT_PARAMS, form.salt.value);
      if hashed.HashPanics? {
        return ServerError, None;
      }
      var row := Operator(email, hashed.text);
      assert Alone(s, db, now, r, UCounted(form), fates) == Alone(s, db, now, r, UHashed(form, row), fates);
      outcome, claimed := ClaimSeat(form, row, now, fates, r);
    }

    /** From the transaction on: the seat, then a session for it. */
    method ClaimSeat(form: Form, row: Operator, now: int, fates: nat -> Fate, ghost r: nat)
      returns (outcome: Outcome, ghost claimed: Option<nat>)
      modifies this
      ensures (Tables(), UDone(form, outcome, claimed)) == Alone(s, old(Tables()), now, r, UHashed(form, row), fates)
    {
      var id, taken;
      id, taken, claimed := CreateFirstOperator(row, fates, form, r, now);
      if taken {
        return ToLogin, claimed;
      }
      if id == None {
        return ServerError, claimed;
      }
      outcome := StartSession(form, id.value, now, fates, r);
      claimed := id;
    }

    method StartSession(form: Form, id: nat, now: int, fates: nat -> Fate, ghost r: nat) returns (outcome: Outcome)
      modifies this`sessions, this`history
      ensures (Tables(), UDone(form, outcome, Some(id))) == Alone(s, old(Tables()), now, r, UClaimed(form, id), fates)
    {
      if fates(1) != Works || form.random == None {
        return ServerError;
      }
      var token := Oauth.FromRandom(form.random.value);
      var hash := s.sha(token);
      if hash in sessions.rows {
        return ServerError;
      }
      sessions := Sessions.Store(sessions.rows[hash := Sessions.Session(sessions.nextId, id, now + s.sessionTtl, None)],
                                 sessions.nextId + 1);
      history := history + [SessionEvent(s, now, id, token)];
      return SetUp(id, token);
    }
  }
}
