/**
  Sessions of users and, in a second instance, of operators: the two managers
  and their tables differ only in what they call the owner.
*/
module Sessions {
  import opened Prelude
  import opened Models
  import Oauth

  datatype Session = Session(id: nat, owner: nat, expiresAt: int, revokedAt: Option<int>)

  /** The table by its unique column `token_hash`; ids are handed out once. */
  datatype Store = Store(rows: map<Bytes, Session>, nextId: nat)

  /** The changes a manager makes, each with its clock reading. A refused insert changes nothing and is no event. */
  datatype Event =
    | Created(at: int, token: string, owner: nat, ttl: int)
    | Revoked(at: int, id: nat)
    | RevokedAll(at: int, owner: nat)
    | Swept(at: int)

  datatype SessionError = NotFound | SessionRevoked | SessionExpired

  // One statement each

  function Insert(sha: Digest, s: Store, at: int, token: string, owner: nat, ttl: int): Option<Store> {
    if sha(token) in s.rows then None
    else Some(Store(s.rows[sha(token) := Session(s.nextId, owner, at + ttl, None)], s.nextId + 1))
  }

  function RevokeRow(s: Store, at: int, id: nat): Store {
    s.(rows := map k | k in s.rows :: if s.rows[k].id == id then s.rows[k].(revokedAt := Some(at)) else s.rows[k])
  }

  function RevokeOwner(s: Store, at: int, owner: nat): Store {
    s.(rows := map k | k in s.rows ::
         if s.rows[k].owner == owner && s.rows[k].revokedAt == None then s.rows[k].(revokedAt := Some(at))
         else s.rows[k])
  }

  predicate Inactive(row: Session, at: int) {
    row.expiresAt < at || row.revokedAt.Some?
  }

  function DeleteInactiveRows(s: Store, at: int): Store {
    s.(rows := map k | k in s.rows && !Inactive(s.rows[k], at) :: s.rows[k])
  }

  function ValidateToken(sha: Digest, s: Store, token: string, now: int): Result<Session, SessionError> {
    if sha(token) !in s.rows then Err(NotFound)
    else
      var row := s.rows[sha(token)];
      if row.revokedAt.Some? then Err(SessionRevoked)
      else if now > row.expiresAt then Err(SessionExpired)
      else Ok(row)
  }

  const EMPTY := Store(map[], 0)

  /** None when the event cannot happen there: its token hash is taken. */
  function After(sha: Digest, s: Store, e: Event): Option<Store> {
    match e
    case Created(at, token, owner, ttl) => Insert(sha, s, at, token, owner, ttl)
    case Revoked(at, id) => Some(RevokeRow(s, at, id))
    case RevokedAll(at, owner) => Some(RevokeOwner(s, at, owner))
    case Swept(at) => Some(DeleteInactiveRows(s, at))
  }

  /** The table after a whole history, starting empty. */
  function Run(sha: Digest, h: seq<Event>): Option<Store> {
    if h == [] then Some(EMPTY)
    else
      match Run(sha, h[..|h| - 1])
      case None => None
      case Some(s) => After(sha, s, h[|h| - 1])
  }

  // The specification, which knows no table and no sweep

  /**
    `now` is not before any reading made so far. A reading may be older than the
    statement it goes with, so the readings need not follow the statement order.
  */
  ghost predicate Until(h: seq<Event>, now: int) {
    forall i :: 0 <= i < |h| ==> h[i].at <= now
  }

  /** The id given to the create at position i: the number of creates before it. */
  function IdOf(h: seq<Event>, i: nat): nat
    requires i <= |h|
  {
    if i == 0 then 0 else IdOf(h, i - 1) + if h[i - 1].Created? then 1 else 0
  }

  predicate Revokes(e: Event, id: nat, owner: nat) {
    match e
    case Revoked(_, x) => x == id
    case RevokedAll(_, o) => o == owner
    case _ => false
  }

  predicate RevokedSince(h: seq<Event>, i: nat)
    requires i < |h| && h[i].Created?
  {
    exists j :: i < j < |h| && Revokes(h[j], IdOf(h, i), h[i].owner)
  }

  /** Created at i under this token's hash, not expired at `now`, not revoked since. */
  predicate LiveAt(sha: Digest, h: seq<Event>, i: nat, token: string, now: int) {
    && i < |h| && h[i].Created? && sha(h[i].token) == sha(token)
    && now <= h[i].at + h[i].ttl && !RevokedSince(h, i)
  }

  ghost predicate Live(sha: Digest, h: seq<Event>, token: string, now: int) {
    exists i: nat :: LiveAt(sha, h, i, token, now)
  }

  // The table represents its history

  predicate RowOf(h: seq<Event>, i: nat, row: Session)
    requires i < |h| && h[i].Created?
  {
    && row.id == IdOf(h, i) && row.owner == h[i].owner && row.expiresAt == h[i].at + h[i].ttl
    && (row.revokedAt.Some? <==> RevokedSince(h, i))
  }

  /** Swept, which takes having expired or having been revoked. */
  ghost predicate Dead(h: seq<Event>, i: nat)
    requires i < |h| && h[i].Created?
  {
    RevokedSince(h, i) || exists j :: i < j < |h| && h[i].at + h[i].ttl < h[j].at
  }

  ghost predicate Represents(sha: Digest, s: Store, h: seq<Event>) {
    && s.nextId == IdOf(h, |h|)
    && (forall i :: 0 <= i < |h| && h[i].Created? ==>
          Dead(h, i) || (sha(h[i].token) in s.rows && RowOf(h, i, s.rows[sha(h[i].token)])))
    && (forall k :: k in s.rows ==>
          exists i :: 0 <= i < |h| && h[i].Created? && sha(h[i].token) == k && RowOf(h, i, s.rows[k]))
  }

  lemma {:induction false} IdOfExtend(h: seq<Event>, e: Event, i: nat)
    requires i <= |h|
    ensures IdOf(h + [e], i) == IdOf(h, i)
  {
    if i > 0 {
      IdOfExtend(h, e, i - 1);
    }
  }

  lemma {:induction false} IdsIncrease(h: seq<Event>, i: nat, j: nat)
    requires i < j <= |h| && h[i].Created?
    ensures IdOf(h, i) < IdOf(h, j)
  {
    if i < j - 1 {
      IdsIncrease(h, i, j - 1);
    }
  }

  lemma {:induction false} IdOfPrefix(h: seq<Event>, g: seq<Event>, i: nat)
    requires h <= g && i <= |h|
    ensures IdOf(g, i) == IdOf(h, i)
  {
    if i > 0 {
      IdOfPrefix(h, g, i - 1);
    }
  }

  /** Once revoked, always revoked. */
  lemma RevokedSincePrefix(h: seq<Event>, g: seq<Event>, i: nat)
    requires h <= g && i < |h| && h[i].Created? && RevokedSince(h, i)
    ensures RevokedSince(g, i)
  {
    IdOfPrefix(h, g, i);
    var j :| i < j < |h| && Revokes(h[j], IdOf(h, i), h[i].owner);
    assert g[j] == h[j];
  }

  /** An event adds itself, and nothing else, to what revoked an earlier create. */
  lemma RevokedSinceExtend(h: seq<Event>, e: Event, i: nat)
    requires i < |h| && h[i].Created?
    ensures RevokedSince(h + [e], i) <==> RevokedSince(h, i) || Revokes(e, IdOf(h, i), h[i].owner)
    ensures Dead(h, i) ==> Dead(h + [e], i)
  {
    var g := h + [e];
    IdOfExtend(h, e, i);
    assert forall j :: 0 <= j < |h| ==> g[j] == h[j];
    assert g[|h|] == e;
  }

  /** A row that an event keeps still represents its create; `row'` is the row after the event. */
  lemma RowExtend(h: seq<Event>, e: Event, i: nat, row: Session, row': Session)
    requires i < |h| && h[i].Created? && RowOf(h, i, row)
    requires row' == row.(revokedAt := row'.revokedAt)
    requires row'.revokedAt.Some? <==> row.revokedAt.Some? || Revokes(e, row.id, row.owner)
    ensures RowOf(h + [e], i, row')
  {
    IdOfExtend(h, e, i);
    RevokedSinceExtend(h, e, i);
  }

  lemma AfterRepresents(sha: Digest, s: Store, h: seq<Event>, e: Event)
    requires Represents(sha, s, h) && After(sha, s, e).Some?
    ensures Represents(sha, After(sha, s, e).value, h + [e])
  {
    var s', g := After(sha, s, e).value, h + [e];
    IdOfExtend(h, e, |h|);
    forall i | 0 <= i < |g| && g[i].Created?
      ensures Dead(g, i) || (sha(g[i].token) in s'.rows && RowOf(g, i, s'.rows[sha(g[i].token)]))
    {
      if i < |h| {
        KeepsCreate(sha, s, h, e, i);
      }
    }
    forall k | k in s'.rows
      ensures exists i :: 0 <= i < |g| && g[i].Created? && sha(g[i].token) == k && RowOf(g, i, s'.rows[k])
    {
      if k in s.rows {
        var i :| 0 <= i < |h| && h[i].Created? && sha(h[i].token) == k && RowOf(h, i, s.rows[k]);
        assert g[i] == h[i];
        RowExtend(h, e, i, s.rows[k], s'.rows[k]);
      } else {
        assert g[|h|].Created? && RowOf(g, |h|, s'.rows[k]);
      }
    }
  }

  lemma KeepsCreate(sha: Digest, s: Store, h: seq<Event>, e: Event, i: nat)
    requires Represents(sha, s, h) && After(sha, s, e).Some?
    requires i < |h| && h[i].Created?
    ensures var s', g := After(sha, s, e).value, h + [e];
            Dead(g, i) || (sha(h[i].token) in s'.rows && RowOf(g, i, s'.rows[sha(h[i].token)]))
  {
    var s', g := After(sha, s, e).value, h + [e];
    RevokedSinceExtend(h, e, i);
    if !Dead(h, i) {
      var k := sha(h[i].token);
      var row := s.rows[k];
      if k in s'.rows {
        RowExtend(h, e, i, row, s'.rows[k]);
      } else {
        assert e.Swept? && Inactive(row, e.at) && g[|h|] == e && g[i] == h[i];
      }
    }
  }

  lemma {:induction false} RunRepresents(sha: Digest, h: seq<Event>)
    requires Run(sha, h).Some?
    ensures Represents(sha, Run(sha, h).value, h)
  {
    if h != [] {
      var front, last := h[..|h| - 1], h[|h| - 1];
      RunRepresents(sha, front);
      AfterRepresents(sha, Run(sha, front).value, front, last);
      assert front + [last] == h;
    }
  }

  /** A table that represents a history answers as the specification does. */
  lemma RepresentsValidates(sha: Digest, s: Store, h: seq<Event>, token: string, now: int)
    requires Represents(sha, s, h) && Until(h, now)
    ensures ValidateToken(sha, s, token, now).Ok? <==> Live(sha, h, token, now)
    ensures ValidateToken(sha, s, token, now).Ok? ==>
              exists i: nat :: LiveAt(sha, h, i, token, now) && RowOf(h, i, ValidateToken(sha, s, token, now).value)
  {
    var k := sha(token);
    if ValidateToken(sha, s, token, now).Ok? {
      var i :| 0 <= i < |h| && h[i].Created? && sha(h[i].token) == k && RowOf(h, i, s.rows[k]);
      assert LiveAt(sha, h, i, token, now);
    }
    if Live(sha, h, token, now) {
      var i: nat :| LiveAt(sha, h, i, token, now);
      assert !Dead(h, i);
    }
  }

  /**
    Main result: whatever was created, revoked and swept before, validation at
    `now` succeeds exactly for a token that was created, has not outlived its
    time to live and was not revoked since.
  */
  lemma ValidateMeetsSpecification(sha: Digest, h: seq<Event>, token: string, now: int)
    requires Run(sha, h).Some? && Until(h, now)
    ensures ValidateToken(sha, Run(sha, h).value, token, now).Ok? <==> Live(sha, h, token, now)
  {
    RunRepresents(sha, h);
    RepresentsValidates(sha, Run(sha, h).value, h, token, now);
  }

  /** With a collision-free digest the create was of this very token. */
  lemma LiveTokenWasCreated(sha: Digest, h: seq<Event>, token: string, now: int)
    requires CollisionFree(sha)
    ensures Live(sha, h, token, now) <==>
            exists i :: 0 <= i < |h| && h[i].Created? && h[i].token == token
                        && now <= h[i].at + h[i].ttl && !RevokedSince(h, i)
  {
    if Live(sha, h, token, now) {
      var i: nat :| LiveAt(sha, h, i, token, now);
      assert h[i].token == token;
    }
    if i :| 0 <= i < |h| && h[i].Created? && h[i].token == token
            && now <= h[i].at + h[i].ttl && !RevokedSince(h, i)
    {
      assert LiveAt(sha, h, i, token, now);
    }
  }

  // Sweeping is invisible

  function WithoutSweeps(h: seq<Event>): seq<Event> {
    if h == [] then []
    else if h[|h| - 1].Swept? then WithoutSweeps(h[..|h| - 1])
    else WithoutSweeps(h[..|h| - 1]) + [h[|h| - 1]]
  }

  lemma LiveExtend(sha: Digest, h: seq<Event>, e: Event, i: nat, token: string, now: int)
    requires i < |h|
    ensures LiveAt(sha, h + [e], i, token, now) <==>
            LiveAt(sha, h, i, token, now) && !Revokes(e, IdOf(h, i), h[i].owner)
  {
    var g := h + [e];
    assert g[i] == h[i];
    if h[i].Created? {
      RevokedSinceExtend(h, e, i);
    }
  }

  /** Where the event at position i stands once the sweeps are gone. */
  function PositionWithoutSweeps(h: seq<Event>, i: nat): nat
    requires i <= |h|
  {
    |WithoutSweeps(h[..i])|
  }

  lemma {:induction false} WithoutSweepsLive(sha: Digest, h: seq<Event>, i: nat, token: string, now: int)
    requires i < |h| && !h[i].Swept?
    ensures var g, k := WithoutSweeps(h), PositionWithoutSweeps(h, i);
            && k < |g| && g[k] == h[i] && IdOf(g, k) == IdOf(h, i)
            && (LiveAt(sha, g, k, token, now) <==> LiveAt(sha, h, i, token, now))
  {
    var front, last := h[..|h| - 1], h[|h| - 1];
    assert h == front + [last];
    var g, k := WithoutSweeps(front), PositionWithoutSweeps(h, i);
    if i == |h| - 1 {
      IdOfWithoutSweeps(front);
      IdOfExtend(front, last, i);
      IdOfExtend(g, last, k);
      assert (g + [last])[k] == last;
    } else {
      assert h[..i] == front[..i];
      WithoutSweepsLive(sha, front, i, token, now);
      LiveExtend(sha, front, last, i, token, now);
      LiveExtend(sha, g, last, k, token, now);
      IdOfExtend(front, last, i);
      IdOfExtend(g, last, k);
    }
  }

  lemma {:induction false} IdOfWithoutSweeps(h: seq<Event>)
    ensures IdOf(WithoutSweeps(h), |WithoutSweeps(h)|) == IdOf(h, |h|)
  {
    if h != [] {
      var front, last := h[..|h| - 1], h[|h| - 1];
      IdOfWithoutSweeps(front);
      assert h == front + [last];
      IdOfExtend(front, last, |front|);
      IdOfExtend(WithoutSweeps(front), last, |WithoutSweeps(front)|);
    }
  }

  lemma {:induction false} PositionFound(h: seq<Event>, k: nat)
    requires k < |WithoutSweeps(h)|
    ensures exists i: nat :: i < |h| && !h[i].Swept? && PositionWithoutSweeps(h, i) == k
  {
    var front, last := h[..|h| - 1], h[|h| - 1];
    if k < |WithoutSweeps(front)| {
      PositionFound(front, k);
      var i: nat :| i < |front| && !front[i].Swept? && PositionWithoutSweeps(front, i) == k;
      assert h[..i] == front[..i];
      assert i < |h| && !h[i].Swept? && PositionWithoutSweeps(h, i) == k;
    } else {
      assert PositionWithoutSweeps(h, |h| - 1) == k;
    }
  }

  /** The specification knows no sweep: removing them all changes nothing in it. */
  lemma SweepsDoNotMatter(sha: Digest, h: seq<Event>, token: string, now: int)
    ensures Live(sha, h, token, now) <==> Live(sha, WithoutSweeps(h), token, now)
  {
    if Live(sha, h, token, now) {
      var i: nat :| LiveAt(sha, h, i, token, now);
      WithoutSweepsLive(sha, h, i, token, now);
    }
    if Live(sha, WithoutSweeps(h), token, now) {
      var k: nat :| LiveAt(sha, WithoutSweeps(h), k, token, now);
      PositionFound(h, k);
      var i: nat :| i < |h| && !h[i].Swept? && PositionWithoutSweeps(h, i) == k;
      WithoutSweepsLive(sha, h, i, token, now);
    }
  }

  // Tables that are never swept

  predicate NoSweeps(h: seq<Event>) {
    forall e <- h :: !e.Swept?
  }

  predicate HasCreate(sha: Digest, h: seq<Event>, hash: Bytes) {
    exists e <- h :: e.Created? && sha(e.token) == hash
  }

  /** No two creates of the history share a token hash. */
  predicate DistinctCreates(sha: Digest, h: seq<Event>) {
    forall i, j :: 0 <= i < j < |h| && h[i].Created? && h[j].Created? ==> sha(h[i].token) != sha(h[j].token)
  }

  /** Every create still has its row. */
  predicate HoldsRow(sha: Digest, s: Store, h: seq<Event>, i: nat) {
    i < |h| && h[i].Created? && sha(h[i].token) in s.rows && RowOf(h, i, s.rows[sha(h[i].token)])
  }

  predicate HoldsAll(sha: Digest, s: Store, h: seq<Event>) {
    forall i: nat :: i < |h| && h[i].Created? ==> HoldsRow(sha, s, h, i)
  }

  /** What an event leaves of a row that is not swept away. */
  lemma RowAfter(sha: Digest, s: Store, e: Event, k: Bytes)
    requires k in s.rows && !e.Swept? && After(sha, s, e).Some?
    ensures var rows := After(sha, s, e).value.rows;
            && k in rows && rows[k] == s.rows[k].(revokedAt := rows[k].revokedAt)
            && (rows[k].revokedAt.Some? <==> s.rows[k].revokedAt.Some? || Revokes(e, s.rows[k].id, s.rows[k].owner))
  {
  }

  lemma OldRow(sha: Digest, s: Store, h: seq<Event>, e: Event, i: nat)
    requires HoldsAll(sha, s, h) && i < |h| && h[i].Created? && !e.Swept? && After(sha, s, e).Some?
    ensures HoldsRow(sha, After(sha, s, e).value, h + [e], i)
  {
    assert HoldsRow(sha, s, h, i);
    RowAfter(sha, s, e, sha(h[i].token));
    RowExtend(h, e, i, s.rows[sha(h[i].token)], After(sha, s, e).value.rows[sha(h[i].token)]);
  }

  lemma NewRow(sha: Digest, s: Store, h: seq<Event>, e: Event)
    requires s.nextId == IdOf(h, |h|) && e.Created? && After(sha, s, e).Some?
    ensures HoldsRow(sha, After(sha, s, e).value, h + [e], |h|)
  {
    IdOfExtend(h, e, |h|);
  }

  lemma AfterHoldsAll(sha: Digest, s: Store, h: seq<Event>, e: Event)
    requires HoldsAll(sha, s, h) && s.nextId == IdOf(h, |h|) && !e.Swept? && After(sha, s, e).Some?
    ensures HoldsAll(sha, After(sha, s, e).value, h + [e])
  {
    forall i: nat | i < |h + [e]| && (h + [e])[i].Created? ensures HoldsRow(sha, After(sha, s, e).value, h + [e], i) {
      if i < |h| {
        OldRow(sha, s, h, e, i);
      } else {
        NewRow(sha, s, h, e);
      }
    }
  }

  lemma {:induction false} UnsweptHoldsAll(sha: Digest, h: seq<Event>)
    requires NoSweeps(h) && Run(sha, h).Some?
    ensures HoldsAll(sha, Run(sha, h).value, h)
  {
    if h != [] {
      var front, last := h[..|h| - 1], h[|h| - 1];
      UnsweptHoldsAll(sha, front);
      RunRepresents(sha, front);
      AfterHoldsAll(sha, Run(sha, front).value, front, last);
      assert front + [last] == h;
    }
  }

  /** Without sweeps a history can happen exactly when no two of its creates share a hash. */
  lemma {:induction false} UnsweptRuns(sha: Digest, h: seq<Event>)
    requires NoSweeps(h)
    ensures Run(sha, h).Some? <==> DistinctCreates(sha, h)
  {
    if h != [] {
      var front, last := h[..|h| - 1], h[|h| - 1];
      UnsweptRuns(sha, front);
      assert h == front + [last];
      if Run(sha, front).Some? && last.Created? {
        UnsweptHoldsAll(sha, front);
        RunRepresents(sha, front);
        assert sha(last.token) in Run(sha, front).value.rows <==> HasCreate(sha, front, sha(last.token));
      }
    }
  }

  lemma {:induction false} WithoutSweepsHasCreates(sha: Digest, h: seq<Event>, hash: Bytes)
    ensures HasCreate(sha, WithoutSweeps(h), hash) <==> HasCreate(sha, h, hash)
    ensures NoSweeps(WithoutSweeps(h))
  {
    if h != [] {
      var front, last := h[..|h| - 1], h[|h| - 1];
      WithoutSweepsHasCreates(sha, front, hash);
      assert h == front + [last];
    }
  }

  lemma {:induction false} WithoutSweepsDistinct(sha: Digest, h: seq<Event>)
    ensures DistinctCreates(sha, WithoutSweeps(h)) <==> DistinctCreates(sha, h)
  {
    if h != [] {
      var front, last := h[..|h| - 1], h[|h| - 1];
      WithoutSweepsDistinct(sha, front);
      assert h == front + [last];
      if last.Created? {
        WithoutSweepsHasCreates(sha, front, sha(last.token));
      }
      DistinctAppend(sha, front, last);
      DistinctAppend(sha, WithoutSweeps(front), last);
    }
  }

  lemma DistinctAppend(sha: Digest, h: seq<Event>, e: Event)
    ensures DistinctCreates(sha, h + [e]) <==> DistinctCreates(sha, h) && (e.Created? ==> !HasCreate(sha, h, sha(e.token)))
  {
    var g := h + [e];
    assert g[|h|] == e && forall i :: 0 <= i < |h| ==> g[i] == h[i];
  }

  /** Where the create at i stands without sweeps it has the same id, owner, expiry and revocations. */
  lemma WithoutSweepsRow(sha: Digest, h: seq<Event>, i: nat, row: Session, other: Session)
    requires i < |h| && h[i].Created? && RowOf(h, i, row)
    requires var g, k := WithoutSweeps(h), PositionWithoutSweeps(h, i);
             k < |g| && g[k].Created? && RowOf(g, k, other)
    ensures other == row.(revokedAt := other.revokedAt) && (other.revokedAt.Some? <==> row.revokedAt.Some?)
  {
    WithoutSweepsLive(sha, h, i, h[i].token, h[i].at + h[i].ttl);
  }

  /** The row of the unswept table for a row that survived the sweeps. */
  lemma SurvivorIsUnswept(sha: Digest, h: seq<Event>, hash: Bytes)
    requires Run(sha, h).Some? && Run(sha, WithoutSweeps(h)).Some? && hash in Run(sha, h).value.rows
    ensures var s, u := Run(sha, h).value, Run(sha, WithoutSweeps(h)).value;
            && hash in u.rows && u.rows[hash] == s.rows[hash].(revokedAt := u.rows[hash].revokedAt)
            && (u.rows[hash].revokedAt.Some? <==> s.rows[hash].revokedAt.Some?)
  {
    var s, g := Run(sha, h).value, WithoutSweeps(h);
    RunRepresents(sha, h);
    var i: nat :| i < |h| && h[i].Created? && sha(h[i].token) == hash && RowOf(h, i, s.rows[hash]);
    WithoutSweepsLive(sha, h, i, h[i].token, 0);
    WithoutSweepsHasCreates(sha, h, hash);
    UnsweptHoldsAll(sha, g);
    WithoutSweepsRow(sha, h, i, s.rows[hash], Run(sha, g).value.rows[hash]);
  }

  /**
    The swept table answers as the unswept one would: with the same session, or
    with an error where that has one. Only the kind of error can differ, and then
    the swept table has forgotten a session that was revoked or has expired.
  */
  lemma SweepsAreInvisible(sha: Digest, h: seq<Event>, token: string, now: int)
    requires Run(sha, h).Some? && Run(sha, WithoutSweeps(h)).Some? && Until(h, now)
    ensures var swept := ValidateToken(sha, Run(sha, h).value, token, now);
            var unswept := ValidateToken(sha, Run(sha, WithoutSweeps(h)).value, token, now);
            swept == unswept
            || (swept == Err(NotFound) && (unswept == Err(SessionRevoked) || unswept == Err(SessionExpired)))
  {
    var u := Run(sha, WithoutSweeps(h)).value;
    if sha(token) in Run(sha, h).value.rows {
      SurvivorIsUnswept(sha, h, sha(token));
    } else if ValidateToken(sha, u, token, now).Ok? {
      WithoutSweepsUntil(h, now);
      ValidateMeetsSpecification(sha, WithoutSweeps(h), token, now);
      SweepsDoNotMatter(sha, h, token, now);
      ValidateMeetsSpecification(sha, h, token, now);
    }
  }

  lemma {:induction false} WithoutSweepsUntil(h: seq<Event>, now: int)
    requires Until(h, now)
    ensures Until(WithoutSweeps(h), now)
  {
    if h != [] {
      WithoutSweepsUntil(h[..|h| - 1], now);
    }
  }

  /** That unswept table exists exactly when no two creates share a hash. */
  lemma UnsweptTableExists(sha: Digest, h: seq<Event>)
    ensures Run(sha, WithoutSweeps(h)).Some? <==> DistinctCreates(sha, h)
  {
    WithoutSweepsHasCreates(sha, h, []);
    UnsweptRuns(sha, WithoutSweeps(h));
    WithoutSweepsDistinct(sha, h);
  }

  // Revocations

  lemma RunAppend(sha: Digest, h: seq<Event>, e: Event)
    requires Run(sha, h).Some?
    ensures Run(sha, h + [e]) == After(sha, Run(sha, h).value, e)
  {
    assert (h + [e])[..|h|] == h;
  }

  /** Revoking one owner's sessions ends all of them and none of anyone else's, for the specification and for validation. */
  lemma RevokeAllIsExact(sha: Digest, h: seq<Event>, at: int, owner: nat, token: string, now: int)
    requires Run(sha, h).Some?
    ensures Run(sha, h + [RevokedAll(at, owner)]).Some?
    ensures var before := ValidateToken(sha, Run(sha, h).value, token, now);
            var after := ValidateToken(sha, Run(sha, h + [RevokedAll(at, owner)]).value, token, now);
            && (after.Ok? <==> before.Ok? && before.value.owner != owner) && (after.Ok? ==> after == before)
            && (before.Ok? && before.value.owner == owner ==> after == Err(SessionRevoked))
    ensures forall i: nat :: i < |h| ==>
              (LiveAt(sha, h + [RevokedAll(at, owner)], i, token, now) <==> LiveAt(sha, h, i, token, now) && h[i].owner != owner)
  {
    RunAppend(sha, h, RevokedAll(at, owner));
    forall i: nat | i < |h|
      ensures LiveAt(sha, h + [RevokedAll(at, owner)], i, token, now) <==> LiveAt(sha, h, i, token, now) && h[i].owner != owner
    {
      LiveExtend(sha, h, RevokedAll(at, owner), i, token, now);
    }
  }

  /** Revoking the session of one create ends that one and no other. */
  lemma RevokeIsExact(sha: Digest, h: seq<Event>, at: int, c: nat, token: string, now: int)
    requires Run(sha, h).Some? && c < |h| && h[c].Created?
    ensures var revoked := h + [Revoked(at, IdOf(h, c))];
            && Run(sha, revoked).Some?
            && var before := ValidateToken(sha, Run(sha, h).value, token, now);
               var after := ValidateToken(sha, Run(sha, revoked).value, token, now);
               (after.Ok? <==> before.Ok? && before.value.id != IdOf(h, c)) && (after.Ok? ==> after == before)
    ensures forall i: nat :: i < |h| ==>
              (LiveAt(sha, h + [Revoked(at, IdOf(h, c))], i, token, now) <==> LiveAt(sha, h, i, token, now) && i != c)
  {
    var e := Revoked(at, IdOf(h, c));
    RunAppend(sha, h, e);
    forall i: nat | i < |h|
      ensures LiveAt(sha, h + [e], i, token, now) <==> LiveAt(sha, h, i, token, now) && i != c
    {
      LiveExtend(sha, h, e, i, token, now);
      if h[i].Created? {
        if i < c {
          IdsIncrease(h, i, c);
        } else if c < i {
          IdsIncrease(h, c, i);
        }
      }
    }
  }

  // The managers

  class Manager {
    const sha: Digest
    const ttl: int
    var rows: map<Bytes, Session>
    var nextId: nat
    ghost var history: seq<Event>

    function Table(): Store
      reads this
    {
      Store(rows, nextId)
    }

    ghost predicate Valid()
      reads this
    {
      Run(sha, history) == Some(Table()) && Represents(sha, Table(), history)
    }

    constructor (sha: Digest, ttl: int)
      ensures this.sha == sha && this.ttl == ttl && history == [] && Valid()
    {
      this.sha, this.ttl := sha, ttl;
      rows, nextId := map[], 0;
      history := [];
    }

    ghost method Record(e: Event)
      requires Run(sha, history).Some? && Represents(sha, Run(sha, history).value, history) && Until(history, e.at)
      requires After(sha, Run(sha, history).value, e) == Some(Table())
      modifies this`history
      ensures history == old(history) + [e] && Valid()
    {
      AfterRepresents(sha, Run(sha, history).value, history, e);
      history := history + [e];
      assert history[..|history| - 1] == old(history);
    }

    /** `random` is the fresh buffer of 32 bytes; None when the token's hash is taken. */
    method Create(owner: nat, random: Bytes, now: int) returns (token: Option<string>)
      requires Valid() && Until(history, now)
      modifies this
      ensures Valid()
      ensures token.Some? <==> sha(Oauth.FromRandom(random)) !in old(rows)
      ensures token.Some? ==> token.value == Oauth.FromRandom(random)
                              && history == old(history) + [Created(now, token.value, owner, ttl)]
      ensures token.None? ==> history == old(history) && Table() == old(Table())
    {
      var text := Oauth.FromRandom(random);
      var hash := sha(text);
      if hash in rows {
        return None;
      }
      rows := rows[hash := Session(nextId, owner, now + ttl, None)];
      nextId := nextId + 1;
      Record(Created(now, text, owner, ttl));
      return Some(text);
    }

    method Validate(token: string, now: int) returns (r: Result<Session, SessionError>)
      requires Valid() && Until(history, now)
      ensures r.Ok? <==> Live(sha, history, token, now)
      ensures r == ValidateToken(sha, Table(), token, now)
    {
      RepresentsValidates(sha, Table(), history, token, now);
      var hash := sha(token);
      if hash !in rows {
        return Err(NotFound);
      }
      var session := rows[hash];
      if session.revokedAt.Some? {
        return Err(SessionRevoked);
      }
      if now > session.expiresAt {
        return Err(SessionExpired);
      }
      return Ok(session);
    }

    method Revoke(id: nat, now: int) returns (found: bool)
      requires Valid() && Until(history, now)
      modifies this
      ensures Valid() && history == old(history) + [Revoked(now, id)]
      ensures found <==> exists k :: k in old(rows) && old(rows)[k].id == id
    {
      found := exists k :: k in rows && rows[k].id == id;
      rows := map k | k in rows :: if rows[k].id == id then rows[k].(revokedAt := Some(now)) else rows[k];
      Record(Revoked(now, id));
    }

    method RevokeAllForOwner(owner: nat, now: int)
      requires Valid() && Until(history, now)
      modifies this
      ensures Valid() && history == old(history) + [RevokedAll(now, owner)]
    {
      rows := map k | k in rows ::
        if rows[k].owner == owner && rows[k].revokedAt == None then rows[k].(revokedAt := Some(now)) else rows[k];
      Record(RevokedAll(now, owner));
    }

    method DeleteInactive(now: int) returns (count: nat)
      requires Valid() && Until(history, now)
      modifies this
      ensures Valid() && history == old(history) + [Swept(now)]
      ensures count == |set k | k in old(rows) && Inactive(old(rows)[k], now)|
    {
      count := |set k | k in rows && Inactive(rows[k], now)|;
      rows := map k | k in rows && !Inactive(rows[k], now) :: rows[k];
      Record(Swept(now));
    }
  }
}
