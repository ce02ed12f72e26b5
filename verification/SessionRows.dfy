/** The session lookup with a database, told from the calls that were made. */
module SessionRows {
  import opened Wrappers
  import opened Sessions
  import opened SessionTheorems

  /** The stores after the first n calls. */
  function After(ops: seq<DbOp>, n: nat): Store
    requires n <= |ops|
  {
    if n == 0 then EMPTY else DoDb(After(ops, n - 1), ops[n - 1])
  }

  lemma {:induction false} AfterIsRun(ops: seq<DbOp>, n: nat)
    requires n <= |ops|
    ensures RunDb(After(ops, n), ops[n..]) == RunDb(EMPTY, ops)
    decreases n
  {
    if n == 0 {
      assert ops[0..] == ops;
    } else {
      AfterIsRun(ops, n - 1);
      assert ops[n - 1..][1..] == ops[n..];
    }
  }

  /** The milliseconds that pass during the first n calls. */
  function Clock(ops: seq<DbOp>, n: nat): nat
    requires n <= |ops|
  {
    if n == 0 then 0 else Clock(ops, n - 1) + if ops[n - 1].Wait? then ops[n - 1].ms else 0
  }

  /** Call k commits a creation of the id within the user's limit. */
  predicate Commits(ops: seq<DbOp>, k: nat, sid: Sid)
    requires k < |ops|
  {
    && ops[k].Create? && ops[k].sid == sid && Effective(ops[k].db)
    && |ActiveSessions(After(ops, k), ops[k].rec.user)| < ops[k].max
  }

  /** Of the first n calls, call k is the one that created the session: later creations of
  the id find its row and leave it. */
  predicate Created(ops: seq<DbOp>, n: nat, k: nat, sid: Sid)
    requires n <= |ops|
  {
    k < n && Commits(ops, k, sid) && forall j | 0 <= j < k :: !Commits(ops, j, sid)
  }

  /** A revocation after call k reached the table. */
  predicate RevokedSince(ops: seq<DbOp>, n: nat, k: nat, sid: Sid)
    requires n <= |ops|
  {
    exists m | k < m < n :: ops[m].Revoke? && ops[m].sid == sid && Effective(ops[m].db)
  }

  /** The session that call k created is unrevoked and unexpired. */
  predicate Stands(ops: seq<DbOp>, n: nat, k: nat, sid: Sid)
    requires n <= |ops|
  {
    && Created(ops, n, k, sid) && !RevokedSince(ops, n, k, sid)
    && Seconds(Clock(ops, n)) < Seconds(Clock(ops, k)) + ops[k].ttl
  }

  /** The row of the id is that of its creation, revoked or not. */
  ghost predicate Tells(ops: seq<DbOp>, n: nat, sid: Sid)
    requires n <= |ops|
  {
    var s := After(ops, n);
    && s.now == Clock(ops, n)
    && (sid in s.rows ==> exists k: nat :: Created(ops, n, k, sid))
    && (forall k: nat | Created(ops, n, k, sid) ::
          sid in s.rows && s.rows[sid] == Row(ops[k].rec, Seconds(Clock(ops, k)) + ops[k].ttl, RevokedSince(ops, n, k, sid)))
  }

  /** What one call does to the row of an id. */
  lemma RowAfter(s: Store, s': Store, op: DbOp, sid: Sid)
    requires s' == DoDb(s, op)
    ensures s'.now == s.now + if op.Wait? then op.ms else 0
    ensures sid in s.rows ==> sid in s'.rows
    ensures sid in s.rows ==>
      s'.rows[sid] == if op.Revoke? && op.sid == sid && Effective(op.db) then s.rows[sid].(revoked := true) else s.rows[sid]
    ensures sid !in s.rows ==> (sid in s'.rows <==>
      op.Create? && op.sid == sid && Effective(op.db) && |ActiveSessions(s, op.rec.user)| < op.max)
    ensures sid !in s.rows && sid in s'.rows ==> s'.rows[sid] == Row(op.rec, Seconds(s.now) + op.ttl, false)
  {
    match op {
      case Create(_, _, _, _, _, _) => return;
      case Validate(_, _, _, _, _) => return;
      case Revoke(_, _, _, _) => return;
      case _ => return;
    }
  }

  lemma KnownRowTells(ops: seq<DbOp>, n: nat, sid: Sid, s: Store, s': Store)
    requires 0 < n <= |ops| && Tells(ops, n - 1, sid) && s == After(ops, n - 1) && s' == After(ops, n) && sid in s.rows
    ensures Tells(ops, n, sid)
  {
    RowAfter(s, s', ops[n - 1], sid);
    var k: nat :| Created(ops, n - 1, k, sid);
    assert Created(ops, n, k, sid);
    assert RevokedSince(ops, n, k, sid) <==>
      RevokedSince(ops, n - 1, k, sid) || (ops[n - 1].Revoke? && ops[n - 1].sid == sid && Effective(ops[n - 1].db));
    forall i: nat | Created(ops, n, i, sid)
      ensures i == k
    {
    }
  }

  lemma NewRowTells(ops: seq<DbOp>, n: nat, sid: Sid, s: Store, s': Store)
    requires 0 < n <= |ops| && Tells(ops, n - 1, sid) && s == After(ops, n - 1) && s' == After(ops, n) && sid !in s.rows
    ensures Tells(ops, n, sid)
  {
    var last: nat := n - 1;
    RowAfter(s, s', ops[last], sid);
    NoneCommitted(ops, last, sid);
    assert sid in s'.rows <==> Commits(ops, last, sid);
    assert sid in s'.rows ==> Created(ops, n, last, sid);
    forall i: nat | Created(ops, n, i, sid)
      ensures i == last
    {
    }
  }

  lemma {:induction false} NoneCommitted(ops: seq<DbOp>, n: nat, sid: Sid)
    requires n <= |ops| && sid !in After(ops, n).rows
    ensures forall k | 0 <= k < n :: !Commits(ops, k, sid)
    decreases n
  {
    if n > 0 {
      var s, s' := After(ops, n - 1), After(ops, n);
      RowAfter(s, s', ops[n - 1], sid);
      NoneCommitted(ops, n - 1, sid);
    }
  }

  lemma {:induction false} AfterTells(ops: seq<DbOp>, n: nat, sid: Sid)
    requires n <= |ops|
    ensures Tells(ops, n, sid)
    decreases n
  {
    if n > 0 {
      AfterTells(ops, n - 1, sid);
      var s, s' := After(ops, n - 1), After(ops, n);
      if sid in s.rows {
        KnownRowTells(ops, n, sid, s, s');
      } else {
        NewRowTells(ops, n, sid, s, s');
      }
    }
  }

  /** Whatever fails and whatever Redis loses, a lookup that goes to the table accepts
  exactly if the session was created for that user, no revocation has reached the
  table since, and its lifetime has not passed; it answers the data it was created with. */
  lemma TableLookup(ops: seq<DbOp>, sid: Sid, user: User, read: Outcome, write: Outcome)
    requires read != Fine || !CacheHit(RunDb(EMPTY, ops), sid)
    ensures var a := ValidateDb(RunDb(EMPTY, ops), sid, user, read, Fine, write).1;
      && (a.Ok? <==> exists k: nat :: Stands(ops, |ops|, k, sid) && ops[k].rec.user == user)
      && (forall k: nat | Created(ops, |ops|, k, sid) && a.Ok? :: a == Ok(ops[k].rec))
      && (a.Ok? || a == Unauthorized)
  {
    AfterTells(ops, |ops|, sid);
    AfterIsRun(ops, |ops|);
    assert RunDb(After(ops, |ops|), []) == After(ops, |ops|);
  }

  /** With a cache that is kept up to date the same holds of every lookup, but for the last
  second of the row, in which a cached entry may still be served. */
  lemma AnyLookup(ops: seq<DbOp>, sid: Sid, user: User, read: Outcome, write: Outcome, k: nat)
    requires Tidy(EMPTY, ops) && Created(ops, |ops|, k, sid)
    ensures var a := ValidateDb(RunDb(EMPTY, ops), sid, user, read, Fine, write).1;
      var now, end := Seconds(Clock(ops, |ops|)), Seconds(Clock(ops, k)) + ops[k].ttl;
      && (a.Ok? ==> a.rec == ops[k].rec && ops[k].rec.user == user && !RevokedSince(ops, |ops|, k, sid) && now <= end)
      && (ops[k].rec.user == user && !RevokedSince(ops, |ops|, k, sid) && now < end ==> a.Ok?)
  {
    AfterTells(ops, |ops|, sid);
    AfterIsRun(ops, |ops|);
    assert RunDb(After(ops, |ops|), []) == After(ops, |ops|);
    ValidateIsTheRow(ops, sid, user, read, write);
  }

  /** A session that the table vouches for is accepted from Redis alone as long as the row
  lasts, even with the database down, once the lookup could write it there. */
  lemma AcceptedSurvivesOutage(s: Store, sid: Sid, user: User, read: Outcome, write: Outcome, ms: nat, db: Outcome, again: Outcome)
    requires read != Fine || !CacheHit(s, sid)
    requires ValidateDb(s, sid, user, read, Fine, write).1.Ok? && Effective(write)
    requires ms < (s.rows[sid].expiresAt - Seconds(s.now)) * 1000
    ensures var (s1, a) := ValidateDb(s, sid, user, read, Fine, write);
      ValidateDb(s1.(now := s1.now + ms), sid, user, Fine, db, again).1 == a
  {
  }

  /** So is a new session, as long as it was asked for, once its creation could. */
  lemma NewSessionSurvivesOutage(s: Store, sid: Sid, rec: Record, ttl: nat, max: nat, setNx: Outcome, ms: nat, db: Outcome, write: Outcome)
    requires sid !in s.rows && !CacheHit(s, sid) && |ActiveSessions(s, rec.user)| < max && Effective(setNx) && ms < ttl * 1000
    ensures var (s1, a) := CreateDb(s, sid, rec, ttl, max, Fine, setNx);
      a == Done && ValidateDb(s1.(now := s1.now + ms), sid, rec.user, Fine, db, write).1 == Ok(rec)
  {
  }
}
