/** What holds of the session store on every run of operations. */
module SessionTheorems {
  import opened Wrappers
  import opened Sessions

  // ---- with a database ---------------------------------------------------

  datatype DbOp =
    | Create(sid: Sid, rec: Record, ttl: nat, max: nat, db: Outcome, setNx: Outcome)
    | Validate(sid: Sid, user: User, read: Outcome, db: Outcome, write: Outcome)
    | Revoke(sid: Sid, db: Outcome, take: Outcome, decr: Outcome)
    | Drop(sid: Sid)                      // Redis loses an entry
    | Wait(ms: nat)

  function DoDb(s: Store, op: DbOp): Store {
    match op
    case Create(sid, rec, ttl, max, db, setNx) => CreateDb(s, sid, rec, ttl, max, db, setNx).0
    case Validate(sid, user, read, db, write) => ValidateDb(s, sid, user, read, db, write).0
    case Revoke(sid, db, take, decr) => RevokeDb(s, sid, db, take, decr).0
    case Drop(sid) => CacheTake(s, sid)
    case Wait(ms) => s.(now := s.now + ms)
  }

  function RunDb(s: Store, ops: seq<DbOp>): Store
    decreases |ops|
  {
    if ops == [] then s else RunDb(DoDb(s, ops[0]), ops[1..])
  }

  /** A revocation that reaches the table reaches the cache entry too. */
  predicate Takes(db: Outcome, take: Outcome) {
    db == Fails || (db == Fine && Effective(take))
  }

  /** No session id is created a second time, and no revocation stops half way. */
  predicate Tidy(s: Store, ops: seq<DbOp>)
    decreases |ops|
  {
    ops == [] ||
    (&& (ops[0].Create? ==> ops[0].sid !in s.rows) && (ops[0].Revoke? ==> Takes(ops[0].db, ops[0].take))
     && Tidy(DoDb(s, ops[0]), ops[1..]))
  }

  /** What a cached entry says of the table: it copies an unrevoked row, and expires
  before the row has been expired for a full second. */
  predicate Backed(s: Store, sid: Sid)
    requires sid in s.cache
  {
    && sid in s.rows && !s.rows[sid].revoked && s.cache[sid].rec == s.rows[sid].rec
    && s.cache[sid].until < (s.rows[sid].expiresAt + 1) * 1000
  }

  predicate Coherent(s: Store) {
    forall sid | sid in s.cache :: Backed(s, sid)
  }

  lemma DbStepKeepsCoherent(s: Store, op: DbOp)
    requires Coherent(s) && (op.Create? ==> op.sid !in s.rows) && (op.Revoke? ==> Takes(op.db, op.take))
    ensures Coherent(DoDb(s, op))
  {
  }

  lemma {:induction false} DbRunKeepsCoherent(s: Store, ops: seq<DbOp>)
    requires Coherent(s) && Tidy(s, ops)
    ensures Coherent(RunDb(s, ops))
    decreases |ops|
  {
    if ops != [] {
      DbStepKeepsCoherent(s, ops[0]);
      DbRunKeepsCoherent(DoDb(s, ops[0]), ops[1..]);
    }
  }

  /** `validate_session` answers what the table says, whatever Redis has lost or failed to
  do: it succeeds exactly if the row exists, is unrevoked, belongs to the user and is
  unexpired, and returns the data of the row.  The one difference is the second in which
  the row expires, during which a cached entry may still be served. */
  lemma ValidateIsTheRow(ops: seq<DbOp>, sid: Sid, user: User, read: Outcome, write: Outcome)
    requires Tidy(EMPTY, ops)
    ensures var s := RunDb(EMPTY, ops); var a := ValidateDb(s, sid, user, read, Fine, write).1;
      && (a.Ok? <==>
        && sid in s.rows && !s.rows[sid].revoked && s.rows[sid].rec.user == user
        && (Seconds(s.now) < s.rows[sid].expiresAt || (read == Fine && CacheHit(s, sid))))
      && (a.Ok? ==> a.rec == s.rows[sid].rec && Seconds(s.now) <= s.rows[sid].expiresAt)
      && (a.Ok? || a == Unauthorized)
  {
    DbRunKeepsCoherent(EMPTY, ops);
    var s := RunDb(EMPTY, ops);
    assert CacheHit(s, sid) ==> Backed(s, sid);
  }

  lemma RunThree(s: Store, a: DbOp, b: DbOp, c: DbOp)
    ensures RunDb(s, [a, b, c]) == DoDb(DoDb(DoDb(s, a), b), c)
    ensures Tidy(s, [a, b, c]) <==> Tidy(s, [a]) && Tidy(DoDb(s, a), [b]) && Tidy(DoDb(DoDb(s, a), b), [c])
  {
    assert [a, b, c][1..] == [b, c] && [b, c][1..] == [c] && [c][1..] == [] && [a][1..] == [] && [b][1..] == [];
    var s2 := DoDb(DoDb(s, a), b);
    assert RunDb(s2, [c]) == DoDb(s2, c);
    assert RunDb(DoDb(s, a), [b, c]) == RunDb(s2, [c]);
    assert Tidy(DoDb(s, a), [b, c]) <==> Tidy(DoDb(s, a), [b]) && Tidy(s2, [c]);
  }

  /** A cached entry can outlive its row by a fraction of that second. */
  lemma CacheOutlivesRow(sid: Sid, rec: Record) returns (ops: seq<DbOp>)
    ensures Tidy(EMPTY, ops)
    ensures var s := RunDb(EMPTY, ops); !RowLive(s, sid) && ValidateDb(s, sid, rec.user, Fine, Fine, Fine).1.Ok?
  {
    var a, b, c := Wait(500), Create(sid, rec, 1, 1, Fine, Fine), Wait(600);
    ops := [a, b, c];
    RunThree(EMPTY, a, b, c);
    var s1 := DoDb(EMPTY, a);
    assert ActiveSessions(s1, rec.user) == {};
    var s2 := DoDb(s1, b);
    assert s2 == Store(500, map[sid := Row(rec, 1, false)], map[sid := Cached(rec, 1500)], map[]);
    assert DoDb(s2, c) == s2.(now := 1100);
  }

  /** Creating an id again keeps the cache coherent exactly if nothing is cached for a row
  that does not back it: the row was inserted just now, nothing was written to Redis, or
  the existing row is unrevoked, has the same data and lasts as long. */
  lemma RecreateExactly(s: Store, sid: Sid, rec: Record, ttl: nat, max: nat, setNx: Outcome)
    requires Coherent(s)
    ensures var s' := CreateDb(s, sid, rec, ttl, max, Fine, setNx).0;
      Coherent(s') <==>
        || sid !in s.rows
        || |ActiveSessions(s, rec.user)| >= max || !Effective(setNx) || CacheHit(s, sid)
        || (!s.rows[sid].revoked && s.rows[sid].rec == rec && s.now + ttl * 1000 < (s.rows[sid].expiresAt + 1) * 1000)
  {
    var s' := CreateDb(s, sid, rec, ttl, max, Fine, setNx).0;
    if sid in s'.cache {
      assert Coherent(s') ==> Backed(s', sid);
    }
  }

  /** A revocation leaves the cache coherent exactly if nothing was cached for the session,
  or the table was not reached, or the entry was taken away as well. */
  lemma RevokeExactly(s: Store, sid: Sid, db: Outcome, take: Outcome, decr: Outcome)
    requires Coherent(s)
    ensures Coherent(RevokeDb(s, sid, db, take, decr).0) <==> sid !in s.cache || Takes(db, take)
  {
    var s' := RevokeDb(s, sid, db, take, decr).0;
    if sid in s.cache {
      assert Backed(s, sid);
      assert sid in s'.cache && Coherent(s') ==> Backed(s', sid);
    }
  }

  // ---- the limit in the table --------------------------------------------

  lemma SubsetSize(a: set<Sid>, b: set<Sid>)
    requires a <= b
    ensures |a| <= |b|
  {
    assert b == a + (b - a);
  }

  lemma CreateKeepsLimit(s: Store, op: DbOp, max: nat, user: User)
    requires |ActiveSessions(s, user)| <= max && op.Create? && op.max == max
    ensures |ActiveSessions(DoDb(s, op), user)| <= max
  {
    if |ActiveSessions(s, op.rec.user)| >= max || op.sid in s.rows || op.db == Fails {
      assert ActiveSessions(DoDb(s, op), user) == ActiveSessions(s, user);
      return;
    }
    var s1 := s.(rows := s.rows[op.sid := Row(op.rec, Seconds(s.now) + op.ttl, false)]);
    SameRowsSameActive(s1, DoDb(s, op), user);
    NewRowActive(s, s1, op.sid, Row(op.rec, Seconds(s.now) + op.ttl, false), user);
    SubsetSize(ActiveSessions(s1, user), if op.rec.user == user then ActiveSessions(s, user) + {op.sid} else ActiveSessions(s, user));
  }

  lemma SameRowsSameActive(s: Store, t: Store, user: User)
    requires s.rows == t.rows && s.now == t.now
    ensures ActiveSessions(s, user) == ActiveSessions(t, user)
  {
  }

  lemma NewRowActive(s: Store, s1: Store, sid: Sid, row: Row, user: User)
    requires s1 == s.(rows := s.rows[sid := row])
    ensures ActiveSessions(s1, user) <= if row.rec.user == user then ActiveSessions(s, user) + {sid} else ActiveSessions(s, user)
  {
    forall k | k in ActiveSessions(s1, user) && k != sid ensures k in ActiveSessions(s, user) {
      assert RowLive(s1, k);
    }
  }

  lemma DbStepKeepsLimit(s: Store, op: DbOp, max: nat, user: User)
    requires |ActiveSessions(s, user)| <= max && (op.Create? ==> op.max == max)
    ensures |ActiveSessions(DoDb(s, op), user)| <= max
  {
    var s' := DoDb(s, op);
    if op.Create? {
      CreateKeepsLimit(s, op, max, user);
    } else {
      SubsetSize(ActiveSessions(s', user), ActiveSessions(s, user));
    }
  }

  /** With count and insert in one transaction, a user never has more active sessions
  in the table than the limit. */
  lemma {:induction false} ActiveSessionsWithinLimit(s: Store, ops: seq<DbOp>, max: nat, user: User)
    requires |ActiveSessions(s, user)| <= max
    requires forall i | 0 <= i < |ops| && ops[i].Create? :: ops[i].max == max
    ensures |ActiveSessions(RunDb(s, ops), user)| <= max
    decreases |ops|
  {
    if ops != [] {
      DbStepKeepsLimit(s, ops[0], max, user);
      ActiveSessionsWithinLimit(DoDb(s, ops[0]), ops[1..], max, user);
    }
  }

  // ---- Redis alone -------------------------------------------------------

  datatype RedisOp =
    | Login(sid: Sid, rec: Record, f: LoginFaults)
    | Logout(sid: Sid, take: Outcome, decr: Outcome)
    | Pass(ms: nat)

  /** One TTL for all sessions. */
  function DoRedis(s: Store, op: RedisOp, ttl: nat, max: nat): Store {
    match op
    case Login(sid, rec, f) => CreateRedis(s, sid, rec, ttl, max, f).0
    case Logout(sid, take, decr) => RevokeRedis(s, sid, take, decr).0
    case Pass(ms) => s.(now := s.now + ms)
  }

  function RunRedis(s: Store, ops: seq<RedisOp>, ttl: nat, max: nat): Store
    decreases |ops|
  {
    if ops == [] then s else RunRedis(DoRedis(s, ops[0], ttl, max), ops[1..], ttl, max)
  }

  function LiveSessions(s: Store, user: User): set<Sid> {
    set sid | sid in s.cache && CacheHit(s, sid) && s.cache[sid].rec.user == user
  }

  /** The counter outlives the sessions it counts, and its expiry is within one TTL. */
  predicate Outlives(s: Store, sid: Sid, ttl: nat)
    requires sid in s.cache
  {
    var user := s.cache[sid].rec.user;
    s.cache[sid].until <= s.now + ttl * 1000 &&
    (CacheHit(s, sid) ==>
      user in s.counts && s.counts[user].until.Some? && s.cache[sid].until <= s.counts[user].until.value)
  }

  /** Every live session is counted, and the counter will last as long. */
  ghost predicate LowerOk(s: Store, ttl: nat) {
    && (forall sid | sid in s.cache :: Outlives(s, sid, ttl))
    && (forall user :: |LiveSessions(s, user)| <= LiveCount(s, user))
  }

  predicate UpperOk(s: Store, max: nat) {
    forall user | user in s.counts :: LiveCount(s, user) <= max
  }

  /** The faults after which no live session is left uncounted ... */
  predicate SafeLower(f: LoginFaults) {
    || f.setNx == Fails
    || (f.setNx == Fine && (f.incr == FailsLate || (f.incr == Fine && (Effective(f.del) || f.decr == Fails))))
  }

  /** ... and those after which the counter is not left above the limit. */
  predicate SafeUpper(f: LoginFaults) {
    f.setNx != Fine || f.incr == Fails || (f.incr == Fine && Effective(f.decr))
  }

  lemma LoginKeepsLower(s: Store, sid: Sid, rec: Record, ttl: nat, max: nat, f: LoginFaults)
    requires LowerOk(s, ttl) && ttl > 0 && SafeLower(f)
    ensures LowerOk(CreateRedis(s, sid, rec, ttl, max, f).0, ttl)
  {
    var s' := CreateRedis(s, sid, rec, ttl, max, f).0;
    if f.setNx == Fine && !CacheHit(s, sid) {
      forall k | k in s'.cache
        ensures Outlives(s', k, ttl)
      {
        assert k in s.cache ==> Outlives(s, k, ttl);
      }
      forall user
        ensures |LiveSessions(s', user)| <= LiveCount(s', user)
      {
        LoginCounts(s, sid, rec, ttl, max, f, user);
      }
    }
  }

  lemma LoginCounts(s: Store, sid: Sid, rec: Record, ttl: nat, max: nat, f: LoginFaults, user: User)
    requires |LiveSessions(s, user)| <= LiveCount(s, user) && !CacheHit(s, sid) && ttl > 0 && SafeLower(f) && f.setNx == Fine
    ensures var s' := CreateRedis(s, sid, rec, ttl, max, f).0; |LiveSessions(s', user)| <= LiveCount(s', user)
  {
    var s' := CreateRedis(s, sid, rec, ttl, max, f).0;
    SubsetSize(LiveSessions(s', user), if user == rec.user && sid in s'.cache then LiveSessions(s, user) + {sid} else LiveSessions(s, user));
  }

  lemma LoginKeepsUpper(s: Store, sid: Sid, rec: Record, ttl: nat, max: nat, f: LoginFaults)
    requires UpperOk(s, max) && ttl > 0 && SafeUpper(f)
    ensures UpperOk(CreateRedis(s, sid, rec, ttl, max, f).0, max)
  {
  }

  /** No logout can harm the bounds, whatever fails: at worst a session is counted on. */
  lemma LogoutKeepsCounts(s: Store, sid: Sid, take: Outcome, decr: Outcome, ttl: nat, max: nat)
    requires LowerOk(s, ttl)
    ensures LowerOk(RevokeRedis(s, sid, take, decr).0, ttl)
    ensures UpperOk(s, max) ==> UpperOk(RevokeRedis(s, sid, take, decr).0, max)
    ensures CacheHit(s, sid) ==> LiveCount(s, s.cache[sid].rec.user) > 0
  {
    var s' := RevokeRedis(s, sid, take, decr).0;
    if CacheHit(s, sid) {
      var owner := s.cache[sid].rec.user;
      assert Outlives(s, sid, ttl) && |LiveSessions(s, owner)| <= LiveCount(s, owner);
      assert sid in LiveSessions(s, owner);
    }
    forall k | k in s'.cache
      ensures Outlives(s', k, ttl)
    {
      assert Outlives(s, k, ttl);
    }
    forall user
      ensures |LiveSessions(s', user)| <= LiveCount(s', user)
    {
      assert |LiveSessions(s, user)| <= LiveCount(s, user);
      if CacheHit(s, sid) && s.cache[sid].rec.user == user && Effective(take) {
        assert LiveSessions(s', user) == LiveSessions(s, user) - {sid};
      } else {
        assert LiveSessions(s', user) == LiveSessions(s, user);
      }
    }
  }

  lemma PassKeepsCounts(s: Store, ms: nat, ttl: nat, max: nat)
    requires LowerOk(s, ttl)
    ensures LowerOk(s.(now := s.now + ms), ttl)
    ensures UpperOk(s, max) ==> UpperOk(s.(now := s.now + ms), max)
  {
    var s' := s.(now := s.now + ms);
    forall k | k in s'.cache
      ensures Outlives(s', k, ttl)
    {
      assert Outlives(s, k, ttl);
    }
    forall user
      ensures |LiveSessions(s', user)| <= LiveCount(s', user)
    {
      assert |LiveSessions(s, user)| <= LiveCount(s, user);
      SubsetSize(LiveSessions(s', user), LiveSessions(s, user));
      if LiveSessions(s', user) != {} {
        var k :| k in LiveSessions(s', user);
        assert Outlives(s, k, ttl);
      }
    }
  }

  predicate LoginsAre(ops: seq<RedisOp>, safe: LoginFaults -> bool) {
    forall i | 0 <= i < |ops| && ops[i].Login? :: safe(ops[i].f)
  }

  /** Without a database, on every run with one TTL whose logins fail in safe ways only, and
  whatever fails in its logouts: at every moment every unexpired session is counted --
  through rollbacks, revocations and expiries. */
  lemma {:induction false} CounterCoversSessions(s: Store, ops: seq<RedisOp>, ttl: nat, max: nat)
    requires LowerOk(s, ttl) && ttl > 0 && LoginsAre(ops, SafeLower)
    ensures LowerOk(RunRedis(s, ops, ttl, max), ttl)
    decreases |ops|
  {
    if ops != [] {
      match ops[0] {
        case Login(sid, rec, f) => LoginKeepsLower(s, sid, rec, ttl, max, f);
        case Logout(sid, take, decr) => LogoutKeepsCounts(s, sid, take, decr, ttl, max);
        case Pass(ms) => PassKeepsCounts(s, ms, ttl, max);
      }
      CounterCoversSessions(DoRedis(s, ops[0], ttl, max), ops[1..], ttl, max);
    }
  }

  /** ... and the counter stays within the limit. */
  lemma {:induction false} CounterWithinLimit(s: Store, ops: seq<RedisOp>, ttl: nat, max: nat)
    requires LowerOk(s, ttl) && UpperOk(s, max) && ttl > 0 && LoginsAre(ops, SafeLower) && LoginsAre(ops, SafeUpper)
    ensures UpperOk(RunRedis(s, ops, ttl, max), max)
    decreases |ops|
  {
    if ops != [] {
      match ops[0] {
        case Login(sid, rec, f) =>
          LoginKeepsUpper(s, sid, rec, ttl, max, f);
          LoginKeepsLower(s, sid, rec, ttl, max, f);
        case Logout(sid, take, decr) => LogoutKeepsCounts(s, sid, take, decr, ttl, max);
        case Pass(ms) => PassKeepsCounts(s, ms, ttl, max);
      }
      CounterWithinLimit(DoRedis(s, ops[0], ttl, max), ops[1..], ttl, max);
    }
  }

  lemma SessionsWithinLimit(ops: seq<RedisOp>, ttl: nat, max: nat, user: User)
    requires ttl > 0 && LoginsAre(ops, SafeLower) && LoginsAre(ops, SafeUpper)
    ensures var s := RunRedis(EMPTY, ops, ttl, max);
      |LiveSessions(s, user)| <= LiveCount(s, user) <= max
  {
    assert forall u :: LiveSessions(EMPTY, u) == {};
    CounterCoversSessions(EMPTY, ops, ttl, max);
    CounterWithinLimit(EMPTY, ops, ttl, max);
  }

  // ---- the safe faults are the only ones ---------------------------------

  function UpTo(n: nat): (r: set<Sid>)
    ensures |r| == n && forall sid :: sid in r <==> 0 <= sid < n
  {
    if n == 0 then {} else UpTo(n - 1) + {n - 1}
  }

  /** User 1 has n live sessions, all counted. */
  function Full(n: nat, ttl: nat): Store {
    Store(0, map[], map sid | sid in UpTo(n) :: Cached(Record(1, None, None), ttl * 1000), map[1 := Counter(n, Some(ttl * 1000))])
  }

  lemma FullOk(n: nat, ttl: nat)
    requires ttl > 0
    ensures LowerOk(Full(n, ttl), ttl) && UpperOk(Full(n, ttl), n) && |LiveSessions(Full(n, ttl), 1)| == n
  {
    var s := Full(n, ttl);
    assert LiveSessions(s, 1) == UpTo(n);
    forall user ensures |LiveSessions(s, user)| <= LiveCount(s, user) {
      assert user != 1 ==> LiveSessions(s, user) == {};
    }
  }

  lemma UnsafeLeavesOneOut(f: LoginFaults, ttl: nat, max: nat)
    requires ttl > 0 && !SafeLower(f)
    ensures !LowerOk(CreateRedis(Full(max, ttl), max, Record(1, None, None), ttl, max, f).0, ttl)
  {
    var s := Full(max, ttl);
    FullOk(max, ttl);
    var s' := CreateRedis(s, max, Record(1, None, None), ttl, max, f).0;
    assert LiveSessions(s', 1) == LiveSessions(s, 1) + {max};
    assert LiveCount(s', 1) == max;
  }

  /** Whatever the limit: a login keeps every session counted, from every state within the
  bounds, if and only if its faults are safe. */
  lemma LowerKeptExactlyWhen(f: LoginFaults, ttl: nat, max: nat)
    requires ttl > 0
    ensures (forall s, sid, rec | LowerOk(s, ttl) && UpperOk(s, max) :: LowerOk(CreateRedis(s, sid, rec, ttl, max, f).0, ttl)) <==> SafeLower(f)
  {
    if SafeLower(f) {
      forall s, sid, rec | LowerOk(s, ttl) && UpperOk(s, max) ensures LowerOk(CreateRedis(s, sid, rec, ttl, max, f).0, ttl) {
        LoginKeepsLower(s, sid, rec, ttl, max, f);
      }
    } else {
      FullOk(max, ttl);
      UnsafeLeavesOneOut(f, ttl, max);
    }
  }

  /** ... and keeps the counter within the limit if and only if its faults are safe so. */
  lemma UpperKeptExactlyWhen(f: LoginFaults, ttl: nat, max: nat)
    requires ttl > 0
    ensures (forall s, sid, rec | LowerOk(s, ttl) && UpperOk(s, max) :: UpperOk(CreateRedis(s, sid, rec, ttl, max, f).0, max)) <==> SafeUpper(f)
  {
    if SafeUpper(f) {
      forall s, sid, rec | LowerOk(s, ttl) && UpperOk(s, max) ensures UpperOk(CreateRedis(s, sid, rec, ttl, max, f).0, max) {
        LoginKeepsUpper(s, sid, rec, ttl, max, f);
      }
    } else {
      var s, rec := Full(max, ttl), Record(1, None, None);
      FullOk(max, ttl);
      var s' := CreateRedis(s, max, rec, ttl, max, f).0;
      assert LiveCount(s', 1) == max + 1 && 1 in s'.counts;
      assert !UpperOk(s', max);
    }
  }
}
