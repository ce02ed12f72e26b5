/** The session lookup without a database, told from the calls that were made. */
module SessionLookup {
  import opened Wrappers
  import opened Sessions
  import opened SessionTheorems

  /** Every login brings its own lifetime and limit; Redis may lose an entry at any time. */
  datatype Call =
    | LogIn(sid: Sid, rec: Record, ttl: nat, max: nat, f: LoginFaults)
    | LogOut(sid: Sid, take: Outcome, decr: Outcome)
    | Lose(sid: Sid)
    | Pass(ms: nat)

  function Do(s: Store, call: Call): Store {
    match call
    case LogIn(sid, rec, ttl, max, f) => CreateRedis(s, sid, rec, ttl, max, f).0
    case LogOut(sid, take, decr) => RevokeRedis(s, sid, take, decr).0
    case Lose(sid) => CacheTake(s, sid)
    case Pass(ms) => s.(now := s.now + ms)
  }

  /** The store after the first n calls. */
  function After(calls: seq<Call>, n: nat): Store
    requires n <= |calls|
  {
    if n == 0 then EMPTY else Do(After(calls, n - 1), calls[n - 1])
  }

  /** Logins of one lifetime and limit are a special case. */
  function CallOf(op: RedisOp, ttl: nat, max: nat): Call {
    match op
    case Login(sid, rec, f) => LogIn(sid, rec, ttl, max, f)
    case Logout(sid, take, decr) => LogOut(sid, take, decr)
    case Pass(ms) => Call.Pass(ms)
  }

  lemma {:induction false} RunIsAfter(ops: seq<RedisOp>, calls: seq<Call>, n: nat, ttl: nat, max: nat)
    requires |calls| == |ops| && n <= |ops|
    requires forall i | 0 <= i < |ops| :: calls[i] == CallOf(ops[i], ttl, max)
    ensures RunRedis(After(calls, n), ops[n..], ttl, max) == RunRedis(EMPTY, ops, ttl, max)
    decreases n
  {
    if n == 0 {
      assert ops[0..] == ops;
    } else {
      RunIsAfter(ops, calls, n - 1, ttl, max);
      assert ops[n - 1..][1..] == ops[n..];
      assert calls[n - 1] == CallOf(ops[n - 1], ttl, max);
    }
  }

  /** The milliseconds that pass during the first n calls. */
  function Clock(calls: seq<Call>, n: nat): nat
    requires n <= |calls|
  {
    if n == 0 then 0 else Clock(calls, n - 1) + if calls[n - 1].Pass? then calls[n - 1].ms else 0
  }

  /** The login went over the limit, noticed, and took its entry back. */
  predicate TakenBack(s: Store, user: User, max: nat, f: LoginFaults) {
    f.setNx == Fine && f.incr == Fine && LiveCount(s, user) >= max && Effective(f.del)
  }

  predicate Ends(call: Call, sid: Sid) {
    || (call.LogOut? && call.sid == sid && Effective(call.take))
    || (call.Lose? && call.sid == sid)
  }

  /** Of the first n calls, call k is the login that the session stands on: it found
  no other standing, its entry was written and not taken back, no logout of the id
  took effect since, the entry was not lost, and its lifetime has not passed. */
  ghost predicate Stands(calls: seq<Call>, n: nat, k: nat, sid: Sid)
    requires n <= |calls|
    decreases k
  {
    && k < n && calls[k].LogIn? && calls[k].sid == sid && Effective(calls[k].f.setNx)
    && !TakenBack(After(calls, k), calls[k].rec.user, calls[k].max, calls[k].f)
    && (forall j: nat | j < k :: !Stands(calls, k, j, sid))
    && (forall m | k < m < n :: !Ends(calls[m], sid))
    && Clock(calls, n) < Clock(calls, k) + calls[k].ttl * 1000
  }

  /** The entry of the id is that of the login it stands on. */
  ghost predicate Tells(calls: seq<Call>, n: nat, sid: Sid)
    requires n <= |calls|
  {
    var s := After(calls, n);
    && s.now == Clock(calls, n)
    && (CacheHit(s, sid) ==> exists k: nat :: Stands(calls, n, k, sid))
    && (forall k: nat | Stands(calls, n, k, sid) ::
          sid in s.cache && s.cache[sid] == Cached(calls[k].rec, Clock(calls, k) + calls[k].ttl * 1000))
  }

  /** An earlier login stands on exactly if it stood before the last call and this call
  neither ended nor outlasted it. */
  lemma EarlierStands(calls: seq<Call>, n: nat, k: nat, sid: Sid)
    requires 0 < n <= |calls| && k < n - 1
    ensures Stands(calls, n, k, sid) <==>
      Stands(calls, n - 1, k, sid) && !Ends(calls[n - 1], sid) && Clock(calls, n) < Clock(calls, k) + calls[k].ttl * 1000
  {
  }

  /** What one call does to the entry of an id it does not log in. */
  lemma EntryKept(s: Store, s': Store, call: Call, sid: Sid)
    requires s' == Do(s, call) && !(call.LogIn? && call.sid == sid)
    ensures if Ends(call, sid) then sid !in s'.cache
      else (sid in s'.cache <==> sid in s.cache) && (sid in s.cache ==> s'.cache[sid] == s.cache[sid])
    ensures s'.now == s.now + if call.Pass? then call.ms else 0
  {
  }

  lemma OtherCallTells(calls: seq<Call>, n: nat, sid: Sid, s: Store, s': Store)
    requires 0 < n <= |calls| && Tells(calls, n - 1, sid) && s == After(calls, n - 1) && s' == After(calls, n)
    requires !(calls[n - 1].LogIn? && calls[n - 1].sid == sid)
    ensures Tells(calls, n, sid)
  {
    EntryKept(s, s', calls[n - 1], sid);
    forall k: nat | Stands(calls, n, k, sid)
      ensures Stands(calls, n - 1, k, sid) && !Ends(calls[n - 1], sid)
    {
      EarlierStands(calls, n, k, sid);
    }
    if CacheHit(s', sid) {
      assert CacheHit(s, sid);
      var k: nat :| Stands(calls, n - 1, k, sid);
      EarlierStands(calls, n, k, sid);
    }
  }

  /** What a login does to the entry of its id. */
  lemma EntryWritten(s: Store, s': Store, call: Call)
    requires s' == Do(s, call) && call.LogIn?
    ensures s'.now == s.now
    ensures CacheHit(s, call.sid) ==> s'.cache == s.cache
    ensures !CacheHit(s, call.sid) && (call.f.setNx == Fails || TakenBack(s, call.rec.user, call.max, call.f)) ==> !CacheHit(s', call.sid)
    ensures !CacheHit(s, call.sid) && Effective(call.f.setNx) && !TakenBack(s, call.rec.user, call.max, call.f) ==>
      call.sid in s'.cache && s'.cache[call.sid] == Cached(call.rec, s.now + call.ttl * 1000)
  {
  }

  lemma RefusedLoginTells(calls: seq<Call>, n: nat, sid: Sid, s: Store, s': Store)
    requires 0 < n <= |calls| && Tells(calls, n - 1, sid) && s == After(calls, n - 1) && s' == After(calls, n)
    requires calls[n - 1].LogIn? && calls[n - 1].sid == sid && CacheHit(s, sid)
    ensures Tells(calls, n, sid)
  {
    EntryWritten(s, s', calls[n - 1]);
    var k: nat :| Stands(calls, n - 1, k, sid);
    EarlierStands(calls, n, k, sid);
    assert !Stands(calls, n, n - 1, sid);
    forall i: nat | Stands(calls, n, i, sid)
      ensures Stands(calls, n - 1, i, sid)
    {
      EarlierStands(calls, n, i, sid);
    }
  }

  lemma NewLoginTells(calls: seq<Call>, n: nat, sid: Sid, s: Store, s': Store)
    requires 0 < n <= |calls| && Tells(calls, n - 1, sid) && s == After(calls, n - 1) && s' == After(calls, n)
    requires calls[n - 1].LogIn? && calls[n - 1].sid == sid && !CacheHit(s, sid)
    ensures Tells(calls, n, sid)
  {
    var call := calls[n - 1];
    EntryWritten(s, s', call);
    forall i: nat | i < n - 1
      ensures !Stands(calls, n - 1, i, sid) && !Stands(calls, n, i, sid)
    {
      EarlierStands(calls, n, i, sid);
    }
    assert Stands(calls, n, n - 1, sid) <==>
      Effective(call.f.setNx) && !TakenBack(s, call.rec.user, call.max, call.f) && 0 < call.ttl;
  }

  lemma {:induction false} AfterTells(calls: seq<Call>, n: nat, sid: Sid)
    requires n <= |calls|
    ensures Tells(calls, n, sid)
    decreases n
  {
    if n > 0 {
      AfterTells(calls, n - 1, sid);
      var s, s' := After(calls, n - 1), After(calls, n);
      if !(calls[n - 1].LogIn? && calls[n - 1].sid == sid) {
        OtherCallTells(calls, n, sid, s, s');
      } else if CacheHit(s, sid) {
        RefusedLoginTells(calls, n, sid, s, s');
      } else {
        NewLoginTells(calls, n, sid, s, s');
      }
    }
  }

  /** Without a database, on every run of logins, logouts, losses and waits, whatever
  fails in them: a lookup whose read succeeds accepts exactly if the session stands on a login of
  that very user, and answers that login's record; a session of somebody else and a
  session that does not stand are refused alike. */
  lemma LookupFindsTheLogin(calls: seq<Call>, sid: Sid, user: User)
    ensures var a := ValidateRedis(After(calls, |calls|), sid, user, Fine);
      && (a.Ok? <==> exists k: nat :: Stands(calls, |calls|, k, sid) && calls[k].rec.user == user)
      && (forall k: nat | Stands(calls, |calls|, k, sid) && calls[k].rec.user == user :: a == Ok(calls[k].rec))
      && (!a.Ok? ==> a == Unauthorized)
  {
    AfterTells(calls, |calls|, sid);
  }

  /** In particular on the runs of one lifetime and limit. */
  lemma LookupAfterRun(ops: seq<RedisOp>, sid: Sid, user: User, ttl: nat, max: nat)
    ensures var a := ValidateRedis(RunRedis(EMPTY, ops, ttl, max), sid, user, Fine);
      var calls := seq(|ops|, i requires 0 <= i < |ops| => CallOf(ops[i], ttl, max));
      && (a.Ok? <==> exists k: nat :: Stands(calls, |calls|, k, sid) && calls[k].rec.user == user)
      && (forall k: nat | Stands(calls, |calls|, k, sid) && calls[k].rec.user == user :: a == Ok(calls[k].rec))
  {
    var calls := seq(|ops|, i requires 0 <= i < |ops| => CallOf(ops[i], ttl, max));
    LookupFindsTheLogin(calls, sid, user);
    RunIsAfter(ops, calls, |ops|, ttl, max);
    var s := After(calls, |ops|);
    assert RunRedis(s, [], ttl, max) == s;
  }

  /** At most one login stands at a time. */
  lemma OneStands(calls: seq<Call>, n: nat, i: nat, j: nat, sid: Sid)
    requires n <= |calls| && Stands(calls, n, i, sid) && Stands(calls, n, j, sid)
    ensures i == j
  {
    if i < j {
      StoodBefore(calls, n, i, j, sid);
    } else if j < i {
      StoodBefore(calls, n, j, i, sid);
    }
  }

  lemma {:induction false} StoodBefore(calls: seq<Call>, n: nat, k: nat, m: nat, sid: Sid)
    requires n <= |calls| && Stands(calls, n, k, sid) && k < m <= n
    ensures Stands(calls, m, k, sid)
    decreases n - m
  {
    if m < n {
      StoodBefore(calls, n, k, m + 1, sid);
      EarlierStands(calls, m + 1, k, sid);
    }
  }

  /** A logout undoes a login: no entry is left and the counter is where it was. */
  lemma LogoutUndoesLogin(s: Store, sid: Sid, rec: Record, ttl: nat, max: nat)
    requires !CacheHit(s, sid) && ttl > 0 && 0 <= LiveCount(s, rec.user) < max
    ensures var (s1, a) := CreateRedis(s, sid, rec, ttl, max, SMOOTH_LOGIN);
      var (s2, b) := RevokeRedis(s1, sid, Fine, Fine);
      && a == Done && b == Done && LiveCount(s1, rec.user) == LiveCount(s, rec.user) + 1
      && s2.cache == s.cache - {sid} && LiveCount(s2, rec.user) == LiveCount(s, rec.user)
      && (forall user | user != rec.user :: LiveCount(s2, user) == LiveCount(s, user))
  {
    var s1 := CreateRedis(s, sid, rec, ttl, max, SMOOTH_LOGIN).0;
    assert CacheHit(s1, sid) && LiveCount(s1, rec.user) == LiveCount(s, rec.user) + 1;
    assert s1.cache - {sid} == s.cache - {sid};
  }
}
