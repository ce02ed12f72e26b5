/** What a reconciliation worker does to the session store and the blacklist when it
executes an operation, what executing it twice does, and what a retry repairs.
*/
module ReconExecute {
  import opened Wrappers
  import opened Decimal
  import S = Sessions
  import B = Blacklist

  datatype Op =
    | TokenRevocation(jti: B.Jti, ttl: nat)
    | SessionSync(sid: S.Sid, user: S.User, expiresAt: nat, expected: Option<nat>)
    | SessionRevoke(sid: S.Sid, token: Option<B.Jti>, tokenExp: Option<nat>)

  /** Everything an operation reads or writes; `versions` holds text and is only read. */
  datatype Stores = Stores(store: S.Store, lists: B.Lists, versions: map<S.Sid, string>)

  /** How each command ends: the version read; the session transaction or update; a login's
  Redis commands; a logout's GETDEL and DECR; the blacklist's row and key. */
  datatype Faults = Faults(version: Outcome, db: Outcome, login: S.LoginFaults, take: Outcome, decr: Outcome, row: Outcome, key: Outcome)

  const NO_FAULTS := Faults(Fine, Fine, S.SMOOTH_LOGIN, Fine, Fine, Fine, Fine)

  /** A missing key and one that is no number both read as zero. */
  function Version(g: Stores, sid: S.Sid): nat {
    if sid in g.versions && ParsedU64(g.versions[sid]).Some? then ParsedU64(g.versions[sid]).value else 0
  }

  function Ttl(now: nat, expiresAt: nat, maxTtl: nat): nat {
    var left := if expiresAt > now / 1000 then expiresAt - now / 1000 else 0;
    if left < maxTtl then left else maxTtl
  }

  function Created(hasDb: bool, s: S.Store, sid: S.Sid, rec: S.Record, ttl: nat, max: nat, f: Faults): (S.Store, S.Answer) {
    if hasDb then S.CreateDb(s, sid, rec, ttl, max, f.db, f.login.setNx) else S.CreateRedis(s, sid, rec, ttl, max, f.login)
  }

  function SessionRevoked(hasDb: bool, s: S.Store, sid: S.Sid, f: Faults): (S.Store, S.Answer) {
    if hasDb then S.RevokeDb(s, sid, f.db, f.take, f.decr) else S.RevokeRedis(s, sid, f.take, f.decr)
  }

  /** Does the operation go as far as creating a session? */
  predicate SyncApplies(g: Stores, op: Op, maxTtl: nat) {
    op.SessionSync? && (op.expected.None? || op.expected.value == Version(g, op.sid)) && Ttl(g.store.now, op.expiresAt, maxTtl) > 0
  }

  function Executed(hasDb: bool, g: Stores, op: Op, maxTtl: nat, max: nat, f: Faults): (Stores, bool) {
    match op
    case TokenRevocation(jti, ttl) =>
      var (lists, ok) := B.Revoked(hasDb, g.lists, jti, ttl, f.row, f.key);
      (g.(lists := lists), ok)
    case SessionSync(sid, user, expiresAt, expected) =>
      if expected.Some? && f.version != Fine then (g, false)
      else if !SyncApplies(g, op, maxTtl) then (g, true)
      else
        var (store, a) := Created(hasDb, g.store, sid, S.Record(user, None, None), Ttl(g.store.now, expiresAt, maxTtl), max, f);
        (g.(store := store), a == S.Done)
    case SessionRevoke(sid, token, tokenExp) =>
      var (store, a) := SessionRevoked(hasDb, g.store, sid, f);
      var g1 := g.(store := store);
      if a != S.Done then (g1, false)
      else if token.Some? && tokenExp.Some? && tokenExp.value > g.store.now / 1000 then
        var (lists, ok) := B.Revoked(hasDb, g.lists, token.value, tokenExp.value - g.store.now / 1000, f.row, f.key);
        (g1.(lists := lists), ok)
      else (g1, true)
  }

  /** The worker with the two stores it works on. */
  class Worker {
    const store: S.SessionStore
    const blacklist: B.TokenBlacklist
    const maxTtl: nat
    const maxSessions: nat
    var versions: map<S.Sid, string>

    constructor (store: S.SessionStore, blacklist: B.TokenBlacklist, maxTtl: nat, maxSessions: nat)
      ensures this.store == store && this.blacklist == blacklist && this.maxTtl == maxTtl && this.maxSessions == maxSessions
      ensures versions == map[]
    {
      this.store, this.blacklist, this.maxTtl, this.maxSessions := store, blacklist, maxTtl, maxSessions;
      versions := map[];
    }

    predicate Joined()
      reads this, store, blacklist
    {
      store.hasDb == blacklist.hasDb && store.now == blacklist.now
    }

    function State(): Stores
      reads this, store, blacklist
    {
      Stores(store.State(), blacklist.State(), versions)
    }

    method CurrentSessionVersion(sid: S.Sid, read: Outcome) returns (version: Option<nat>)
      ensures version == if read == Fine then Some(Version(State(), sid)) else None
    {
      if read != Fine {
        return None;
      }
      if sid !in versions {
        return Some(0);
      }
      var parsed := ParsedU64(versions[sid]);
      return if parsed.Some? then parsed else Some(0);
    }

    method Execute(op: Op, f: Faults) returns (ok: bool)
      requires Joined()
      modifies store, blacklist
      ensures Joined() && (State(), ok) == Executed(store.hasDb, old(State()), op, maxTtl, maxSessions, f)
    {
      var now := store.now;
      match op {
        case TokenRevocation(jti, ttl) =>
          ok := blacklist.Revoke(jti, ttl, f.row, f.key);
        case SessionSync(sid, user, expiresAt, expected) =>
          if expected.Some? {
            var current := CurrentSessionVersion(sid, f.version);
            if current.None? {
              return false;
            }
            if current.value != expected.value {
              return true;
            }
          }
          var ttl := Ttl(now, expiresAt, maxTtl);
          if ttl == 0 {
            return true;
          }
          var a := store.CreateSession(sid, S.Record(user, None, None), ttl, maxSessions, f.db, f.login);
          ok := a == S.Done;
          CreateKeepsNow(store.hasDb, old(store.State()), sid, S.Record(user, None, None), ttl, maxSessions, f);
        case SessionRevoke(sid, token, tokenExp) =>
          var a := store.RevokeSession(sid, f.db, f.take, f.decr);
          RevokeKeepsNow(store.hasDb, old(store.State()), sid, f);
          if a != S.Done {
            return false;
          }
          ok := true;
          if token.Some? && tokenExp.Some? {
            var ttl := if tokenExp.value > now / 1000 then tokenExp.value - now / 1000 else 0;
            if ttl > 0 {
              ok := blacklist.Revoke(token.value, ttl, f.row, f.key);
            }
          }
      }
    }
  }

  lemma CreateKeepsNow(hasDb: bool, s: S.Store, sid: S.Sid, rec: S.Record, ttl: nat, max: nat, f: Faults)
    ensures Created(hasDb, s, sid, rec, ttl, max, f).0.now == s.now
  {
  }

  lemma RevokeKeepsNow(hasDb: bool, s: S.Store, sid: S.Sid, f: Faults)
    ensures SessionRevoked(hasDb, s, sid, f).0.now == s.now
  {
  }

  // ---- what a failed attempt leaves to a retry ---------------------------

  /** A blacklist write is repaired by its retry, whatever took effect. */
  lemma RetryRevoke(hasDb: bool, s: B.Lists, jti: B.Jti, ttl: nat, row: Outcome, key: Outcome)
    ensures B.Revoked(hasDb, B.Revoked(hasDb, s, jti, ttl, row, key).0, jti, ttl, Fine, Fine) == B.Revoked(hasDb, s, jti, ttl, Fine, Fine)
  {
    var s1 := B.Revoked(hasDb, s, jti, ttl, row, key).0;
    assert s1.cache[jti := s.now + ttl * 1000] == s.cache[jti := s.now + ttl * 1000];
  }

  /** The entry was taken from Redis but its session never came off the counter. */
  predicate LeftCounted(hasDb: bool, s: S.Store, sid: S.Sid, f: Faults) {
    && (hasDb ==> f.db == Fine) && S.CacheHit(s, sid)
    && (f.take == FailsLate || (f.take == Fine && f.decr == Fails))
    && S.Decremented(s, s.cache[sid].rec.user) != s
  }

  lemma RetryRevokeSession(hasDb: bool, s: S.Store, sid: S.Sid, f: Faults)
    ensures SessionRevoked(hasDb, SessionRevoked(hasDb, s, sid, f).0, sid, NO_FAULTS) == SessionRevoked(hasDb, s, sid, NO_FAULTS)
      <==> !LeftCounted(hasDb, s, sid, f)
  {
    var t := if hasDb then S.RowRevoked(s, sid) else s;
    if hasDb && sid in s.rows {
      assert t.rows[sid := t.rows[sid].(revoked := true)] == t.rows;
    }
    if hasDb && f.db == Fails {
      return;
    }
    if hasDb && f.db == FailsLate {
      return;
    }
    assert SessionRevoked(hasDb, s, sid, f).0 == S.Taken(t, sid, f.take, f.decr);
    RetryTaken(t, sid, f.take, f.decr);
    assert hasDb ==> S.RowRevoked(S.Taken(t, sid, f.take, f.decr), sid).rows == t.rows;
  }

  /** GETDEL again after GETDEL: what was taken without being counted off stays counted. */
  lemma RetryTaken(s: S.Store, sid: S.Sid, take: Outcome, decr: Outcome)
    ensures S.Taken(S.Taken(s, sid, take, decr), sid, Fine, Fine) == S.Taken(s, sid, Fine, Fine)
      <==> !(S.CacheHit(s, sid) && (take == FailsLate || (take == Fine && decr == Fails)) && S.Decremented(s, s.cache[sid].rec.user) != s)
  {
    assert s.cache - {sid} - {sid} == s.cache - {sid};
    if S.CacheHit(s, sid) {
      assert S.Taken(s, sid, Fine, Fine).counts == S.Decremented(s, s.cache[sid].rec.user).counts;
    }
  }

  /** What a failed login leaves behind that its retry takes for finished: a key that is not
  counted, a session over the limit, or a count without a key. */
  predicate HalfLoggedIn(s: S.Store, sid: S.Sid, rec: S.Record, max: nat, f: S.LoginFaults) {
    var over := S.LiveCount(s, rec.user) + 1 > max;
    && !S.CacheHit(s, sid) && f.setNx != Fails
    && (f.setNx == FailsLate || f.incr == Fails || (over && (f.incr == FailsLate || f.del == Fails || f.decr == Fails)))
  }

  lemma RetryLogin(s: S.Store, sid: S.Sid, rec: S.Record, ttl: nat, max: nat, f: S.LoginFaults)
    requires ttl > 0 && S.CreateRedis(s, sid, rec, ttl, max, f).1 != S.Done
    ensures S.CreateRedis(S.CreateRedis(s, sid, rec, ttl, max, f).0, sid, rec, ttl, max, S.SMOOTH_LOGIN) == S.CreateRedis(s, sid, rec, ttl, max, S.SMOOTH_LOGIN)
      <==> !HalfLoggedIn(s, sid, rec, max, f)
  {
    if !S.CacheHit(s, sid) && f.setNx != Fails {
      if f.setNx == FailsLate || f.incr != Fine {
        RetryKeyedLogin(s, sid, rec, ttl, max, f);
      } else {
        RetryRolledBack(s, sid, rec, ttl, max, f);
      }
    }
  }

  /** The key is there already: the retry answers without counting. */
  lemma RetryKeyedLogin(s: S.Store, sid: S.Sid, rec: S.Record, ttl: nat, max: nat, f: S.LoginFaults)
    requires ttl > 0 && !S.CacheHit(s, sid) && f.setNx != Fails && (f.setNx == FailsLate || f.incr != Fine)
    ensures S.CreateRedis(S.CreateRedis(s, sid, rec, ttl, max, f).0, sid, rec, ttl, max, S.SMOOTH_LOGIN) == S.CreateRedis(s, sid, rec, ttl, max, S.SMOOTH_LOGIN)
      <==> !HalfLoggedIn(s, sid, rec, max, f)
  {
    var s1 := S.CreateRedis(s, sid, rec, ttl, max, f).0;
    assert S.CacheHit(s1, sid);
    assert S.CreateRedis(s1, sid, rec, ttl, max, S.SMOOTH_LOGIN) == (s1, S.Done);
    var s2 := S.Incremented(S.CachePut(s, sid, rec, ttl), rec.user, ttl);
    if S.LiveCount(s, rec.user) + 1 > max {
      assert S.CreateRedis(s, sid, rec, ttl, max, S.SMOOTH_LOGIN).1 == S.LimitReached;
    } else {
      assert S.CreateRedis(s, sid, rec, ttl, max, S.SMOOTH_LOGIN) == (s2, S.Done);
      assert f.setNx == FailsLate || f.incr == Fails ==> S.LiveCount(s1, rec.user) != S.LiveCount(s2, rec.user);
    }
  }

  /** The login was over the limit: what the rollback left decides. */
  lemma RetryRolledBack(s: S.Store, sid: S.Sid, rec: S.Record, ttl: nat, max: nat, f: S.LoginFaults)
    requires ttl > 0 && !S.CacheHit(s, sid) && f.setNx == Fine && f.incr == Fine && S.LiveCount(s, rec.user) + 1 > max
    ensures S.CreateRedis(S.CreateRedis(s, sid, rec, ttl, max, f).0, sid, rec, ttl, max, S.SMOOTH_LOGIN) == S.CreateRedis(s, sid, rec, ttl, max, S.SMOOTH_LOGIN)
      <==> !HalfLoggedIn(s, sid, rec, max, f)
  {
    RolledBackTo(s, sid, rec, ttl, max, S.SMOOTH_LOGIN);
    if f.del == Fails {
      KeyLeftBehind(s, sid, rec, ttl, max, f);
      return;
    }
    var s1 := S.CreateRedis(s, sid, rec, ttl, max, f).0;
    RolledBackTo(s, sid, rec, ttl, max, f);
    RolledBackTo(s1, sid, rec, ttl, max, S.SMOOTH_LOGIN);
    var left, until := S.LiveCount(s1, rec.user), Some(s.now + ttl * 1000);
    assert s1.cache - {sid} == s.cache - {sid};
    assert s1.counts[rec.user := S.Counter(left, until)] == s.counts[rec.user := S.Counter(left, until)];
  }

  lemma KeyLeftBehind(s: S.Store, sid: S.Sid, rec: S.Record, ttl: nat, max: nat, f: S.LoginFaults)
    requires ttl > 0 && !S.CacheHit(s, sid) && f.setNx == Fine && f.incr == Fine && S.LiveCount(s, rec.user) + 1 > max && f.del == Fails
    ensures var s1 := S.CreateRedis(s, sid, rec, ttl, max, f).0;
      S.CreateRedis(s1, sid, rec, ttl, max, S.SMOOTH_LOGIN) == (s1, S.Done)
  {
    assert S.CacheHit(S.CreateRedis(s, sid, rec, ttl, max, f).0, sid);
  }

  /** A login over the limit whose key is deleted again leaves the counter as it was, or one
  higher, with its expiry renewed. */
  lemma RolledBackTo(s: S.Store, sid: S.Sid, rec: S.Record, ttl: nat, max: nat, f: S.LoginFaults)
    requires ttl > 0 && !S.CacheHit(s, sid) && f.setNx == Fine && f.incr == Fine && S.LiveCount(s, rec.user) + 1 > max && f.del != Fails
    ensures var left := S.LiveCount(s, rec.user) + if f.decr == Fails then 1 else 0;
      var s1 := s.(cache := s.cache - {sid}, counts := s.counts[rec.user := S.Counter(left, Some(s.now + ttl * 1000))]);
      && S.CreateRedis(s, sid, rec, ttl, max, f) == (s1, S.LimitReached)
      && S.LiveCount(s1, rec.user) == left && !S.CacheHit(s1, sid)
  {
    var c, until := S.LiveCount(s, rec.user), Some(s.now + ttl * 1000);
    assert s.cache[sid := S.Cached(rec, s.now + ttl * 1000)] - {sid} == s.cache - {sid};
    assert s.counts[rec.user := S.Counter(c + 1, until)][rec.user := S.Counter(c, until)] == s.counts[rec.user := S.Counter(c, until)];
  }

  /** The transaction took the user's last place and lost its reply. */
  predicate TookLastPlace(s: S.Store, sid: S.Sid, user: S.User, max: nat, db: Outcome) {
    db == FailsLate && sid !in s.rows && |S.ActiveSessions(s, user)| + 1 == max
  }

  lemma OneMoreActive(s: S.Store, sid: S.Sid, rec: S.Record, ttl: nat)
    requires sid !in s.rows && ttl > 0
    ensures var s1 := s.(rows := s.rows[sid := S.Row(rec, Seconds(s.now) + ttl, false)]);
      |S.ActiveSessions(s1, rec.user)| == |S.ActiveSessions(s, rec.user)| + 1
  {
    var s1 := s.(rows := s.rows[sid := S.Row(rec, Seconds(s.now) + ttl, false)]);
    assert S.RowLive(s1, sid);
    forall k | k != sid ensures k in S.ActiveSessions(s1, rec.user) <==> k in S.ActiveSessions(s, rec.user) {
    }
    assert S.ActiveSessions(s1, rec.user) - {sid} == S.ActiveSessions(s, rec.user);
  }

  lemma RetryCreateDb(s: S.Store, sid: S.Sid, rec: S.Record, ttl: nat, max: nat, db: Outcome, setNx: Outcome)
    requires ttl > 0 && S.CreateDb(s, sid, rec, ttl, max, db, setNx).1 != S.Done
    ensures S.CreateDb(S.CreateDb(s, sid, rec, ttl, max, db, setNx).0, sid, rec, ttl, max, Fine, Fine) == S.CreateDb(s, sid, rec, ttl, max, Fine, Fine)
      <==> !TookLastPlace(s, sid, rec.user, max, db)
  {
    if db == FailsLate && sid !in s.rows && |S.ActiveSessions(s, rec.user)| < max {
      OneMoreActive(s, sid, rec, ttl);
    }
  }

  /** Which failed attempts a retry does not repair. */
  predicate Stranded(hasDb: bool, g: Stores, op: Op, max: nat, f: Faults) {
    match op
    case TokenRevocation(_, _) => false
    case SessionSync(sid, user, _, expected) =>
      && (expected.Some? ==> f.version == Fine)
      && if hasDb then TookLastPlace(g.store, sid, user, max, f.db)
         else HalfLoggedIn(g.store, sid, S.Record(user, None, None), max, f.login)
    case SessionRevoke(sid, _, _) => LeftCounted(hasDb, g.store, sid, f)
  }

  /** After an attempt that failed, one undisturbed retry at that instant ends where a single
  undisturbed execution would, with the same report, if and only if the attempt is not one
  of the stranded ones: the retry finds a session key and does not count it, a full house
  of which the session itself is part, a rollback half done, or a logout's entry gone. */
  lemma RetryRepairsExactlyWhen(hasDb: bool, g: Stores, op: Op, maxTtl: nat, max: nat, f: Faults)
    requires !Executed(hasDb, g, op, maxTtl, max, f).1
    ensures Executed(hasDb, Executed(hasDb, g, op, maxTtl, max, f).0, op, maxTtl, max, NO_FAULTS) == Executed(hasDb, g, op, maxTtl, max, NO_FAULTS)
      <==> !Stranded(hasDb, g, op, max, f)
  {
    match op {
      case TokenRevocation(jti, ttl) => RetryRevoke(hasDb, g.lists, jti, ttl, f.row, f.key);
      case SessionSync(_, _, _, _) => RetrySync(hasDb, g, op, maxTtl, max, f);
      case SessionRevoke(_, _, _) => RetrySessionRevoke(hasDb, g, op, maxTtl, max, f);
    }
  }

  lemma RetryCreated(hasDb: bool, s: S.Store, sid: S.Sid, rec: S.Record, ttl: nat, max: nat, f: Faults)
    requires ttl > 0 && Created(hasDb, s, sid, rec, ttl, max, f).1 != S.Done
    ensures Created(hasDb, Created(hasDb, s, sid, rec, ttl, max, f).0, sid, rec, ttl, max, NO_FAULTS) == Created(hasDb, s, sid, rec, ttl, max, NO_FAULTS)
      <==> if hasDb then !TookLastPlace(s, sid, rec.user, max, f.db) else !HalfLoggedIn(s, sid, rec, max, f.login)
  {
    if hasDb {
      RetryCreateDb(s, sid, rec, ttl, max, f.db, f.login.setNx);
    } else {
      RetryLogin(s, sid, rec, ttl, max, f.login);
    }
  }

  lemma RetrySync(hasDb: bool, g: Stores, op: Op, maxTtl: nat, max: nat, f: Faults)
    requires op.SessionSync? && !Executed(hasDb, g, op, maxTtl, max, f).1
    ensures Executed(hasDb, Executed(hasDb, g, op, maxTtl, max, f).0, op, maxTtl, max, NO_FAULTS) == Executed(hasDb, g, op, maxTtl, max, NO_FAULTS)
      <==> !Stranded(hasDb, g, op, max, f)
  {
    if op.expected.Some? ==> f.version == Fine {
      var ttl, rec := Ttl(g.store.now, op.expiresAt, maxTtl), S.Record(op.user, None, None);
      var s1 := Created(hasDb, g.store, op.sid, rec, ttl, max, f).0;
      SyncIsCreation(hasDb, g, op, maxTtl, max, f);
      CreateKeepsNow(hasDb, g.store, op.sid, rec, ttl, max, f);
      SyncIsCreation(hasDb, g, op, maxTtl, max, NO_FAULTS);
      SyncIsCreation(hasDb, g.(store := s1), op, maxTtl, max, NO_FAULTS);
      AnswersAgree(hasDb, g.store, s1, op.sid, rec, ttl, max);
      RetryCreated(hasDb, g.store, op.sid, rec, ttl, max, f);
    }
  }

  lemma SyncIsCreation(hasDb: bool, g: Stores, op: Op, maxTtl: nat, max: nat, f: Faults)
    requires SyncApplies(g, op, maxTtl) && (op.expected.Some? ==> f.version == Fine)
    ensures var (s, a) := Created(hasDb, g.store, op.sid, S.Record(op.user, None, None), Ttl(g.store.now, op.expiresAt, maxTtl), max, f);
      Executed(hasDb, g, op, maxTtl, max, f) == (g.(store := s), a == S.Done)
  {
  }

  /** Two smooth creations that leave the same store and agree on success agree. */
  lemma AnswersAgree(hasDb: bool, s: S.Store, t: S.Store, sid: S.Sid, rec: S.Record, ttl: nat, max: nat)
    requires ttl > 0
    ensures var a, b := Created(hasDb, s, sid, rec, ttl, max, NO_FAULTS), Created(hasDb, t, sid, rec, ttl, max, NO_FAULTS);
      a.0 == b.0 && (a.1 == S.Done <==> b.1 == S.Done) ==> a == b
  {
  }

  lemma RetrySessionRevoke(hasDb: bool, g: Stores, op: Op, maxTtl: nat, max: nat, f: Faults)
    requires op.SessionRevoke? && !Executed(hasDb, g, op, maxTtl, max, f).1
    ensures Executed(hasDb, Executed(hasDb, g, op, maxTtl, max, f).0, op, maxTtl, max, NO_FAULTS) == Executed(hasDb, g, op, maxTtl, max, NO_FAULTS)
      <==> !Stranded(hasDb, g, op, max, f)
  {
    RevokeKeepsNow(hasDb, g.store, op.sid, f);
    RevokeKeepsNow(hasDb, g.store, op.sid, NO_FAULTS);
    RetryRevokeSession(hasDb, g.store, op.sid, f);
    if op.token.Some? && op.tokenExp.Some? && op.tokenExp.value > g.store.now / 1000 {
      RetryRevoke(hasDb, g.lists, op.token.value, op.tokenExp.value - g.store.now / 1000, f.row, f.key);
    }
  }

  // ---- two stranded attempts ---------------------------------------------

  /** Redis alone: the key is written and INCR fails.  The retry finds the key, reports
  success and counts nothing; one undisturbed execution would have counted. */
  lemma LostIncrement(g: Stores, op: Op, maxTtl: nat, max: nat, f: Faults)
    requires SyncApplies(g, op, maxTtl) && !S.CacheHit(g.store, op.sid) && S.LiveCount(g.store, op.user) < max
    requires f == NO_FAULTS.(login := S.SMOOTH_LOGIN.(incr := Fails))
    ensures var (g1, ok) := Executed(false, g, op, maxTtl, max, f);
      var (g2, again) := Executed(false, g1, op, maxTtl, max, NO_FAULTS);
      && !ok && again && S.CacheHit(g2.store, op.sid) && S.LiveCount(g2.store, op.user) == S.LiveCount(g.store, op.user)
      && S.LiveCount(Executed(false, g, op, maxTtl, max, NO_FAULTS).0.store, op.user) == S.LiveCount(g.store, op.user) + 1
  {
    var ttl, rec := Ttl(g.store.now, op.expiresAt, maxTtl), S.Record(op.user, None, None);
    SyncIsCreation(false, g, op, maxTtl, max, f);
    SyncIsCreation(false, g, op, maxTtl, max, NO_FAULTS);
    var g1 := g.(store := S.CachePut(g.store, op.sid, rec, ttl));
    assert Executed(false, g, op, maxTtl, max, f) == (g1, false);
    SyncIsCreation(false, g1, op, maxTtl, max, NO_FAULTS);
    assert S.CacheHit(g1.store, op.sid);
  }

  /** With a database: the transaction takes the user's last place and loses its reply.  The
  retry is refused by the limit although the session exists. */
  lemma LostCommit(g: Stores, op: Op, maxTtl: nat, max: nat, f: Faults)
    requires SyncApplies(g, op, maxTtl) && op.sid !in g.store.rows && |S.ActiveSessions(g.store, op.user)| + 1 == max
    requires f == NO_FAULTS.(db := FailsLate)
    ensures var (g1, ok) := Executed(true, g, op, maxTtl, max, f);
      && !ok && S.RowLive(g1.store, op.sid) && !Executed(true, g1, op, maxTtl, max, NO_FAULTS).1
      && Executed(true, g, op, maxTtl, max, NO_FAULTS).1
  {
    var ttl, rec := Ttl(g.store.now, op.expiresAt, maxTtl), S.Record(op.user, None, None);
    SyncIsCreation(true, g, op, maxTtl, max, f);
    SyncIsCreation(true, g, op, maxTtl, max, NO_FAULTS);
    OneMoreActive(g.store, op.sid, rec, ttl);
    var g1 := Executed(true, g, op, maxTtl, max, f).0;
    SyncIsCreation(true, g1, op, maxTtl, max, NO_FAULTS);
  }

  // ---- twice is once -----------------------------------------------------

  lemma RevokeSessionTwice(hasDb: bool, s: S.Store, sid: S.Sid)
    ensures SessionRevoked(hasDb, SessionRevoked(hasDb, s, sid, NO_FAULTS).0, sid, NO_FAULTS)
         == SessionRevoked(hasDb, s, sid, NO_FAULTS)
  {
    var s1 := SessionRevoked(hasDb, s, sid, NO_FAULTS).0;
    assert !S.CacheHit(s1, sid) && sid !in s1.cache;
    assert s1.cache - {sid} == s1.cache;
    if hasDb && sid in s1.rows {
      assert s1.rows[sid := s1.rows[sid].(revoked := true)] == s1.rows;
    }
  }

  /** In Redis-only mode a refused creation is rolled back each time to the same counter. */
  lemma CreateRedisTwice(s: S.Store, sid: S.Sid, rec: S.Record, ttl: nat, max: nat)
    requires ttl > 0
    ensures var s1 := S.CreateRedis(s, sid, rec, ttl, max, S.SMOOTH_LOGIN).0;
      S.CreateRedis(s1, sid, rec, ttl, max, S.SMOOTH_LOGIN).0 == s1
  {
    var (s1, a) := S.CreateRedis(s, sid, rec, ttl, max, S.SMOOTH_LOGIN);
    if a == S.LimitReached {
      RetryLogin(s, sid, rec, ttl, max, S.SMOOTH_LOGIN);
    } else if a == S.Done {
      assert S.CacheHit(s1, sid);
    }
  }

  lemma CreateDbTwice(s: S.Store, sid: S.Sid, rec: S.Record, ttl: nat, max: nat)
    requires ttl > 0
    ensures var s1 := S.CreateDb(s, sid, rec, ttl, max, Fine, Fine).0;
      S.CreateDb(s1, sid, rec, ttl, max, Fine, Fine).0 == s1
  {
    var (s1, a) := S.CreateDb(s, sid, rec, ttl, max, Fine, Fine);
    if a == S.Done {
      assert S.CacheHit(s1, sid);
    }
  }

  /** Executing any operation twice at one instant leaves sessions, counters and blacklist
  as executing it once does, with a database and without. */
  lemma ExecuteTwiceIsOnce(hasDb: bool, g: Stores, op: Op, maxTtl: nat, max: nat)
    ensures var g1 := Executed(hasDb, g, op, maxTtl, max, NO_FAULTS).0;
      Executed(hasDb, g1, op, maxTtl, max, NO_FAULTS).0 == g1
  {
    match op {
      case TokenRevocation(jti, ttl) => RetryRevoke(hasDb, g.lists, jti, ttl, Fine, Fine);
      case SessionSync(_, _, _, _) => SyncTwice(hasDb, g, op, maxTtl, max);
      case SessionRevoke(sid, token, tokenExp) =>
        RevokeKeepsNow(hasDb, g.store, sid, NO_FAULTS);
        RevokeSessionTwice(hasDb, g.store, sid);
        if token.Some? && tokenExp.Some? && tokenExp.value > g.store.now / 1000 {
          RetryRevoke(hasDb, g.lists, token.value, tokenExp.value - g.store.now / 1000, Fine, Fine);
        }
    }
  }

  lemma SyncTwice(hasDb: bool, g: Stores, op: Op, maxTtl: nat, max: nat)
    requires op.SessionSync?
    ensures var g1 := Executed(hasDb, g, op, maxTtl, max, NO_FAULTS).0;
      Executed(hasDb, g1, op, maxTtl, max, NO_FAULTS).0 == g1
  {
    if SyncApplies(g, op, maxTtl) {
      var ttl, rec := Ttl(g.store.now, op.expiresAt, maxTtl), S.Record(op.user, None, None);
      SyncIsCreation(hasDb, g, op, maxTtl, max, NO_FAULTS);
      CreateKeepsNow(hasDb, g.store, op.sid, rec, ttl, max, NO_FAULTS);
      SyncIsCreation(hasDb, Executed(hasDb, g, op, maxTtl, max, NO_FAULTS).0, op, maxTtl, max, NO_FAULTS);
      CreateDbTwice(g.store, op.sid, rec, ttl, max);
      CreateRedisTwice(g.store, op.sid, rec, ttl, max);
    }
  }

  /** A first execution that succeeds is followed by one that fails exactly when the
  first created the row that took the user's last place: the duplicate is then refused
  by the session limit it counts itself against. */
  lemma SecondReportFailsExactlyWhen(hasDb: bool, g: Stores, op: Op, maxTtl: nat, max: nat)
    requires Executed(hasDb, g, op, maxTtl, max, NO_FAULTS).1
    ensures var g1 := Executed(hasDb, g, op, maxTtl, max, NO_FAULTS).0;
      !Executed(hasDb, g1, op, maxTtl, max, NO_FAULTS).1
      <==> hasDb && SyncApplies(g, op, maxTtl) && op.sid !in g.store.rows && |S.ActiveSessions(g.store, op.user)| + 1 == max
  {
    if SyncApplies(g, op, maxTtl) {
      var ttl, rec := Ttl(g.store.now, op.expiresAt, maxTtl), S.Record(op.user, None, None);
      SyncIsCreation(hasDb, g, op, maxTtl, max, NO_FAULTS);
      CreateKeepsNow(hasDb, g.store, op.sid, rec, ttl, max, NO_FAULTS);
      var g1 := Executed(hasDb, g, op, maxTtl, max, NO_FAULTS).0;
      SyncIsCreation(hasDb, g1, op, maxTtl, max, NO_FAULTS);
      SecondAnswer(hasDb, g.store, op.sid, rec, ttl, max);
    } else if op.SessionSync? {
      assert Executed(hasDb, g, op, maxTtl, max, NO_FAULTS) == (g, true);
    }
  }

  lemma SecondAnswer(hasDb: bool, s: S.Store, sid: S.Sid, rec: S.Record, ttl: nat, max: nat)
    requires ttl > 0 && Created(hasDb, s, sid, rec, ttl, max, NO_FAULTS).1 == S.Done
    ensures var s1 := Created(hasDb, s, sid, rec, ttl, max, NO_FAULTS).0;
      Created(hasDb, s1, sid, rec, ttl, max, NO_FAULTS).1 != S.Done
      <==> hasDb && sid !in s.rows && |S.ActiveSessions(s, rec.user)| + 1 == max
  {
    var s1 := Created(hasDb, s, sid, rec, ttl, max, NO_FAULTS).0;
    if hasDb {
      var r1 := s.(rows := s1.rows);
      assert S.ActiveSessions(s1, rec.user) == S.ActiveSessions(r1, rec.user);
      if sid !in s.rows {
        OneMoreActive(s, sid, rec, ttl);
      }
    } else {
      assert S.CacheHit(s1, sid);
    }
  }

  // ---- the application's worker ------------------------------------------

  /** The Next.js worker executes a revocation by writing the Redis key and nothing else;
  its sessions go through the gateway. */
  function ExecutedByScript(g: Stores, op: Op, key: Outcome): (Stores, bool)
    requires op.TokenRevocation?
  {
    if op.ttl == 0 then (g, true)
    else (if Effective(key) then g.(lists := B.KeySet(g.lists, op.jti, op.ttl)) else g, key == Fine)
  }

  function Later(s: B.Lists, ms: nat): B.Lists {
    s.(now := s.now + ms)
  }

  /** When a finished revocation survives the loss of its key: after it, and any pause, the
  table lists the token exactly if it did before or the gateway's worker added a row that
  lasts until then.  The application's worker adds none. */
  lemma DurableExactlyWhen(g: Stores, op: Op, maxTtl: nat, max: nat, gateway: bool, f: Faults, ms: nat)
    requires op.TokenRevocation? && (if gateway then Executed(true, g, op, maxTtl, max, f) else ExecutedByScript(g, op, f.key)).1
    ensures var lists := (if gateway then Executed(true, g, op, maxTtl, max, f) else ExecutedByScript(g, op, f.key)).0.lists;
      B.RowLive(Later(B.Evicted(lists, op.jti), ms), op.jti)
      <==> B.RowLive(Later(g.lists, ms), op.jti)
           || (gateway && op.jti !in g.lists.rows && Seconds(g.lists.now) + op.ttl > Seconds(g.lists.now + ms))
  {
  }
}
