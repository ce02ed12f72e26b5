/** The session store: a Redis cache in front of the `auth_sessions` table, or Redis
alone with a session counter per user.

The clock counts milliseconds; the table compares whole seconds, Redis expires keys
to the millisecond.  The functions say what each call does to the stores, the class
carries the calls out; operations run one at a time.
*/
module Sessions {
  import opened Wrappers

  type Sid = int
  type User = int

  datatype Record = Record(user: User, issuedAt: Option<nat>, device: Option<int>)

  /** A row of `auth_sessions`; `expiresAt` is in seconds. */
  datatype Row = Row(rec: Record, expiresAt: nat, revoked: bool)

  /** A Redis value with its expiry in milliseconds. */
  datatype Cached = Cached(rec: Record, until: nat)

  /** The session counter of a user; DECR of a missing key leaves one without expiry. */
  datatype Counter = Counter(value: int, until: Option<nat>)

  datatype Store = Store(now: nat, rows: map<Sid, Row>, cache: map<Sid, Cached>, counts: map<User, Counter>)

  const EMPTY := Store(0, map[], map[], map[])

  datatype Answer = Ok(rec: Record) | Done | Unauthorized | LimitReached | Unavailable

  predicate CacheHit(s: Store, sid: Sid) {
    sid in s.cache && s.now < s.cache[sid].until
  }

  function CachePut(s: Store, sid: Sid, rec: Record, ttl: nat): Store {
    s.(cache := s.cache[sid := Cached(rec, s.now + ttl * 1000)])
  }

  /** SET NX EX. */
  function CachePutNew(s: Store, sid: Sid, rec: Record, ttl: nat): Store {
    if CacheHit(s, sid) then s else CachePut(s, sid, rec, ttl)
  }

  /** GET and DEL in one script. */
  function CacheTake(s: Store, sid: Sid): Store {
    s.(cache := s.cache - {sid})
  }

  predicate RowLive(s: Store, sid: Sid) {
    sid in s.rows && !s.rows[sid].revoked && s.rows[sid].expiresAt > Seconds(s.now)
  }

  function ActiveSessions(s: Store, user: User): set<Sid> {
    set sid | sid in s.rows && RowLive(s, sid) && s.rows[sid].rec.user == user
  }

  function LiveCount(s: Store, user: User): int {
    if user in s.counts && (s.counts[user].until.None? || s.now < s.counts[user].until.value)
    then s.counts[user].value else 0
  }

  /** INCR and EXPIRE in one script. */
  function Incremented(s: Store, user: User, ttl: nat): Store {
    s.(counts := s.counts[user := Counter(LiveCount(s, user) + 1, Some(s.now + ttl * 1000))])
  }

  /** DECR as the in-memory store does it: never below zero, expiry kept. */
  function Decremented(s: Store, user: User): Store {
    var c := LiveCount(s, user);
    var until := if user in s.counts && (s.counts[user].until.None? || s.now < s.counts[user].until.value)
                 then s.counts[user].until else None;
    s.(counts := s.counts[user := Counter(if c > 0 then c - 1 else 0, until)])
  }

  // ---- with a database ---------------------------------------------------

  /** `db` is how the transaction ends, `setNx` the write to Redis after it. */
  function CreateDb(s: Store, sid: Sid, rec: Record, ttl: nat, max: nat, db: Outcome, setNx: Outcome): (Store, Answer) {
    if db == Fails then (s, Unavailable)
    else if |ActiveSessions(s, rec.user)| >= max then (s, if db == Fine then LimitReached else Unavailable)
    else
      var s1 := if sid in s.rows then s else s.(rows := s.rows[sid := Row(rec, Seconds(s.now) + ttl, false)]);
      if db == FailsLate then (s1, Unavailable)
      else (if Effective(setNx) then CachePutNew(s1, sid, rec, ttl) else s1, Done)
  }

  function ValidateDb(s: Store, sid: Sid, user: User, read: Outcome, db: Outcome, write: Outcome): (Store, Answer) {
    if read == Fine && CacheHit(s, sid) then
      (s, if s.cache[sid].rec.user == user then Ok(s.cache[sid].rec) else Unauthorized)
    else if db != Fine then (s, Unavailable)
    else if !RowLive(s, sid) || s.rows[sid].rec.user != user then (s, Unauthorized)
    else
      var row := s.rows[sid];
      (if Effective(write) then CachePut(s, sid, row.rec, row.expiresAt - Seconds(s.now)) else s, Ok(row.rec))
  }

  /** GETDEL and, if it found an entry and said so, the decrement; failures of both pass. */
  function Taken(s: Store, sid: Sid, take: Outcome, decr: Outcome): Store {
    if take == Fails then s
    else if take == Fine && CacheHit(s, sid) && Effective(decr) then Decremented(CacheTake(s, sid), s.cache[sid].rec.user)
    else CacheTake(s, sid)
  }

  function RowRevoked(s: Store, sid: Sid): Store {
    if sid in s.rows then s.(rows := s.rows[sid := s.rows[sid].(revoked := true)]) else s
  }

  function RevokeDb(s: Store, sid: Sid, db: Outcome, take: Outcome, decr: Outcome): (Store, Answer) {
    if db == Fails then (s, Unavailable)
    else if db == FailsLate then (RowRevoked(s, sid), Unavailable)
    else (Taken(RowRevoked(s, sid), sid, take, decr), Done)
  }

  // ---- Redis alone -------------------------------------------------------

  /** The commands of a login: SET NX, the GET that looks who has the key, INCR, and the
  rollback's DEL and DECR. */
  datatype LoginFaults = LoginFaults(setNx: Outcome, get: Outcome, incr: Outcome, del: Outcome, decr: Outcome)

  const SMOOTH_LOGIN := LoginFaults(Fine, Fine, Fine, Fine, Fine)

  /** The rollback of a login over the limit; its failures are ignored. */
  function RolledBack(s: Store, sid: Sid, user: User, del: Outcome, decr: Outcome): Store {
    var s1 := if Effective(del) then CacheTake(s, sid) else s;
    if Effective(decr) then Decremented(s1, user) else s1
  }

  function CreateRedis(s: Store, sid: Sid, rec: Record, ttl: nat, max: nat, f: LoginFaults): (Store, Answer) {
    if f.setNx == Fails then (s, Unavailable)
    else if f.setNx == FailsLate then (CachePutNew(s, sid, rec, ttl), Unavailable)
    else if CacheHit(s, sid) then
      (s, if f.get != Fine then Unavailable else if s.cache[sid].rec.user == rec.user then Done else Unauthorized)
    else
      var s1 := CachePut(s, sid, rec, ttl);
      if f.incr == Fails then (s1, Unavailable)
      else
        var s2 := Incremented(s1, rec.user, ttl);
        if f.incr == FailsLate then (s2, Unavailable)
        else if LiveCount(s, rec.user) + 1 > max then (RolledBack(s2, sid, rec.user, f.del, f.decr), LimitReached)
        else (s2, Done)
  }

  function ValidateRedis(s: Store, sid: Sid, user: User, read: Outcome): Answer {
    if read != Fine then Unavailable
    else if CacheHit(s, sid) && s.cache[sid].rec.user == user then Ok(s.cache[sid].rec)
    else Unauthorized
  }

  function RevokeRedis(s: Store, sid: Sid, take: Outcome, decr: Outcome): (Store, Answer) {
    (Taken(s, sid, take, decr), if take == Fine then Done else Unavailable)
  }

  /** The store object.  `hasDb` tells which of the two modes it runs in. */
  class SessionStore {
    const hasDb: bool
    var now: nat
    var rows: map<Sid, Row>
    var cache: map<Sid, Cached>
    var counts: map<User, Counter>

    constructor (hasDb: bool)
      ensures this.hasDb == hasDb && State() == EMPTY
    {
      this.hasDb := hasDb;
      now, rows, cache, counts := 0, map[], map[], map[];
    }

    function State(): Store
      reads this
    {
      Store(now, rows, cache, counts)
    }

    method CreateSession(sid: Sid, rec: Record, ttl: nat, max: nat, db: Outcome, f: LoginFaults) returns (a: Answer)
      modifies this
      ensures (State(), a) ==
        if hasDb then CreateDb(old(State()), sid, rec, ttl, max, db, f.setNx) else CreateRedis(old(State()), sid, rec, ttl, max, f)
    {
      if hasDb {
        a := CreateSessionGuarded(sid, rec, ttl, max, db);
        if a == Done && Effective(f.setNx) && !(sid in cache && now < cache[sid].until) {
          cache := cache[sid := Cached(rec, now + ttl * 1000)];
        }
        return;
      }
      var taken := sid in cache && now < cache[sid].until;
      if Effective(f.setNx) && !taken {
        cache := cache[sid := Cached(rec, now + ttl * 1000)];
      }
      if f.setNx != Fine {
        return Unavailable;
      }
      if taken {
        if f.get != Fine {
          return Unavailable;
        }
        return if cache[sid].rec.user == rec.user then Done else Unauthorized;
      }
      var count := IncrementUserSessionCount(rec.user, ttl, f.incr);
      if count.None? {
        return Unavailable;
      }
      if count.value > max {
        if Effective(f.del) {
          cache := cache - {sid};
        }
        DecrementUserSessionCount(rec.user, f.decr);
        return LimitReached;
      }
      return Done;
    }

    /** Count and insert in one transaction. */
    method CreateSessionGuarded(sid: Sid, rec: Record, ttl: nat, max: nat, db: Outcome) returns (a: Answer)
      modifies this`rows
      ensures (State(), a) == CreateDb(old(State()), sid, rec, ttl, max, db, Fails)
    {
      if db == Fails {
        return Unavailable;
      }
      var active := set k | k in rows && !rows[k].revoked && rows[k].expiresAt > now / 1000 && rows[k].rec.user == rec.user;
      assert active == ActiveSessions(State(), rec.user);
      if |active| >= max {
        return if db == Fine then LimitReached else Unavailable;
      }
      if sid !in rows {
        rows := rows[sid := Row(rec, now / 1000 + ttl, false)];
      }
      return if db == Fine then Done else Unavailable;
    }

    method ValidateSession(sid: Sid, user: User, read: Outcome, db: Outcome, write: Outcome) returns (a: Answer)
      modifies this
      ensures hasDb ==> (State(), a) == ValidateDb(old(State()), sid, user, read, db, write)
      ensures !hasDb ==> State() == old(State()) && a == ValidateRedis(old(State()), sid, user, read)
    {
      if read == Fine {
        if sid in cache && now < cache[sid].until {
          return if cache[sid].rec.user == user then Ok(cache[sid].rec) else Unauthorized;
        }
      } else if !hasDb {
        return Unavailable;
      }
      if !hasDb {
        return Unauthorized;
      }
      if db != Fine {
        return Unavailable;
      }
      if sid !in rows || rows[sid].revoked || rows[sid].expiresAt <= now / 1000 || rows[sid].rec.user != user {
        return Unauthorized;
      }
      var remaining := rows[sid].expiresAt - now / 1000;
      if Effective(write) {
        cache := cache[sid := Cached(rows[sid].rec, now + remaining * 1000)];
      }
      return Ok(rows[sid].rec);
    }

    method RevokeSession(sid: Sid, db: Outcome, take: Outcome, decr: Outcome) returns (a: Answer)
      modifies this
      ensures (State(), a) == if hasDb then RevokeDb(old(State()), sid, db, take, decr) else RevokeRedis(old(State()), sid, take, decr)
    {
      if hasDb {
        if Effective(db) && sid in rows {
          rows := rows[sid := rows[sid].(revoked := true)];
        }
        if db != Fine {
          return Unavailable;
        }
      }
      var found := if sid in cache && now < cache[sid].until then Some(cache[sid].rec.user) else None;
      if Effective(take) {
        cache := cache - {sid};
      }
      if take != Fine {
        return if hasDb then Done else Unavailable;
      }
      if found.Some? {
        DecrementUserSessionCount(found.value, decr);
      }
      return Done;
    }

    /** No number when the command reports an error, even if it counted. */
    method IncrementUserSessionCount(user: User, ttl: nat, o: Outcome) returns (count: Option<int>)
      modifies this`counts
      ensures State() == if Effective(o) then Incremented(old(State()), user, ttl) else old(State())
      ensures count == if o == Fine then Some(LiveCount(old(State()), user) + 1) else None
    {
      if o == Fails {
        return None;
      }
      var live := user in counts && (counts[user].until.None? || now < counts[user].until.value);
      var next := (if live then counts[user].value else 0) + 1;
      counts := counts[user := Counter(next, Some(now + ttl * 1000))];
      return if o == Fine then Some(next) else None;
    }

    method DecrementUserSessionCount(user: User, o: Outcome)
      modifies this`counts
      ensures State() == if Effective(o) then Decremented(old(State()), user) else old(State())
    {
      if o == Fails {
        return;
      }
      if user in counts && (counts[user].until.None? || now < counts[user].until.value) {
        var c := counts[user];
        counts := counts[user := c.(value := if c.value > 0 then c.value - 1 else 0)];
      } else {
        counts := counts[user := Counter(0, None)];
      }
    }

    method Wait(ms: nat)
      modifies this`now
      ensures State() == old(State()).(now := old(now) + ms)
    {
      now := now + ms;
    }
  }
}
