/** The token blacklist: the `auth_blacklist` table and its Redis cache.

The clock counts milliseconds; the table compares whole seconds.  The functions are the
atomic commands on the two stores, the class carries out whole calls.
*/
module Blacklist {
  import opened Wrappers

  type Jti = int

  /** `rows` gives the expiry of a row in seconds, `cache` that of a key in milliseconds. */
  datatype Lists = Lists(now: nat, rows: map<Jti, nat>, cache: map<Jti, nat>)

  datatype Answer = Listed | NotListed | Unknown

  /** INSERT .. ON CONFLICT DO NOTHING. */
  function RowAdded(s: Lists, jti: Jti, ttl: nat): Lists {
    if jti in s.rows then s else s.(rows := s.rows[jti := Seconds(s.now) + ttl])
  }

  /** SET EX. */
  function KeySet(s: Lists, jti: Jti, ttl: nat): Lists {
    s.(cache := s.cache[jti := s.now + ttl * 1000])
  }

  predicate KeyLive(s: Lists, jti: Jti) {
    jti in s.cache && s.now < s.cache[jti]
  }

  predicate RowLive(s: Lists, jti: Jti) {
    jti in s.rows && s.rows[jti] > Seconds(s.now)
  }

  function Remaining(s: Lists, expiresAt: nat): nat {
    if expiresAt > Seconds(s.now) then expiresAt - Seconds(s.now) else 1
  }

  /** The cleanup job deletes expired rows only. */
  function Cleaned(s: Lists, jti: Jti): Lists {
    if RowLive(s, jti) then s else s.(rows := s.rows - {jti})
  }

  function Evicted(s: Lists, jti: Jti): Lists {
    s.(cache := s.cache - {jti})
  }

  /** A whole revocation: the row first; the key is only a cache when there is a database. */
  function Revoked(hasDb: bool, s: Lists, jti: Jti, ttl: nat, db: Outcome, redis: Outcome): (Lists, bool) {
    var s1 := if hasDb && Effective(db) then RowAdded(s, jti, ttl) else s;
    if hasDb && db != Fine then (s1, false)
    else (if Effective(redis) then KeySet(s1, jti, ttl) else s1, hasDb || redis == Fine)
  }

  /** Without a database a reported revocation is listed for exactly its lifetime, as long as
  Redis keeps the key; no other token is touched. */
  lemma RevocationLasts(s: Lists, jti: Jti, other: Jti, ttl: nat, db: Outcome, redis: Outcome, ms: nat)
    requires Revoked(false, s, jti, ttl, db, redis).1 && other != jti
    ensures var s' := Revoked(false, s, jti, ttl, db, redis).0;
      && s'.rows == s.rows && s'.now == s.now
      && (KeyLive(s'.(now := s'.now + ms), jti) <==> ms < ttl * 1000)
      && (KeyLive(s'.(now := s'.now + ms), other) <==> KeyLive(s.(now := s.now + ms), other))
  {
  }

  class TokenBlacklist {
    const hasDb: bool
    var now: nat
    var rows: map<Jti, nat>
    var cache: map<Jti, nat>

    constructor (hasDb: bool)
      ensures this.hasDb == hasDb && State() == Lists(0, map[], map[])
    {
      this.hasDb := hasDb;
      now, rows, cache := 0, map[], map[];
    }

    function State(): Lists
      reads this
    {
      Lists(now, rows, cache)
    }

    method Revoke(jti: Jti, ttl: nat, db: Outcome, redis: Outcome) returns (ok: bool)
      modifies this
      ensures (State(), ok) == Revoked(hasDb, old(State()), jti, ttl, db, redis)
      ensures ok && hasDb ==> jti in rows
      ensures ok && redis != Fails ==> KeyLive(State(), jti) || ttl == 0
    {
      if hasDb {
        if Effective(db) && jti !in rows {
          rows := rows[jti := now / 1000 + ttl];
        }
        if db != Fine {
          return false;
        }
      }
      if Effective(redis) {
        cache := cache[jti := now + ttl * 1000];
      }
      return hasDb || redis == Fine;
    }

    /** Never `NotListed` unless the authority was read and said so. */
    method IsBlacklisted(jti: Jti, read: Outcome, db: Outcome, write: Outcome) returns (a: Answer)
      modifies this
      ensures a == NotListed <==> (if hasDb then db == Fine && !RowLive(old(State()), jti) && !(read == Fine && KeyLive(old(State()), jti))
                                   else read == Fine && !KeyLive(old(State()), jti))
      ensures a == Listed <==> (read == Fine && KeyLive(old(State()), jti)) || (hasDb && db == Fine && RowLive(old(State()), jti))
      ensures now == old(now) && rows == old(rows)
      ensures cache == if hasDb && db == Fine && Effective(write) && RowLive(old(State()), jti) && !(read == Fine && KeyLive(old(State()), jti))
                       then KeySet(old(State()), jti, Remaining(old(State()), rows[jti])).cache else old(cache)
    {
      if read == Fine {
        if jti in cache && now < cache[jti] {
          return Listed;
        }
        if !hasDb {
          return NotListed;
        }
      } else if !hasDb {
        return Unknown;
      }
      if db != Fine {
        return Unknown;
      }
      if jti !in rows || rows[jti] <= now / 1000 {
        return NotListed;
      }
      var remaining := if rows[jti] - now / 1000 > 1 then rows[jti] - now / 1000 else 1;
      if Effective(write) {
        cache := cache[jti := now + remaining * 1000];
      }
      return Listed;
    }
  }
}
