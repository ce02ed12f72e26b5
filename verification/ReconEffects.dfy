/** What the operations of the queue achieve when they are executed: a delayed
`session_sync` creates its session exactly if the version still is the one it was
enqueued with, and nothing once a logout has raised it; revocations take effect. */
module ReconEffects {
  import opened Wrappers
  import opened Decimal
  import opened ReconExecute
  import S = Sessions
  import B = Blacklist
  import V = SessionVersions

  /** The version key is missing, spells n, or spells no number and stands for zero. */
  predicate Reads(versions: map<S.Sid, string>, sid: S.Sid, n: nat) {
    if sid !in versions then n == 0
    else ParsedU64(versions[sid]) == Some(n) || (ParsedU64(versions[sid]).None? && n == 0)
  }

  /** What Redis writes for a counter reads back as that counter. */
  lemma SpelledReads(n: nat)
    requires n < U64
    ensures ParsedU64(Digits(n)) == Some(n)
  {
    DigitsParse(n);
    assert Digits(n)[0] in Digits(n);
  }

  /** A sync that expects another version changes nothing, whatever else would fail, and
  reports success; so does one that has run out of time. */
  lemma OtherVersionSkips(hasDb: bool, g: Stores, sid: S.Sid, user: S.User, expiresAt: nat, v: nat, n: nat, maxTtl: nat, max: nat, f: Faults)
    requires Reads(g.versions, sid, n) && n != v
    ensures Executed(hasDb, g, SessionSync(sid, user, expiresAt, Some(v)), maxTtl, max, f) == (g, f.version == Fine)
  {
  }

  lemma OutOfTimeSkips(hasDb: bool, g: Stores, op: Op, maxTtl: nat, max: nat, f: Faults)
    requires op.SessionSync? && (op.expiresAt <= Seconds(g.store.now) || maxTtl == 0)
    ensures Executed(hasDb, g, op, maxTtl, max, f) == (g, op.expected.None? || f.version == Fine)
  {
  }

  /** `validate_session`, with every store answering. */
  predicate Accepted(hasDb: bool, s: S.Store, sid: S.Sid, user: S.User) {
    if hasDb then S.ValidateDb(s, sid, user, Fine, Fine, Fine).1.Ok? else S.ValidateRedis(s, sid, user, Fine).Ok?
  }

  /** Nothing is left of a session of that id, and the user may have one more. */
  predicate Room(hasDb: bool, s: S.Store, sid: S.Sid, user: S.User, max: nat) {
    && !S.CacheHit(s, sid)
    && if hasDb then sid !in s.rows && |S.ActiveSessions(s, user)| < max else S.LiveCount(s, user) < max
  }

  /** How long the new session lasts, in seconds. */
  function Lifetime(now: nat, expiresAt: nat, maxTtl: nat): int {
    if expiresAt - Seconds(now) < maxTtl then expiresAt - Seconds(now) else maxTtl
  }

  lemma OwnVersionCreatesRow(g: Stores, op: Op, n: nat, maxTtl: nat, max: nat)
    requires op.SessionSync? && Reads(g.versions, op.sid, n) && (op.expected == None || op.expected == Some(n))
    requires op.expiresAt > Seconds(g.store.now) && maxTtl > 0 && Room(true, g.store, op.sid, op.user, max)
    ensures var (g1, ok) := Executed(true, g, op, maxTtl, max, NO_FAULTS);
      var ttl := Lifetime(g.store.now, op.expiresAt, maxTtl);
      && ok && g1 == g.(store := g1.store) && g1.store.now == g.store.now
      && g1.store.rows == g.store.rows[op.sid := S.Row(S.Record(op.user, None, None), Seconds(g.store.now) + ttl, false)]
      && g1.store.cache == g.store.cache[op.sid := S.Cached(S.Record(op.user, None, None), g.store.now + ttl * 1000)]
      && S.RowLive(g1.store, op.sid) && S.CacheHit(g1.store, op.sid)
  {
    SyncIsCreation(true, g, op, maxTtl, max, NO_FAULTS);
  }

  lemma OwnVersionCreatesEntry(g: Stores, op: Op, n: nat, maxTtl: nat, max: nat)
    requires op.SessionSync? && Reads(g.versions, op.sid, n) && (op.expected == None || op.expected == Some(n))
    requires op.expiresAt > Seconds(g.store.now) && maxTtl > 0 && Room(false, g.store, op.sid, op.user, max)
    ensures var (g1, ok) := Executed(false, g, op, maxTtl, max, NO_FAULTS);
      var ttl := Lifetime(g.store.now, op.expiresAt, maxTtl);
      && ok && g1 == g.(store := g1.store) && g1.store.now == g.store.now
      && g1.store.rows == g.store.rows
      && g1.store.cache == g.store.cache[op.sid := S.Cached(S.Record(op.user, None, None), g.store.now + ttl * 1000)]
      && S.LiveCount(g1.store, op.user) == S.LiveCount(g.store, op.user) + 1
      && S.CacheHit(g1.store, op.sid)
  {
    SyncIsCreation(false, g, op, maxTtl, max, NO_FAULTS);
  }

  /** With every store answering and room for the session: afterwards the user's session is
  accepted if and only if the sync bound itself to no version or to the one that is there,
  and has time left; in any other case nothing at all has changed.  It reports success
  in both. */
  lemma SyncCreatesExactlyWhen(hasDb: bool, g: Stores, op: Op, n: nat, maxTtl: nat, max: nat)
    requires op.SessionSync? && Reads(g.versions, op.sid, n) && Room(hasDb, g.store, op.sid, op.user, max)
    ensures var (g1, ok) := Executed(hasDb, g, op, maxTtl, max, NO_FAULTS);
      && ok
      && (Accepted(hasDb, g1.store, op.sid, op.user) <==>
            (op.expected == None || op.expected == Some(n)) && op.expiresAt > Seconds(g.store.now) && maxTtl > 0)
      && (Accepted(hasDb, g1.store, op.sid, op.user) || g1 == g)
  {
    if op.expected.Some? && op.expected.value != n {
      OtherVersionSkips(hasDb, g, op.sid, op.user, op.expiresAt, op.expected.value, n, maxTtl, max, NO_FAULTS);
      return;
    }
    if op.expiresAt <= Seconds(g.store.now) || maxTtl == 0 {
      OutOfTimeSkips(hasDb, g, op, maxTtl, max, NO_FAULTS);
      return;
    }
    if hasDb {
      OwnVersionCreatesRow(g, op, n, maxTtl, max);
    } else {
      OwnVersionCreatesEntry(g, op, n, maxTtl, max);
    }
  }

  // ---- the logout law ----------------------------------------------------

  /** The keys in Redis spell the versions of the run; INCR refuses to go beyond 64 bits. */
  predicate Spelled(versions: map<V.Sid, nat>, text: map<S.Sid, string>) {
    && text.Keys == versions.Keys
    && forall sid | sid in versions :: versions[sid] < U64 && text[sid] == Digits(versions[sid])
  }

  /** Once a logout has written its target version, and whatever calm run follows, a sync
  bound to a lower version changes nothing, with a database and without, whatever fails. */
  lemma LogoutStopsExecution(before: seq<V.Action>, after: seq<V.Action>, target: nat, v: nat,
                             hasDb: bool, g: Stores, op: Op, maxTtl: nat, max: nat, f: Faults)
    requires op.SessionSync? && op.expected == Some(v) && v < target && V.Calm(after)
    requires Spelled(V.Run(V.START, before + [V.SetVersion(op.sid, target)] + after).versions, g.versions)
    ensures Executed(hasDb, g, op, maxTtl, max, f) == (g, f.version == Fine)
  {
    var w := V.Run(V.START, before);
    var w1 := V.Step(w, V.SetVersion(op.sid, target));
    var w2 := V.Run(w1, after);
    V.RunSplit(V.START, before, [V.SetVersion(op.sid, target)]);
    V.RunSplit(V.START, before + [V.SetVersion(op.sid, target)], after);
    assert V.Run(w, [V.SetVersion(op.sid, target)]) == w1 by { assert [V.SetVersion(op.sid, target)][1..] == []; }
    V.TargetReached(w, op.sid, target);
    V.VersionsRise(w1, after, op.sid);
    var n := V.Version(w2, op.sid);
    assert op.sid in w2.versions;
    SpelledReads(n);
    OtherVersionSkips(hasDb, g, op.sid, op.user, op.expiresAt, v, n, maxTtl, max, f);
  }

  /** Until then it is carried out: the run so far decides by the version it has reached. */
  lemma ExecutedExactlyAtItsVersion(acts: seq<V.Action>, v: nat, hasDb: bool, g: Stores, op: Op, maxTtl: nat, max: nat)
    requires op.SessionSync? && op.expected == Some(v) && op.expiresAt > Seconds(g.store.now) && maxTtl > 0
    requires Spelled(V.Run(V.START, acts).versions, g.versions) && Room(hasDb, g.store, op.sid, op.user, max)
    ensures Accepted(hasDb, Executed(hasDb, g, op, maxTtl, max, NO_FAULTS).0.store, op.sid, op.user)
      <==> V.Version(V.Run(V.START, acts), op.sid) == v
  {
    var n := V.Version(V.Run(V.START, acts), op.sid);
    if op.sid in V.Run(V.START, acts).versions {
      SpelledReads(n);
    }
    SyncCreatesExactlyWhen(hasDb, g, op, n, maxTtl, max);
  }

  // ---- revocations -------------------------------------------------------

  /** Redis lists the token for exactly this many seconds from now on. */
  ghost predicate ListedFor(lists: B.Lists, jti: B.Jti, secs: nat) {
    forall ms: nat :: B.KeyLive(Later(lists, ms), jti) <==> ms < secs * 1000
  }

  /** An executed revocation lists the token for its lifetime, in Redis and, unless a row
  is there already, in the table. */
  lemma RevocationLists(hasDb: bool, g: Stores, jti: B.Jti, ttl: nat, maxTtl: nat, max: nat)
    ensures var (g1, ok) := Executed(hasDb, g, TokenRevocation(jti, ttl), maxTtl, max, NO_FAULTS);
      && ok && g1 == g.(lists := g1.lists) && g1.lists.now == g.lists.now && ListedFor(g1.lists, jti, ttl)
      && g1.lists.rows == if hasDb && jti !in g.lists.rows then g.lists.rows[jti := Seconds(g.lists.now) + ttl] else g.lists.rows
  {
  }

  lemma RevokeUnseats(hasDb: bool, g: Stores, op: Op, maxTtl: nat, max: nat)
    requires op.SessionRevoke?
    ensures var (g1, ok) := Executed(hasDb, g, op, maxTtl, max, NO_FAULTS);
      ok && !S.CacheHit(g1.store, op.sid) && (hasDb ==> !S.RowLive(g1.store, op.sid)) && g1.lists.now == g.lists.now
  {
  }

  /** An executed session revocation leaves a session that nobody is accepted for, and lists
  the token it names, if it has not expired, up to its expiry. */
  lemma RevokeEndsSession(hasDb: bool, g: Stores, op: Op, user: S.User, maxTtl: nat, max: nat)
    requires op.SessionRevoke? && g.lists.now == g.store.now
    ensures var (g1, ok) := Executed(hasDb, g, op, maxTtl, max, NO_FAULTS);
      && ok && !Accepted(hasDb, g1.store, op.sid, user)
      && if op.token.Some? && op.tokenExp.Some? && op.tokenExp.value > Seconds(g.store.now) then
           && ListedFor(g1.lists, op.token.value, op.tokenExp.value - Seconds(g.store.now))
           && (hasDb && op.token.value !in g.lists.rows ==> g1.lists.rows == g.lists.rows[op.token.value := op.tokenExp.value])
         else g1.lists == g.lists
  {
    RevokeUnseats(hasDb, g, op, maxTtl, max);
  }
}
