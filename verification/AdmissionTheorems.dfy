/** What a revocation and an admission mean, over every run of the admission protocol. */
module AdmissionTheorems {
  import opened Wrappers
  import opened Blacklist
  import opened Admission

  lemma InitInv(hasDb: bool)
    ensures Inv(Init(hasDb))
  {
  }

  // ---- who is admitted ---------------------------------------------------

  /** A request that has run to its end was admitted exactly when every gate passed. */
  lemma AdmittedExactlyWhen(hasDb: bool, acts: seq<Action>, id: Id)
    ensures var w := Run(Init(hasDb), acts);
      id in w.requests && (w.requests[id].stage.Admitted? || w.requests[id].stage.Rejected?) ==>
        var r := w.requests[id];
        r.stage.Admitted? <==>
          && r.door == Some(true) && r.claims.Some? && RiskPasses(r)
          && r.listed == Some(NotListed) && SessionPasses(r)
          && r.userLimit == Some(true) && (r.changing ==> r.nonceHeader && r.nonce == Some(Fresh))
  {
    InitInv(hasDb);
    RunKeepsInv(Init(hasDb), acts);
    var w := Run(Init(hasDb), acts);
    if id in w.requests {
      assert Accounted(w.requests[id]);
    }
  }

  // ---- before and after a commit -----------------------------------------

  lemma {:induction false} RunSplit(w: World, a: seq<Action>, b: seq<Action>)
    ensures Run(w, a + b) == Run(Run(w, a), b)
    decreases |a|
  {
    if a == [] {
      assert a + b == b;
    } else {
      assert (a + b)[1..] == a[1..] + b;
      RunSplit(Step(w, a[0]), a[1..], b);
    }
  }

  /** The lookup of this request has not yet gone past the table. */
  predicate Unread(w: World, id: Id) {
    id in w.requests ==> w.requests[id].listed.None?
  }

  /** Read after the n-th commit, if read at all and found absent. */
  predicate ReadAfter(w: World, id: Id, n: nat) {
    id in w.requests && w.requests[id].listed == Some(NotListed) ==> w.requests[id].seen >= n
  }

  lemma ReadAfterStep(w: World, a: Action, id: Id, n: nat)
    requires RequestsInv(w) && n <= |w.commits| && ReadAfter(w, id, n)
    ensures ReadAfter(Step(w, a), id, n) && n <= |Step(w, a).commits| && w.s.now <= Step(w, a).s.now
    ensures w.commits <= Step(w, a).commits
  {
    TimeAndCommitsGrow(w, a);
    if !IsRequestAction(a) || a.id != id {
      OthersStay(w, a, id);
      return;
    }
    OwnReadAfter(w, Step(w, a), a, id, n);
  }

  lemma OwnReadAfter(w: World, w': World, a: Action, id: Id, n: nat)
    requires IsRequestAction(a) && a.id == id && n <= |w.commits| && ReadAfter(w, id, n) && w' == RequestStep(w, a)
    ensures ReadAfter(w', id, n)
  {
    match a {
      case ReadRow(_, _) => return;
      case ReadKey(_, _) => return;
      case Rehydrate(_, _) => return;
      case _ => return;
    }
  }

  lemma {:induction false} ReadAfterRun(w: World, acts: seq<Action>, id: Id, n: nat)
    requires Inv(w) && n <= |w.commits| && ReadAfter(w, id, n)
    ensures ReadAfter(Run(w, acts), id, n) && w.commits <= Run(w, acts).commits && w.s.now <= Run(w, acts).s.now
    decreases |acts|
  {
    if acts != [] {
      ReadAfterStep(w, acts[0], id, n);
      StepKeepsInv(w, acts[0]);
      ReadAfterRun(Step(w, acts[0]), acts[1..], id, n);
    }
  }

  /** With a database: a request whose lookup had not read the table when a revocation of
  its token committed, is admitted only if that lookup ran at or after the expiry the
  table holds; before that expiry it is not admitted at all.  The caches, the session
  store and Redis may contain or do anything. */
  lemma NoAdmissionAfterRevoke(before: seq<Action>, after: seq<Action>, id: Id, i: nat)
    requires var w1 := Run(Init(true), before); i < |w1.commits| && Unread(w1, id)
    requires var w2 := Run(Init(true), before + after); id in w2.requests && w2.requests[id].stage.Admitted?
    requires var w2 := Run(Init(true), before + after);
      i < |w2.commits| && w2.requests[id].claims.Some? && w2.requests[id].claims.value.jti == w2.commits[i].jti
    ensures var w1, w2 := Run(Init(true), before), Run(Init(true), before + after);
      && w2.commits[i] == w1.commits[i]
      && w1.commits[i].stored <= Seconds(w2.requests[id].checkedAt) <= Seconds(w2.s.now)
  {
    var w1, w2 := Run(Init(true), before), Run(Init(true), before + after);
    InitInv(true);
    RunKeepsInv(Init(true), before);
    RunSplit(Init(true), before, after);
    RunKeepsInv(w1, after);
    ReadAfterRun(w1, after, id, |w1.commits|);
    var r := w2.requests[id];
    assert Accounted(r) && LookupSound(w2, r);
    SecondsMonotone(r.checkedAt, w2.s.now);
  }

  lemma {:induction false} AskedAtLeast(commits: seq<Commit>, jti: Jti, e: nat, least: nat)
    requires Asked(commits, jti, e)
    requires forall j | 0 <= j < |commits| :: commits[j].jti == jti ==> commits[j].promised >= least
    ensures e >= least
    decreases |commits|
  {
    var last := commits[|commits| - 1];
    if !(last.jti == jti && last.promised == e) {
      AskedAtLeast(commits[..|commits| - 1], jti, e, least);
    }
  }

  /** When every revocation of a token asks for at least the token's own expiry, as those
  computed from its claims do, the table never holds less; so after any of them commits
  the token is admitted only at or after its expiry, and then only while the ten seconds
  of leeway still let it decode: cached claims no longer serve. */
  lemma RevokedTokenStaysOut(before: seq<Action>, after: seq<Action>, id: Id, i: nat)
    requires var w1 := Run(Init(true), before); i < |w1.commits| && Unread(w1, id)
    requires var w2 := Run(Init(true), before + after); id in w2.requests && w2.requests[id].stage.Admitted?
    requires var w2 := Run(Init(true), before + after);
      i < |w2.commits| && w2.requests[id].claims.Some? && w2.requests[id].claims.value.jti == w2.commits[i].jti
    requires var w2 := Run(Init(true), before + after); var c := w2.requests[id].claims.value;
      forall j | 0 <= j < |w2.commits| :: w2.commits[j].jti == c.jti ==> w2.commits[j].promised >= c.exp
    ensures var r := Run(Init(true), before + after).requests[id];
      && r.claims.value.exp <= Seconds(r.checkedAt)
      && (r.fromCache ==> r.claimsAt < r.checkedAt)
      && Seconds(r.claimsAt) <= r.claims.value.exp + LEEWAY
  {
    NoAdmissionAfterRevoke(before, after, id, i);
    var w2 := Run(Init(true), before + after);
    InitInv(true);
    RunKeepsInv(Init(true), before + after);
    var r := w2.requests[id];
    assert Asked(w2.commits, w2.commits[i].jti, w2.commits[i].stored);
    AskedAtLeast(w2.commits, r.claims.value.jti, w2.commits[i].stored, r.claims.value.exp);
    assert Accounted(r);
    if r.fromCache && r.checkedAt <= r.claimsAt {
      SecondsMonotone(r.checkedAt, r.claimsAt);
    }
  }

  /** Nobody is told `Listed` about a token that no call ever set out to revoke. */
  lemma ListedWasRevoked(hasDb: bool, acts: seq<Action>, id: Id)
    ensures var w := Run(Init(hasDb), acts);
      id in w.requests && w.requests[id].listed == Some(Listed) ==>
        w.requests[id].claims.Some? && w.requests[id].claims.value.jti in w.called
  {
    InitInv(hasDb);
    RunKeepsInv(Init(hasDb), acts);
    var w := Run(Init(hasDb), acts);
    assert id in w.requests ==> ListedWasCalled(w.called, w.requests[id]);
  }

  /** This action sets out to revoke the token: a logout or the like that names it, or a
  block of a request whose claims carry it. */
  predicate Revokes(w: World, a: Action, jti: Jti) {
    || (a.StartRevoke? && a.jti == jti)
    || (a.AssessRisk? && a.action.BlockAndInvalidate? && a.id in w.requests
        && w.requests[a.id].claims.Some? && w.requests[a.id].claims.value.jti == jti)
  }

  lemma CalledByStep(w: World, a: Action, jti: Jti)
    requires jti in Step(w, a).called && jti !in w.called
    ensures Revokes(w, a, jti)
  {
  }

  /** A token that is set out to be revoked was, at some step, by an action on it. */
  lemma {:induction false} CalledByAction(w: World, acts: seq<Action>, jti: Jti)
    requires jti in Run(w, acts).called
    ensures jti in w.called || (exists k | 0 <= k < |acts| :: Revokes(Run(w, acts[..k]), acts[k], jti))
    decreases |acts|
  {
    if acts != [] && jti !in w.called {
      var w1, rest := Step(w, acts[0]), acts[1..];
      if jti in w1.called {
        CalledByStep(w, acts[0], jti);
        assert Run(w, acts[..0]) == w;
        assert Revokes(Run(w, acts[..0]), acts[0], jti);
      } else {
        CalledByAction(w1, rest, jti);
        var k :| 0 <= k < |rest| && Revokes(Run(w1, rest[..k]), rest[k], jti);
        assert acts[..k + 1][1..] == rest[..k] && acts[k + 1] == rest[k];
        assert Revokes(Run(w, acts[..k + 1]), acts[k + 1], jti);
      }
    }
  }

  /** So whoever is told `Listed` holds a token that an action of the run set out to revoke. */
  lemma ListedByAction(hasDb: bool, acts: seq<Action>, id: Id)
    requires var w := Run(Init(hasDb), acts); id in w.requests && w.requests[id].listed == Some(Listed)
    ensures var w := Run(Init(hasDb), acts);
      && w.requests[id].claims.Some?
      && exists k | 0 <= k < |acts| :: Revokes(Run(Init(hasDb), acts[..k]), acts[k], w.requests[id].claims.value.jti)
  {
    ListedWasRevoked(hasDb, acts, id);
    CalledByAction(Init(hasDb), acts, Run(Init(hasDb), acts).requests[id].claims.value.jti);
  }

  // ---- a block -----------------------------------------------------------

  /** A high-risk request is rejected and its token revoked: once the two commands of the
  block have run, the table, if there is one, and Redis list the token up to its expiry. */
  lemma BlockRevokes(w: World, id: Id)
    requires At(w, id, AtRisk) && w.requests[id].claims.Some? && w.requests[id].claims.value.exp > Seconds(w.s.now)
    requires w.requests[id].claims.value.jti !in w.s.rows
    ensures var w' := Step(Step(Step(w, AssessRisk(id, BlockAndInvalidate)), RevokeRow(Blocker(id), Fine)), RevokeKey(Blocker(id), Fine));
      var c := w.requests[id].claims.value;
      && At(w', id, Rejected) && Blocker(id) in w'.revokes && w'.revokes[Blocker(id)].stage == Succeeded
      && w'.s.cache == w.s.cache[c.jti := w.s.now + (c.exp - Seconds(w.s.now)) * 1000]
      && w'.s.rows == (if w.hasDb then w.s.rows[c.jti := c.exp] else w.s.rows)
      && w'.commits == (if w.hasDb then w.commits + [Commit(c.jti, c.exp, c.exp)] else w.commits)
  {
    var c := w.requests[id].claims.value;
    var ttl := c.exp - Seconds(w.s.now);
    var w1 := Step(w, AssessRisk(id, BlockAndInvalidate));
    assert w1.revokes[Blocker(id)] == RevokeCall(RowNext, c.jti, ttl) && w1.s == w.s && w1.commits == w.commits && w1.hasDb == w.hasDb;
    assert At(w1, id, Rejected);
    var w2 := Step(w1, RevokeRow(Blocker(id), Fine));
    assert w2.revokes[Blocker(id)] == RevokeCall(KeyNext, c.jti, ttl) && w2.requests == w1.requests;
    assert w2.s == if w.hasDb then w.s.(rows := w.s.rows[c.jti := c.exp]) else w.s;
  }

  /** A row found by a lookup is put back into Redis, which then lists the token by itself
  until the row expires. */
  lemma FoundRowIsCached(w: World, id: Id, jti: Jti, ms: nat)
    requires At(w, id, AtRow) && w.requests[id].claims.Some? && w.requests[id].claims.value.jti == jti && RowLive(w.s, jti)
    ensures var w' := Step(Step(w, ReadRow(id, true)), Rehydrate(id, true));
      && id in w'.requests && w'.requests[id].listed == Some(Listed)
      && (KeyLive(w'.s.(now := w'.s.now + ms), jti) <==> ms < (w.s.rows[jti] - Seconds(w.s.now)) * 1000)
  {
    var w1 := Step(w, ReadRow(id, true));
    assert w1 == Put(w, id, w.requests[id].(stage := AtRehydrate(w.s.rows[jti])));
  }

  // ---- exactly when a promise is kept ------------------------------------

  /** In this run no request reads the table after commit k, at a time before the expiry
  that revocation asked for, and is admitted with its token. */
  predicate Honoured(w: World, k: nat, id: Id) {
    k < |w.commits| && id in w.requests && w.requests[id].stage.Admitted? && w.requests[id].claims.Some?
      && w.requests[id].claims.value.jti == w.commits[k].jti && k < w.requests[id].seen
    ==> w.commits[k].promised <= Seconds(w.requests[id].checkedAt)
  }

  /** A request that walks straight in: everything answers well and no cache is warm. */
  function Approach(id: Id, jti: Jti, exp: nat): seq<Action> {
    [Arrive(id, false, false), Door(id, true, true, true, None), ReadClaims(id, CacheMiss, Some(Claims(jti, exp)), true), AssessRisk(id, Allow)]
  }

  function PassThrough(id: Id): seq<Action> {
    [ReadKey(id, true), ReadRow(id, true), CheckSession(id, SessionOk), CheckUserLimit(id, true)]
  }

  function WalkIn(id: Id, jti: Jti, exp: nat): seq<Action> {
    Approach(id, jti, exp) + PassThrough(id)
  }

  lemma RunFour(w: World, acts: seq<Action>)
    requires |acts| == 4
    ensures Run(w, acts) == Step(Step(Step(Step(w, acts[0]), acts[1]), acts[2]), acts[3])
  {
    var w1 := Step(w, acts[0]);
    var w2 := Step(w1, acts[1]);
    var w3 := Step(w2, acts[2]);
    RunFrom(Step(w3, acts[3]), acts, 4);
    RunFrom(w3, acts, 3);
    RunFrom(w2, acts, 2);
    RunFrom(w1, acts, 1);
    RunFrom(w, acts, 0);
    assert acts[0..] == acts;
  }

  lemma ApproachReachesKey(w: World, id: Id, jti: Jti, exp: nat)
    requires id !in w.requests && exp >= Seconds(w.s.now)
    ensures Run(w, Approach(id, jti, exp)) ==
      Put(w, id, AfterRisk(AfterClaims(AfterDoor(Arrived(false, false), true), w.s.now, CacheMiss, Some(Claims(jti, exp)), true), Allow))
  {
    var acts := Approach(id, jti, exp);
    var r := AfterDoor(Arrived(false, false), true);
    var r' := AfterClaims(r, w.s.now, CacheMiss, Some(Claims(jti, exp)), true);
    assert Step(w, acts[0]) == Put(w, id, Arrived(false, false));
    assert Step(Put(w, id, Arrived(false, false)), acts[1]) == Put(w, id, r);
    assert Step(Put(w, id, r), acts[2]) == Put(w, id, r');
    assert Step(Put(w, id, r'), acts[3]) == Put(w, id, AfterRisk(r', Allow));
    RunFour(w, acts);
  }

  lemma PassThroughAdmits(w: World, id: Id, jti: Jti)
    requires w.hasDb && At(w, id, AtKey) && !w.requests[id].changing && !KeyLive(w.s, jti) && !RowLive(w.s, jti)
    requires w.requests[id].claims.Some? && w.requests[id].claims.value.jti == jti
    ensures var w' := Run(w, PassThrough(id));
      && w'.commits == w.commits && id in w'.requests && w'.requests[id].stage == Admitted
      && w'.requests[id].claims == w.requests[id].claims && w'.requests[id].seen == |w.commits|
      && w'.requests[id].checkedAt == w.s.now
  {
    var acts := PassThrough(id);
    var w1 := Put(w, id, w.requests[id].(stage := AtRow));
    var r := AfterLookup(w.requests[id].(stage := AtRow), NotListed).(checkedAt := w.s.now, seen := |w.commits|);
    assert Step(w, acts[0]) == w1;
    assert Step(w1, acts[1]) == Put(w, id, r);
    assert Step(Put(w, id, r), acts[2]) == Put(w, id, AfterSession(r, SessionOk));
    assert Step(Put(w, id, AfterSession(r, SessionOk)), acts[3]) == Put(w, id, AfterUserLimit(AfterSession(r, SessionOk), true));
    RunFour(w, acts);
  }

  lemma WalkInAdmits(w: World, id: Id, jti: Jti, exp: nat)
    requires w.hasDb && id !in w.requests && exp >= Seconds(w.s.now) && !KeyLive(w.s, jti) && !RowLive(w.s, jti)
    ensures var w' := Run(w, WalkIn(id, jti, exp));
      && w'.commits == w.commits && id in w'.requests && w'.requests[id].stage == Admitted
      && w'.requests[id].claims == Some(Claims(jti, exp)) && w'.requests[id].seen == |w.commits|
      && w'.requests[id].checkedAt == w.s.now
  {
    RunSplit(w, Approach(id, jti, exp), PassThrough(id));
    ApproachReachesKey(w, id, jti, exp);
    PassThroughAdmits(Run(w, Approach(id, jti, exp)), id, jti);
  }

  lemma RunFrom(w: World, acts: seq<Action>, k: nat)
    requires k <= |acts|
    ensures k == |acts| ==> Run(w, acts[k..]) == w
    ensures k < |acts| ==> Run(w, acts[k..]) == Run(Step(w, acts[k]), acts[k + 1..])
  {
    if k < |acts| {
      assert acts[k..][1..] == acts[k + 1..];
    }
  }

  /** A run in which the promise is broken: the key is evicted, time passes until the row
  that was already there expires, and a request walks in. */
  function Breach(w: World, id: Id, jti: Jti, wait: nat, exp: nat): seq<Action> {
    [Evict(jti), Tick(wait)] + WalkIn(id, jti, exp)
  }

  /** A revocation keeps its promise on every continuation if and only if the table had no
  row for the token or one that lasts at least as long: a row already there is kept,
  even an expired one that has not been cleaned up. */
  lemma HonouredExactlyWhen(w: World, c: Caller, o: Outcome)
    requires Inv(w) && w.hasDb && c in w.revokes && w.revokes[c].stage.RowNext? && w.revokes[c].ttl > 0 && Effective(o)
    ensures var call, w1 := w.revokes[c], Step(w, RevokeRow(c, o));
      (forall acts, id :: Honoured(Run(w1, acts), |w.commits|, id))
      <==> (call.jti in w.s.rows ==> w.s.rows[call.jti] >= Seconds(w.s.now) + call.ttl)
  {
    var call, w1, k := w.revokes[c], Step(w, RevokeRow(c, o)), |w.commits|;
    StepKeepsInv(w, RevokeRow(c, o));
    assert w1.commits[k].promised == Seconds(w.s.now) + call.ttl && w1.commits[k].jti == call.jti;
    if call.jti in w.s.rows && w.s.rows[call.jti] < Seconds(w.s.now) + call.ttl {
      BreachBreaks(w1, k);
    } else {
      forall acts, id ensures Honoured(Run(w1, acts), k, id) {
        RunKeepsInv(w1, acts);
        CommitsStay(w1, acts);
        var w2 := Run(w1, acts);
        if id in w2.requests {
          assert Accounted(w2.requests[id]) && LookupSound(w2, w2.requests[id]);
        }
      }
    }
  }

  lemma {:induction false} CommitsStay(w: World, acts: seq<Action>)
    ensures w.commits <= Run(w, acts).commits
    decreases |acts|
  {
    if acts != [] {
      TimeAndCommitsGrow(w, acts[0]);
      CommitsStay(Step(w, acts[0]), acts[1..]);
    }
  }

  lemma FreshId(ids: set<int>) returns (id: int)
    ensures forall x | x in ids :: x < id
    decreases |ids|
  {
    id := 0;
    if x :| x in ids {
      id := FreshId(ids - {x});
      if id <= x {
        id := x + 1;
      }
      assert forall y | y in ids :: y in ids - {x} || y == x;
    }
  }

  lemma BreachBreaks(w: World, k: nat)
    requires w.hasDb && k == |w.commits| - 1 && w.commits[k].jti in w.s.rows
    requires w.s.rows[w.commits[k].jti] == w.commits[k].stored < w.commits[k].promised
    requires Seconds(w.s.now) < w.commits[k].promised
    ensures exists acts, id :: !Honoured(Run(w, acts), k, id)
  {
    var c := w.commits[k];
    var id := FreshId(w.requests.Keys);
    var wait := if c.stored * 1000 > w.s.now then c.stored * 1000 - w.s.now else 0;
    var w1 := Step(w, Evict(c.jti));
    var w2 := Step(w1, Tick(wait));
    assert Seconds(w2.s.now) == if wait > 0 then c.stored else Seconds(w.s.now);
    assert !KeyLive(w2.s, c.jti) && !RowLive(w2.s, c.jti);
    WalkInAdmits(w2, id, c.jti, Seconds(w2.s.now));
    var acts := Breach(w, id, c.jti, wait, Seconds(w2.s.now));
    assert acts[2..] == WalkIn(id, c.jti, Seconds(w2.s.now));
    RunFrom(w, acts, 0);
    RunFrom(w1, acts, 1);
    assert acts[0..] == acts;
    assert Run(w, acts) == Run(w2, WalkIn(id, c.jti, Seconds(w2.s.now)));
    assert !Honoured(Run(w, acts), k, id);
  }
}
