/** `require_auth` as a protocol: any number of requests and revocations, interleaved at
every store command, over the blacklist's table and cache.

Rate limiters, bearer parsing, WAF feedback, the auth cache, token validation, the risk
engine, the session store and the nonce store answer as they like; time passes, keys are
evicted, expired rows are cleaned up, commands fail, and a call that takes no further
step has crashed.
*/
module Admission {
  import opened Wrappers
  import opened Blacklist

  type Id = int

  datatype Claims = Claims(jti: Jti, exp: nat)

  datatype CacheRead = CacheFailed | CacheMiss | CacheHit(claims: Claims)

  datatype RiskAction = Allow | LogAndMonitor | RequireStepUp | BlockAndInvalidate | RiskFailed

  datatype SessionAnswer = SessionOk | SessionUnavailable | SessionRefused

  datatype NonceAnswer = Fresh | Replayed | NonceStoreFailed

  datatype Stage = AtDoor | AtClaims | AtRisk | AtKey | AtRow | AtRehydrate(expiresAt: nat) | AtSession | AtUserLimit | AtNonce | Admitted | Rejected

  /** A request and what it has learned so far; `seen` counts the revocations committed
  when its blacklist lookup read the table, at `checkedAt`. */
  datatype Request = Request(
    stage: Stage, changing: bool, nonceHeader: bool,
    door: Option<bool>, claims: Option<Claims>, fromCache: bool, claimsAt: nat,
    risk: Option<RiskAction>, listed: Option<Answer>, checkedAt: nat, seen: nat,
    session: Option<SessionAnswer>, userLimit: Option<bool>, nonce: Option<NonceAnswer>)

  datatype Caller = Logout(n: int) | Blocker(id: Id)

  datatype RevokeStage = RowNext | KeyNext | Succeeded | Failed

  datatype RevokeCall = RevokeCall(stage: RevokeStage, jti: Jti, ttl: nat)

  /** A committed row insert: the expiry asked for and the one the table has after it. */
  datatype Commit = Commit(jti: Jti, promised: nat, stored: nat)

  datatype World = World(
    hasDb: bool, s: Lists, requests: map<Id, Request>, revokes: map<Caller, RevokeCall>,
    commits: seq<Commit>, called: set<Jti>)

  datatype Action =
    | Arrive(id: Id, changing: bool, nonceHeader: bool)
    | Door(id: Id, ipLimit: bool, endpointLimit: bool, bearer: bool, wafBlocked: Option<bool>)
    | ReadClaims(id: Id, cached: CacheRead, validated: Option<Claims>, putOk: bool)
    | AssessRisk(id: Id, action: RiskAction)
    | ReadKey(id: Id, ok: bool)
    | ReadRow(id: Id, ok: bool)
    | Rehydrate(id: Id, ok: bool)
    | CheckSession(id: Id, answer: SessionAnswer)
    | CheckUserLimit(id: Id, ok: bool)
    | CheckNonce(id: Id, outcome: NonceAnswer)
    | StartRevoke(n: int, jti: Jti, ttl: nat)
    | RevokeRow(c: Caller, o: Outcome)
    | RevokeKey(c: Caller, o: Outcome)
    | Tick(ms: nat)
    | Evict(jti: Jti)
    | Clean(jti: Jti)

  const LEEWAY := 10

  function Init(hasDb: bool): World {
    World(hasDb, Lists(0, map[], map[]), map[], map[], [], {})
  }

  function Arrived(changing: bool, nonceHeader: bool): Request {
    Request(AtDoor, changing, nonceHeader, None, None, false, 0, None, None, 0, 0, None, None, None)
  }

  predicate At(w: World, id: Id, stage: Stage) {
    id in w.requests && w.requests[id].stage == stage
  }

  function Put(w: World, id: Id, r: Request): World {
    w.(requests := w.requests[id := r])
  }

  function AfterDoor(r: Request, pass: bool): Request {
    r.(stage := if pass then AtClaims else Rejected, door := Some(pass))
  }

  /** Cached claims serve until their expiry; fresh ones must decode, which the library
  allows for ten more seconds, and be written to the cache. */
  function AfterClaims(r: Request, now: nat, cached: CacheRead, validated: Option<Claims>, putOk: bool): Request {
    if cached.CacheHit? && cached.claims.exp > Seconds(now) then
      r.(stage := AtRisk, claims := Some(cached.claims), fromCache := true, claimsAt := now)
    else if cached.CacheFailed? || validated.None? || validated.value.exp + LEEWAY < Seconds(now) || !putOk then
      r.(stage := Rejected)
    else
      r.(stage := AtRisk, claims := validated, fromCache := false, claimsAt := now)
  }

  function AfterRisk(r: Request, action: RiskAction): Request {
    r.(stage := if action in {Allow, LogAndMonitor} then AtKey else Rejected, risk := Some(action))
  }

  /** The lookup's result is looked at only after the session has been asked for. */
  function AfterLookup(r: Request, answer: Answer): Request {
    r.(stage := AtSession, listed := Some(answer))
  }

  function AfterSession(r: Request, answer: SessionAnswer): Request {
    var degraded := answer.SessionUnavailable? && !r.changing && r.fromCache;
    r.(session := Some(answer),
       stage := if r.listed == Some(NotListed) && (answer.SessionOk? || degraded) then AtUserLimit else Rejected)
  }

  function AfterUserLimit(r: Request, ok: bool): Request {
    r.(userLimit := Some(ok), stage := if !ok then Rejected else if r.changing then AtNonce else Admitted)
  }

  /** Without the header the nonce store is not asked. */
  function AfterNonce(r: Request, outcome: NonceAnswer): Request {
    if !r.nonceHeader then r.(stage := Rejected)
    else r.(nonce := Some(outcome), stage := if outcome.Fresh? then Admitted else Rejected)
  }

  function RiskStep(w: World, id: Id, action: RiskAction): World
    requires At(w, id, AtRisk) && w.requests[id].claims.Some?
  {
    var c := w.requests[id].claims.value;
    var w1 := Put(w, id, AfterRisk(w.requests[id], action));
    if action.BlockAndInvalidate? && c.exp > Seconds(w.s.now) then
      w1.(revokes := w.revokes[Blocker(id) := RevokeCall(RowNext, c.jti, c.exp - Seconds(w.s.now))], called := w.called + {c.jti})
    else w1
  }

  function RowStep(w: World, id: Id, ok: bool): World
    requires At(w, id, AtRow) && w.requests[id].claims.Some?
  {
    var r := w.requests[id];
    var jti := r.claims.value.jti;
    if !ok then Put(w, id, AfterLookup(r, Unknown))
    else if RowLive(w.s, jti) then Put(w, id, r.(stage := AtRehydrate(w.s.rows[jti])))
    else Put(w, id, AfterLookup(r, NotListed).(checkedAt := w.s.now, seen := |w.commits|))
  }

  function KeyStep(w: World, id: Id, ok: bool): World
    requires At(w, id, AtKey) && w.requests[id].claims.Some?
  {
    var r := w.requests[id];
    if ok && KeyLive(w.s, r.claims.value.jti) then Put(w, id, AfterLookup(r, Listed))
    else if w.hasDb then Put(w, id, r.(stage := AtRow))
    else if ok then Put(w, id, AfterLookup(r, NotListed).(checkedAt := w.s.now, seen := |w.commits|))
    else Put(w, id, AfterLookup(r, Unknown))
  }

  function RehydrateStep(w: World, id: Id, ok: bool): World
    requires id in w.requests && w.requests[id].stage.AtRehydrate? && w.requests[id].claims.Some?
  {
    var r := w.requests[id];
    var w1 := Put(w, id, AfterLookup(r, Listed));
    if ok then w1.(s := KeySet(w.s, r.claims.value.jti, Remaining(w.s, r.stage.expiresAt))) else w1
  }

  /** An insert that takes effect is committed, even when its reply is lost. */
  function RevokeRowStep(w: World, c: Caller, o: Outcome): World
    requires c in w.revokes
  {
    var call := w.revokes[c];
    if !w.hasDb then w.(revokes := w.revokes[c := call.(stage := KeyNext)])
    else if o == Fails then w.(revokes := w.revokes[c := call.(stage := Failed)])
    else
      var s1 := RowAdded(w.s, call.jti, call.ttl);
      w.(s := s1, revokes := w.revokes[c := call.(stage := if o == Fine then KeyNext else Failed)],
         commits := w.commits + [Commit(call.jti, Seconds(w.s.now) + call.ttl, s1.rows[call.jti])])
  }

  function RevokeKeyStep(w: World, c: Caller, o: Outcome): World
    requires c in w.revokes
  {
    var call := w.revokes[c];
    w.(s := if Effective(o) then KeySet(w.s, call.jti, call.ttl) else w.s,
       revokes := w.revokes[c := call.(stage := if o == Fine || w.hasDb then Succeeded else Failed)])
  }

  function RequestStep(w: World, a: Action): World {
    match a
    case Arrive(id, changing, nonceHeader) => if id in w.requests then w else Put(w, id, Arrived(changing, nonceHeader))
    case Door(id, ipLimit, endpointLimit, bearer, waf) =>
      if !At(w, id, AtDoor) then w
      else Put(w, id, AfterDoor(w.requests[id], ipLimit && endpointLimit && bearer && waf != Some(true)))
    case ReadClaims(id, cached, validated, putOk) =>
      if !At(w, id, AtClaims) then w else Put(w, id, AfterClaims(w.requests[id], w.s.now, cached, validated, putOk))
    case AssessRisk(id, action) =>
      if !At(w, id, AtRisk) || w.requests[id].claims.None? then w else RiskStep(w, id, action)
    case ReadKey(id, ok) => if !At(w, id, AtKey) || w.requests[id].claims.None? then w else KeyStep(w, id, ok)
    case ReadRow(id, ok) => if !At(w, id, AtRow) || w.requests[id].claims.None? then w else RowStep(w, id, ok)
    case Rehydrate(id, ok) =>
      if id !in w.requests || !w.requests[id].stage.AtRehydrate? || w.requests[id].claims.None? then w else RehydrateStep(w, id, ok)
    case CheckSession(id, answer) => if !At(w, id, AtSession) then w else Put(w, id, AfterSession(w.requests[id], answer))
    case CheckUserLimit(id, ok) => if !At(w, id, AtUserLimit) then w else Put(w, id, AfterUserLimit(w.requests[id], ok))
    case CheckNonce(id, outcome) => if !At(w, id, AtNonce) then w else Put(w, id, AfterNonce(w.requests[id], outcome))
    case _ => w
  }

  function RevokeStep(w: World, a: Action): World {
    match a
    case StartRevoke(n, jti, ttl) =>
      if Logout(n) in w.revokes then w
      else w.(revokes := w.revokes[Logout(n) := RevokeCall(RowNext, jti, ttl)], called := w.called + {jti})
    case RevokeRow(c, o) => if c !in w.revokes || !w.revokes[c].stage.RowNext? then w else RevokeRowStep(w, c, o)
    case RevokeKey(c, o) => if c !in w.revokes || !w.revokes[c].stage.KeyNext? then w else RevokeKeyStep(w, c, o)
    case Tick(ms) => w.(s := w.s.(now := w.s.now + ms))
    case Evict(jti) => w.(s := Evicted(w.s, jti))
    case Clean(jti) => w.(s := Cleaned(w.s, jti))
    case _ => w
  }

  predicate IsRequestAction(a: Action) {
    a.Arrive? || a.Door? || a.ReadClaims? || a.AssessRisk? || a.ReadKey? || a.ReadRow? || a.Rehydrate?
    || a.CheckSession? || a.CheckUserLimit? || a.CheckNonce?
  }

  function Step(w: World, a: Action): World {
    if IsRequestAction(a) then RequestStep(w, a) else RevokeStep(w, a)
  }

  function Run(w: World, acts: seq<Action>): World
    decreases |acts|
  {
    if acts == [] then w else Run(Step(w, acts[0]), acts[1..])
  }

  // ---- the table keeps its promises --------------------------------------

  /** Some commit asked for this expiry. */
  predicate Asked(commits: seq<Commit>, jti: Jti, e: nat) {
    commits != [] &&
    ((commits[|commits| - 1].jti == jti && commits[|commits| - 1].promised == e) || Asked(commits[..|commits| - 1], jti, e))
  }

  /** At second t an unexpired commit is in the table; every row and stored expiry was
  asked for. */
  ghost predicate TableSound(t: nat, rows: map<Jti, nat>, commits: seq<Commit>) {
    && (forall i | 0 <= i < |commits| :: t < commits[i].stored ==>
         commits[i].jti in rows && rows[commits[i].jti] == commits[i].stored)
    && (forall jti | jti in rows :: Asked(commits, jti, rows[jti]))
    && (forall i | 0 <= i < |commits| :: Asked(commits, commits[i].jti, commits[i].stored))
  }

  ghost predicate TableInv(w: World) {
    TableSound(Seconds(w.s.now), w.s.rows, w.commits)
  }

  lemma AskedStays(commits: seq<Commit>, c: Commit)
    ensures forall jti, e | Asked(commits, jti, e) :: Asked(commits + [c], jti, e)
    ensures Asked(commits + [c], c.jti, c.promised)
  {
    assert (commits + [c])[..|commits|] == commits;
  }

  lemma RequestsLeaveTable(w: World, a: Action)
    requires IsRequestAction(a)
    ensures var w' := Step(w, a); w'.s.rows == w.s.rows && w'.s.now == w.s.now && w'.commits == w.commits && w'.hasDb == w.hasDb
  {
  }

  lemma RowAddedKeepsTable(t: nat, rows: map<Jti, nat>, commits: seq<Commit>, jti: Jti, promised: nat)
    requires TableSound(t, rows, commits)
    ensures var rows' := if jti in rows then rows else rows[jti := promised];
      TableSound(t, rows', commits + [Commit(jti, promised, rows'[jti])])
  {
    var rows' := if jti in rows then rows else rows[jti := promised];
    var c := Commit(jti, promised, rows'[jti]);
    var commits' := commits + [c];
    AskedStays(commits, c);
    forall i | 0 <= i < |commits'|
      ensures Asked(commits', commits'[i].jti, commits'[i].stored)
      ensures t < commits'[i].stored ==> commits'[i].jti in rows' && rows'[commits'[i].jti] == commits'[i].stored
    {
      if i < |commits| {
        assert commits'[i] == commits[i] && Asked(commits, commits[i].jti, commits[i].stored);
      } else {
        assert jti in rows ==> Asked(commits, jti, rows[jti]);
      }
    }
  }

  lemma CleanKeepsTable(s: Lists, commits: seq<Commit>, jti: Jti)
    requires TableSound(Seconds(s.now), s.rows, commits)
    ensures TableSound(Seconds(s.now), Cleaned(s, jti).rows, commits)
  {
  }

  lemma RevokeRowKeepsTable(w: World, c: Caller, o: Outcome)
    requires TableInv(w) && c in w.revokes
    ensures TableInv(RevokeRowStep(w, c, o))
  {
    if w.hasDb && Effective(o) {
      var t, call := Seconds(w.s.now), w.revokes[c];
      var rows' := if call.jti in w.s.rows then w.s.rows else w.s.rows[call.jti := t + call.ttl];
      var commits' := w.commits + [Commit(call.jti, t + call.ttl, rows'[call.jti])];
      assert TableSound(t, rows', commits') by {
        RowAddedKeepsTable(t, w.s.rows, w.commits, call.jti, t + call.ttl);
      }
      var w' := RevokeRowStep(w, c, o);
      assert w'.s.rows == rows' && w'.s.now == w.s.now && w'.commits == commits';
    }
  }

  /** Only two kinds of action change the rows or the commits. */
  lemma TableFrame(w: World, a: Action)
    requires !a.RevokeRow? && !a.Clean?
    ensures var w' := Step(w, a); w'.s.rows == w.s.rows && w'.commits == w.commits && w.s.now <= w'.s.now
  {
    if IsRequestAction(a) {
      RequestsLeaveTable(w, a);
    }
  }

  lemma TableLater(t: nat, t': nat, rows: map<Jti, nat>, commits: seq<Commit>)
    requires TableSound(t, rows, commits) && t <= t'
    ensures TableSound(t', rows, commits)
  {
  }

  lemma TableStep(w: World, a: Action)
    requires TableInv(w)
    ensures TableInv(Step(w, a))
  {
    if a.RevokeRow? {
      if a.c in w.revokes && w.revokes[a.c].stage.RowNext? {
        RevokeRowKeepsTable(w, a.c, a.o);
      }
    } else if a.Clean? {
      CleanKeepsTable(w.s, w.commits, a.jti);
    } else {
      TableFrame(w, a);
      SecondsMonotone(w.s.now, Step(w, a).s.now);
      TableLater(Seconds(w.s.now), Seconds(Step(w, a).s.now), w.s.rows, w.commits);
    }
  }

  // ---- what a request knows ----------------------------------------------

  predicate ClaimsTimely(r: Request) {
    r.claims.Some? ==> if r.fromCache then Seconds(r.claimsAt) < r.claims.value.exp
                       else Seconds(r.claimsAt) <= r.claims.value.exp + LEEWAY
  }

  predicate SessionPasses(r: Request) {
    r.session == Some(SessionOk) || (r.session == Some(SessionUnavailable) && !r.changing && r.fromCache)
  }

  predicate RiskPasses(r: Request) {
    r.risk == Some(Allow) || r.risk == Some(LogAndMonitor)
  }

  function Rank(stage: Stage): nat {
    match stage
    case AtDoor => 0
    case AtClaims => 1
    case AtRisk => 2
    case AtKey => 3
    case AtRow => 4
    case AtRehydrate(_) => 5
    case AtSession => 6
    case AtUserLimit => 7
    case AtNonce => 8
    case Admitted => 9
    case Rejected => 10
  }

  /** A request still in line has passed every gate before its stage, and none after. */
  predicate Passed(r: Request) {
    var k := Rank(r.stage);
    && (1 <= k ==> r.door == Some(true))
    && (2 <= k ==> r.claims.Some?)
    && (3 <= k ==> RiskPasses(r))
    && (6 <= k ==> r.listed.Some?)
    && (7 <= k ==> r.listed == Some(NotListed) && SessionPasses(r))
    && (8 <= k ==> r.userLimit == Some(true))
    && (k == 8 ==> r.changing)
    && (9 <= k && r.changing ==> r.nonceHeader && r.nonce == Some(Fresh))
    && (k <= 0 ==> r.door.None?)
    && (k <= 1 ==> r.claims.None?)
    && (k <= 2 ==> r.risk.None?)
    && (k <= 5 ==> r.listed.None?)
    && (k <= 6 ==> r.session.None?)
    && (k <= 7 ==> r.userLimit.None?)
    && (k <= 8 ==> r.nonce.None?)
  }

  /** Some gate that a rejected request reached turned it away. */
  predicate Refused(r: Request) {
    || r.door == Some(false)
    || (r.door == Some(true) && r.claims.None?)
    || (r.risk.Some? && !RiskPasses(r))
    || (r.session.Some? && (r.listed != Some(NotListed) || !SessionPasses(r)))
    || r.userLimit == Some(false)
    || (r.userLimit == Some(true) && r.changing && (!r.nonceHeader || r.nonce != Some(Fresh)))
  }

  predicate Accounted(r: Request) {
    && ClaimsTimely(r)
    && (r.stage.Rejected? ==> Refused(r))
    && (!r.stage.Rejected? ==> Passed(r))
  }

  ghost predicate RequestsInv(w: World) {
    forall id | id in w.requests :: Accounted(w.requests[id])
  }

  lemma ClaimsAccounted(r: Request, now: nat, cached: CacheRead, validated: Option<Claims>, putOk: bool)
    requires Accounted(r) && r.stage == AtClaims
    ensures Accounted(AfterClaims(r, now, cached, validated, putOk))
  {
  }

  lemma FirstGatesAccounted(r: Request, pass: bool, action: RiskAction)
    requires Accounted(r)
    ensures r.stage == AtDoor ==> Accounted(AfterDoor(r, pass))
    ensures r.stage == AtRisk ==> Accounted(AfterRisk(r, action))
  {
  }

  lemma LastGatesAccounted(r: Request, session: SessionAnswer, ok: bool, outcome: NonceAnswer)
    requires Accounted(r)
    ensures r.stage == AtSession ==> Accounted(AfterSession(r, session))
    ensures r.stage == AtUserLimit ==> Accounted(AfterUserLimit(r, ok))
    ensures r.stage == AtNonce ==> Accounted(AfterNonce(r, outcome))
  {
  }

  lemma LookupAccounted(r: Request, answer: Answer, at: nat, seen: nat, expiresAt: nat)
    requires Accounted(r) && 3 <= Rank(r.stage) <= 5
    ensures Accounted(AfterLookup(r, answer)) && Accounted(AfterLookup(r, answer).(checkedAt := at, seen := seen))
    ensures r.stage == AtKey ==> Accounted(r.(stage := AtRow))
    ensures r.stage == AtRow ==> Accounted(r.(stage := AtRehydrate(expiresAt)))
  {
  }

  /** The stage of a request and what becomes of it in one of its own steps. */
  lemma OwnStepAccounted(w: World, a: Action, id: Id)
    requires IsRequestAction(a) && a.id == id && id in w.requests && Accounted(w.requests[id])
    ensures id in Step(w, a).requests && Accounted(Step(w, a).requests[id])
  {
    var r := w.requests[id];
    match a {
      case Arrive(_, _, _) =>
      case Door(_, ip, endpoint, bearer, waf) => FirstGatesAccounted(r, ip && endpoint && bearer && waf != Some(true), Allow);
      case ReadClaims(_, cached, validated, putOk) => if r.stage == AtClaims { ClaimsAccounted(r, w.s.now, cached, validated, putOk); }
      case AssessRisk(_, action) => FirstGatesAccounted(r, true, action);
      case ReadKey(_, _) => if r.stage == AtKey { OwnLookupAccounted(w, a, id); }
      case ReadRow(_, _) => if r.stage == AtRow { OwnLookupAccounted(w, a, id); }
      case Rehydrate(_, _) => if r.stage.AtRehydrate? { OwnLookupAccounted(w, a, id); }
      case CheckSession(_, session) => LastGatesAccounted(r, session, true, Fresh);
      case CheckUserLimit(_, ok) => LastGatesAccounted(r, SessionOk, ok, Fresh);
      case CheckNonce(_, outcome) => LastGatesAccounted(r, SessionOk, true, outcome);
    }
  }

  lemma OwnLookupAccounted(w: World, a: Action, id: Id)
    requires (a.ReadKey? || a.ReadRow? || a.Rehydrate?) && a.id == id && id in w.requests && Accounted(w.requests[id])
    requires 3 <= Rank(w.requests[id].stage) <= 5
    ensures id in Step(w, a).requests && Accounted(Step(w, a).requests[id])
  {
    var r := w.requests[id];
    var expiresAt := if r.claims.Some? && r.claims.value.jti in w.s.rows then w.s.rows[r.claims.value.jti] else 0;
    LookupAccounted(r, Listed, w.s.now, |w.commits|, expiresAt);
    LookupAccounted(r, NotListed, w.s.now, |w.commits|, expiresAt);
    LookupAccounted(r, Unknown, w.s.now, |w.commits|, expiresAt);
  }

  lemma OthersStay(w: World, a: Action, id: Id)
    requires IsRequestAction(a) ==> a.id != id
    ensures id in Step(w, a).requests <==> id in w.requests
    ensures id in w.requests ==> Step(w, a).requests[id] == w.requests[id]
  {
    if !IsRequestAction(a) {
      assert Step(w, a).requests == w.requests;
      return;
    }
  }

  lemma RequestStepAccounted(w: World, a: Action)
    requires RequestsInv(w)
    ensures RequestsInv(Step(w, a))
  {
    forall id | id in Step(w, a).requests ensures Accounted(Step(w, a).requests[id]) {
      if !IsRequestAction(a) || a.id != id {
        OthersStay(w, a, id);
      } else if id in w.requests {
        OwnStepAccounted(w, a, id);
      }
    }
  }

  // ---- lookups tell the truth --------------------------------------------

  /** A lookup that said `NotListed` found every commit it could see expired. */
  ghost predicate LookupSound(w: World, r: Request) {
    r.listed == Some(NotListed) && w.hasDb ==>
      && r.seen <= |w.commits| && r.checkedAt <= w.s.now && r.claims.Some?
      && forall i | 0 <= i < r.seen :: w.commits[i].jti == r.claims.value.jti ==> w.commits[i].stored <= Seconds(r.checkedAt)
  }

  ghost predicate LookupsInv(w: World) {
    forall id | id in w.requests :: LookupSound(w, w.requests[id])
  }

  lemma SecondsMonotone(a: nat, b: nat)
    requires a <= b
    ensures Seconds(a) <= Seconds(b)
  {
  }

  /** Time and further commits do not unsettle a lookup. */
  lemma LookupStays(w: World, w': World, r: Request)
    requires LookupSound(w, r) && w'.hasDb == w.hasDb && w'.s.now >= w.s.now && w.commits <= w'.commits
    ensures LookupSound(w', r)
  {
  }

  lemma TimeAndCommitsGrow(w: World, a: Action)
    ensures var w' := Step(w, a); w'.hasDb == w.hasDb && w'.s.now >= w.s.now && w.commits <= w'.commits
  {
    if IsRequestAction(a) {
      RequestsLeaveTable(w, a);
    }
  }

  lemma OwnLookup(w: World, a: Action, id: Id)
    requires TableInv(w) && IsRequestAction(a) && a.id == id
    requires id in w.requests ==> Accounted(w.requests[id]) && LookupSound(w, w.requests[id])
    ensures id in Step(w, a).requests ==> LookupSound(w, Step(w, a).requests[id])
  {
    if id in w.requests && a.ReadRow? && At(w, id, AtRow) && w.requests[id].claims.Some? {
      var jti := w.requests[id].claims.value.jti;
      assert forall i | 0 <= i < |w.commits| :: w.commits[i].jti == jti && !RowLive(w.s, jti) ==> w.commits[i].stored <= Seconds(w.s.now);
    }
  }

  lemma LookupsStep(w: World, a: Action)
    requires TableInv(w) && RequestsInv(w) && LookupsInv(w)
    ensures LookupsInv(Step(w, a))
  {
    var w' := Step(w, a);
    TimeAndCommitsGrow(w, a);
    forall id | id in w'.requests ensures LookupSound(w', w'.requests[id]) {
      if IsRequestAction(a) && a.id == id {
        OwnLookup(w, a, id);
      } else {
        OthersStay(w, a, id);
      }
      LookupStays(w, w', w'.requests[id]);
    }
  }

  // ---- nothing is listed that nobody revoked -----------------------------

  predicate ListedWasCalled(called: set<Jti>, r: Request) {
    Rank(r.stage) == 5 || r.listed == Some(Listed) ==> r.claims.Some? && r.claims.value.jti in called
  }

  ghost predicate StoresCalled(w: World) {
    && w.s.rows.Keys <= w.called && w.s.cache.Keys <= w.called
    && (forall c | c in w.revokes :: w.revokes[c].jti in w.called)
  }

  ghost predicate CalledInv(w: World) {
    && StoresCalled(w)
    && (forall id | id in w.requests :: ListedWasCalled(w.called, w.requests[id]))
  }

  lemma RevokeStoresStep(w: World, a: Action)
    requires StoresCalled(w) && !IsRequestAction(a)
    ensures StoresCalled(Step(w, a)) && w.called <= Step(w, a).called
  {
    match a {
      case StartRevoke(_, _, _) => return;
      case RevokeRow(_, _) => return;
      case RevokeKey(_, _) => return;
      case _ => return;
    }
  }

  lemma StoresStep(w: World, a: Action)
    requires CalledInv(w)
    ensures StoresCalled(Step(w, a)) && w.called <= Step(w, a).called
  {
    if !IsRequestAction(a) {
      RevokeStoresStep(w, a);
      return;
    }
    match a {
      case Rehydrate(_, _) => return;
      case AssessRisk(_, _) => return;
      case _ => return;
    }
  }

  lemma OwnGateListed(w: World, a: Action, id: Id)
    requires IsRequestAction(a) && a.id == id && id in w.requests && !a.ReadKey? && !a.ReadRow? && !a.Rehydrate?
    requires Accounted(w.requests[id]) && ListedWasCalled(w.called, w.requests[id])
    ensures ListedWasCalled(w.called, Step(w, a).requests[id])
  {
  }

  lemma OwnLookupListed(w: World, a: Action, id: Id)
    requires StoresCalled(w) && (a.ReadKey? || a.ReadRow? || a.Rehydrate?) && a.id == id && id in w.requests
    requires ListedWasCalled(w.called, w.requests[id])
    ensures ListedWasCalled(w.called, Step(w, a).requests[id])
  {
    match a {
      case ReadKey(_, _) => return;
      case ReadRow(_, _) => return;
      case Rehydrate(_, _) => return;
    }
  }

  lemma CalledStep(w: World, a: Action)
    requires RequestsInv(w) && CalledInv(w)
    ensures CalledInv(Step(w, a))
  {
    var w' := Step(w, a);
    StoresStep(w, a);
    forall id | id in w'.requests ensures ListedWasCalled(w'.called, w'.requests[id]) {
      if IsRequestAction(a) && a.id == id {
        if id in w.requests {
          if a.ReadKey? || a.ReadRow? || a.Rehydrate? {
            OwnLookupListed(w, a, id);
          } else {
            OwnGateListed(w, a, id);
          }
        }
      } else {
        OthersStay(w, a, id);
      }
    }
  }

  ghost predicate Inv(w: World) {
    TableInv(w) && RequestsInv(w) && LookupsInv(w) && CalledInv(w)
  }

  lemma StepKeepsInv(w: World, a: Action)
    requires Inv(w)
    ensures Inv(Step(w, a)) && Step(w, a).hasDb == w.hasDb
  {
    TableStep(w, a);
    LookupsStep(w, a);
    CalledStep(w, a);
    RequestStepAccounted(w, a);
    TimeAndCommitsGrow(w, a);
  }

  lemma {:induction false} RunKeepsInv(w: World, acts: seq<Action>)
    requires Inv(w)
    ensures Inv(Run(w, acts)) && Run(w, acts).hasDb == w.hasDb
    decreases |acts|
  {
    if acts != [] {
      StepKeepsInv(w, acts[0]);
      RunKeepsInv(Step(w, acts[0]), acts[1..]);
    }
  }
}
