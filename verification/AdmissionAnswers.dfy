/** Who is admitted, told from what the gates answered in the run and from nothing the
request has noted down. */
module AdmissionAnswers {
  import opened Wrappers
  import opened Blacklist
  import opened Admission
  import opened AdmissionTheorems

  /** What a request brings with it and the claims its token yields. */
  datatype Terms = Terms(changing: bool, nonceHeader: bool, claims: Claims, cached: bool)

  /** The system after the first n actions. */
  function After(hasDb: bool, acts: seq<Action>, n: nat): World
    requires n <= |acts|
  {
    if n == 0 then Init(hasDb) else Step(After(hasDb, acts, n - 1), acts[n - 1])
  }

  lemma {:induction false} AfterIsRun(hasDb: bool, acts: seq<Action>, n: nat)
    requires n <= |acts|
    ensures Run(After(hasDb, acts, n), acts[n..]) == Run(Init(hasDb), acts)
    decreases n
  {
    if n == 0 {
      assert acts[0..] == acts;
    } else {
      AfterIsRun(hasDb, acts, n - 1);
      assert acts[n - 1..][1..] == acts[n..];
    }
  }

  lemma {:induction false} AfterKeepsInv(hasDb: bool, acts: seq<Action>, n: nat)
    requires n <= |acts|
    ensures Inv(After(hasDb, acts, n)) && After(hasDb, acts, n).hasDb == hasDb
    decreases n
  {
    if n == 0 {
      InitInv(hasDb);
    } else {
      AfterKeepsInv(hasDb, acts, n - 1);
      StepKeepsInv(After(hasDb, acts, n - 1), acts[n - 1]);
    }
  }

  // ---- the gates in their order ------------------------------------------

  /** Both limits let the caller through, it brings a bearer token, and the firewall's
  list does not name it; a list that cannot be read names nobody. */
  predicate DoorOpens(a: Action, id: Id) {
    a.Door? && a.id == id && a.ipLimit && a.endpointLimit && a.bearer && a.wafBlocked != Some(true)
  }

  /** The claims come from the cache and have not expired, or the token decodes, its
  expiry not more than ten seconds past, and the cache takes them. */
  predicate ClaimsGiven(a: Action, id: Id, now: nat, t: Terms) {
    && a.ReadClaims? && a.id == id
    && if t.cached then a.cached == CacheHit(t.claims) && Seconds(now) < t.claims.exp
       else
         && (a.cached == CacheMiss || (a.cached.CacheHit? && a.cached.claims.exp <= Seconds(now)))
         && a.validated == Some(t.claims) && Seconds(now) <= t.claims.exp + 10 && a.putOk
  }

  predicate RiskTaken(a: Action, id: Id) {
    a == AssessRisk(id, Allow) || a == AssessRisk(id, LogAndMonitor)
  }

  /** Redis does not list the token; with a database it need not answer. */
  predicate KeyAbsent(a: Action, id: Id, s: Lists, jti: Jti, hasDb: bool) {
    a.ReadKey? && a.id == id && if a.ok then !KeyLive(s, jti) else hasDb
  }

  predicate RowAbsent(a: Action, id: Id, s: Lists, jti: Jti) {
    a == ReadRow(id, true) && !RowLive(s, jti)
  }

  /** The session stands, or its store is down and a reading request has cached claims. */
  predicate SessionStands(a: Action, id: Id, t: Terms) {
    a == CheckSession(id, SessionOk) || (a == CheckSession(id, SessionUnavailable) && !t.changing && t.cached)
  }

  const GATES: nat := 8

  /** The answer that opens gate g at a time when the lists are s. */
  predicate Opens(g: nat, s: Lists, hasDb: bool, a: Action, id: Id, t: Terms) {
    match g
    case 0 => a == Arrive(id, t.changing, t.nonceHeader)
    case 1 => DoorOpens(a, id)
    case 2 => ClaimsGiven(a, id, s.now, t)
    case 3 => RiskTaken(a, id)
    case 4 => KeyAbsent(a, id, s, t.claims.jti, hasDb)
    case 5 => RowAbsent(a, id, s, t.claims.jti)
    case 6 => SessionStands(a, id, t)
    case 7 => a == CheckUserLimit(id, true)
    case 8 => a == CheckNonce(id, Fresh) && t.nonceHeader
    case _ => false
  }

  /** Without a database there is no table to ask, and only a changing request needs a nonce. */
  predicate Spared(g: nat, hasDb: bool, changing: bool) {
    (g == 5 && !hasDb) || (g == 8 && !changing)
  }

  /** At these moments within the first n actions the gates up to g opened to the request,
  one after the other. */
  predicate OpenedAt(g: nat, hasDb: bool, acts: seq<Action>, n: nat, id: Id, t: Terms, at: seq<nat>)
    requires n <= |acts|
  {
    && |at| == g + 1
    && (forall j | 0 <= j <= g :: at[j] < n && (Spared(j, hasDb, t.changing) || Opens(j, After(hasDb, acts, at[j]).s, hasDb, acts[at[j]], id, t)))
    && (forall i, j | 0 <= i < j <= g :: Spared(j, hasDb, t.changing) || at[i] < at[j])
  }

  ghost predicate Opened(g: nat, hasDb: bool, acts: seq<Action>, n: nat, id: Id, t: Terms)
    requires n <= |acts|
  {
    exists at :: OpenedAt(g, hasDb, acts, n, id, t, at)
  }

  lemma OpenedBefore(g: nat, h: nat, hasDb: bool, acts: seq<Action>, m: nat, n: nat, id: Id, t: Terms)
    requires m <= n <= |acts| && h <= g && Opened(g, hasDb, acts, m, id, t)
    ensures Opened(h, hasDb, acts, n, id, t)
  {
    var at :| OpenedAt(g, hasDb, acts, m, id, t, at);
    assert OpenedAt(h, hasDb, acts, n, id, t, at[..h + 1]);
  }

  /** The last of the first n actions opens gate g. */
  lemma OpensNow(g: nat, hasDb: bool, acts: seq<Action>, n: nat, id: Id, t: Terms)
    requires 0 < n <= |acts| && Opens(g, After(hasDb, acts, n - 1).s, hasDb, acts[n - 1], id, t)
    requires g == 0 || Opened(g - 1, hasDb, acts, n - 1, id, t)
    ensures Opened(g, hasDb, acts, n, id, t)
  {
    var last: nat := n - 1;
    if g == 0 {
      assert OpenedAt(g, hasDb, acts, n, id, t, [last]);
      return;
    }
    var at :| OpenedAt(g - 1, hasDb, acts, last, id, t, at);
    assert OpenedAt(g, hasDb, acts, n, id, t, at + [last]);
  }

  lemma SparedOpens(g: nat, hasDb: bool, acts: seq<Action>, n: nat, id: Id, t: Terms)
    requires n <= |acts| && Spared(g, hasDb, t.changing) && Opened(g - 1, hasDb, acts, n, id, t)
    ensures Opened(g, hasDb, acts, n, id, t)
  {
    var at :| OpenedAt(g - 1, hasDb, acts, n, id, t, at);
    assert OpenedAt(g, hasDb, acts, n, id, t, at + [at[g - 1]]);
  }

  // ---- whoever gets ahead has been let through ---------------------------

  /** The terms agree with what the request has shown so far. */
  predicate Fits(t: Terms, r: Request) {
    && t.changing == r.changing && t.nonceHeader == r.nonceHeader
    && (r.claims.Some? ==> t.claims == r.claims.value && t.cached == r.fromCache)
  }

  /** The last gate that must have opened to a request at this stage. */
  function GateOf(r: Request): nat {
    match r.stage
    case AtDoor => 0
    case AtClaims => 1
    case AtRisk => 2
    case AtKey => 3
    case AtRow => 4
    case AtRehydrate(_) => 4
    case AtSession => if r.listed == Some(NotListed) then 5 else 3
    case AtUserLimit => 6
    case AtNonce => 7
    case Admitted => 8
    case Rejected => 0
  }

  ghost predicate LetThrough(hasDb: bool, acts: seq<Action>, n: nat, id: Id)
    requires n <= |acts|
  {
    var w := After(hasDb, acts, n);
    id in w.requests && w.requests[id].stage != Rejected ==>
      forall t | Fits(t, w.requests[id]) :: Opened(GateOf(w.requests[id]), hasDb, acts, n, id, t)
  }

  /** One step of a request from gate to gate. */
  predicate Advances(w: World, r: Request, r': Request, a: Action, id: Id, t: Terms) {
    var g, g' := GateOf(r), GateOf(r');
    || (r' == r)
    || (g' <= g && r'.stage != Admitted)
    || (g' == g + 1 && Spared(g', w.hasDb, t.changing))
    || (Opens(g + 1, w.s, w.hasDb, a, id, t) && !Spared(g + 1, w.hasDb, t.changing)
        && (g' == g + 1 || (g' == g + 2 && Spared(g', w.hasDb, t.changing))))
  }

  lemma DoorAdvance(w: World, r: Request, r': Request, a: Action, id: Id, t: Terms)
    requires r.stage == AtDoor && Accounted(r) && a.Door? && a.id == id
    requires r' == AfterDoor(r, a.ipLimit && a.endpointLimit && a.bearer && a.wafBlocked != Some(true))
    requires r'.stage != Rejected && Fits(t, r')
    ensures Fits(t, r) && Advances(w, r, r', a, id, t)
  {
  }

  lemma ClaimsAdvance(w: World, r: Request, r': Request, a: Action, id: Id, t: Terms)
    requires r.stage == AtClaims && Accounted(r) && a.ReadClaims? && a.id == id
    requires r' == AfterClaims(r, w.s.now, a.cached, a.validated, a.putOk) && r'.stage != Rejected && Fits(t, r')
    ensures Fits(t, r) && Advances(w, r, r', a, id, t)
  {
  }

  lemma RiskAdvance(w: World, r: Request, r': Request, a: Action, id: Id, t: Terms)
    requires r.stage == AtRisk && Accounted(r) && a.AssessRisk? && a.id == id
    requires r' == AfterRisk(r, a.action) && r'.stage != Rejected && Fits(t, r')
    ensures Fits(t, r) && Advances(w, r, r', a, id, t)
  {
  }

  lemma FirstAdvance(w: World, w': World, a: Action, id: Id, t: Terms)
    requires id in w.requests && Accounted(w.requests[id]) && w' == Step(w, a)
    requires IsRequestAction(a) && a.id == id && (a.Arrive? || a.Door? || a.ReadClaims? || a.AssessRisk?)
    requires id in w'.requests && w'.requests[id].stage != Rejected && Fits(t, w'.requests[id])
    ensures w.requests[id].stage != Rejected && Fits(t, w.requests[id])
    ensures Advances(w, w.requests[id], w'.requests[id], a, id, t)
  {
    var r := w.requests[id];
    if w' == w {
      return;
    }
    if a.Door? {
      DoorAdvance(w, r, w'.requests[id], a, id, t);
    } else if a.ReadClaims? {
      ClaimsAdvance(w, r, w'.requests[id], a, id, t);
    } else {
      RiskAdvance(w, r, w'.requests[id], a, id, t);
    }
  }

  lemma KeyAdvance(w: World, w': World, a: Action, id: Id, t: Terms)
    requires id in w.requests && w.requests[id].stage == AtKey && Accounted(w.requests[id]) && a.ReadKey? && a.id == id
    requires w' == KeyStep(w, id, a.ok) && Fits(t, w'.requests[id])
    ensures Fits(t, w.requests[id]) && Advances(w, w.requests[id], w'.requests[id], a, id, t)
  {
    var r := w.requests[id];
    if a.ok && KeyLive(w.s, r.claims.value.jti) {
      assert w'.requests[id] == AfterLookup(r, Listed);
      return;
    }
    if w.hasDb {
      assert w'.requests[id] == r.(stage := AtRow);
      return;
    }
    if !a.ok {
      assert w'.requests[id] == AfterLookup(r, Unknown);
      return;
    }
    assert w'.requests[id] == AfterLookup(r, NotListed).(checkedAt := w.s.now, seen := |w.commits|);
  }

  lemma RowAdvance(w: World, w': World, a: Action, id: Id, t: Terms)
    requires id in w.requests && w.requests[id].stage == AtRow && Accounted(w.requests[id]) && a.ReadRow? && a.id == id
    requires w.requests[id].claims.Some? && w' == RowStep(w, id, a.ok) && Fits(t, w'.requests[id])
    ensures Fits(t, w.requests[id]) && Advances(w, w.requests[id], w'.requests[id], a, id, t)
  {
    var r := w.requests[id];
    var jti := r.claims.value.jti;
    if !a.ok {
      assert w'.requests[id] == AfterLookup(r, Unknown);
      return;
    }
    if RowLive(w.s, jti) {
      assert w'.requests[id] == r.(stage := AtRehydrate(w.s.rows[jti]));
      return;
    }
    assert w'.requests[id] == AfterLookup(r, NotListed).(checkedAt := w.s.now, seen := |w.commits|);
  }

  lemma RehydrateAdvance(w: World, w': World, a: Action, id: Id, t: Terms)
    requires id in w.requests && w.requests[id].stage.AtRehydrate? && w.requests[id].claims.Some? && a.Rehydrate? && a.id == id
    requires w' == RehydrateStep(w, id, a.ok) && Fits(t, w'.requests[id])
    ensures Fits(t, w.requests[id]) && Advances(w, w.requests[id], w'.requests[id], a, id, t)
  {
    assert w'.requests[id] == AfterLookup(w.requests[id], Listed);
  }

  lemma LookupAdvance(w: World, w': World, a: Action, id: Id, t: Terms)
    requires id in w.requests && Accounted(w.requests[id]) && w' == Step(w, a)
    requires (a.ReadKey? || a.ReadRow? || a.Rehydrate?) && a.id == id
    requires id in w'.requests && w'.requests[id].stage != Rejected && Fits(t, w'.requests[id])
    ensures w.requests[id].stage != Rejected && Fits(t, w.requests[id])
    ensures Advances(w, w.requests[id], w'.requests[id], a, id, t)
  {
    if w' == w {
      return;
    }
    if a.ReadKey? {
      KeyAdvance(w, w', a, id, t);
    } else if a.ReadRow? {
      RowAdvance(w, w', a, id, t);
    } else {
      RehydrateAdvance(w, w', a, id, t);
    }
  }

  lemma LastAdvance(w: World, w': World, a: Action, id: Id, t: Terms)
    requires id in w.requests && Accounted(w.requests[id]) && w' == Step(w, a) && IsRequestAction(a) && a.id == id && (a.CheckSession? || a.CheckUserLimit? || a.CheckNonce?)
    requires id in w'.requests && w'.requests[id].stage != Rejected && Fits(t, w'.requests[id])
    ensures w.requests[id].stage != Rejected && Fits(t, w.requests[id])
    ensures Advances(w, w.requests[id], w'.requests[id], a, id, t)
  {
    if a.CheckSession? {
      return;
    }
    if a.CheckUserLimit? {
      return;
    }
  }

  lemma OwnAdvance(w: World, w': World, a: Action, id: Id, t: Terms)
    requires Inv(w) && IsRequestAction(a) && a.id == id && id in w.requests && w' == Step(w, a)
    requires id in w'.requests && w'.requests[id].stage != Rejected && Fits(t, w'.requests[id])
    ensures w.requests[id].stage != Rejected && Fits(t, w.requests[id])
    ensures Advances(w, w.requests[id], w'.requests[id], a, id, t)
  {
    assert Accounted(w.requests[id]);
    if a.ReadKey? || a.ReadRow? || a.Rehydrate? {
      LookupAdvance(w, w', a, id, t);
    } else if a.CheckSession? || a.CheckUserLimit? || a.CheckNonce? {
      LastAdvance(w, w', a, id, t);
    } else {
      FirstAdvance(w, w', a, id, t);
    }
  }

  lemma AdvanceOpens(hasDb: bool, acts: seq<Action>, n: nat, id: Id, t: Terms, w: World, r: Request, r': Request)
    requires 0 < n <= |acts| && w == After(hasDb, acts, n - 1) && w.hasDb == hasDb
    requires Advances(w, r, r', acts[n - 1], id, t) && Opened(GateOf(r), hasDb, acts, n - 1, id, t)
    ensures Opened(GateOf(r'), hasDb, acts, n, id, t)
  {
    var g, g' := GateOf(r), GateOf(r');
    if g' <= g {
      OpenedBefore(g, g', hasDb, acts, n - 1, n, id, t);
      return;
    }
    if g' == g + 1 && Spared(g', hasDb, t.changing) {
      OpenedBefore(g, g, hasDb, acts, n - 1, n, id, t);
      SparedOpens(g', hasDb, acts, n, id, t);
      return;
    }
    OpensNow(g + 1, hasDb, acts, n, id, t);
    if g' == g + 2 {
      SparedOpens(g', hasDb, acts, n, id, t);
    }
  }

  lemma ArrivalOpens(hasDb: bool, acts: seq<Action>, n: nat, id: Id, t: Terms, w: World, w': World)
    requires 0 < n <= |acts| && w == After(hasDb, acts, n - 1) && w' == After(hasDb, acts, n)
    requires id !in w.requests && id in w'.requests && Fits(t, w'.requests[id])
    ensures Opened(GateOf(w'.requests[id]), hasDb, acts, n, id, t)
  {
    var a := acts[n - 1];
    if !IsRequestAction(a) || a.id != id {
      OthersStay(w, a, id);
      return;
    }
    assert a == Arrive(id, t.changing, t.nonceHeader);
    OpensNow(GateOf(w'.requests[id]), hasDb, acts, n, id, t);
  }

  lemma StepOpens(hasDb: bool, acts: seq<Action>, n: nat, id: Id, t: Terms, w: World, w': World)
    requires 0 < n <= |acts| && w == After(hasDb, acts, n - 1) && w' == After(hasDb, acts, n) && w.hasDb == hasDb
    requires Inv(w) && LetThrough(hasDb, acts, n - 1, id)
    requires id in w'.requests && w'.requests[id].stage != Rejected && Fits(t, w'.requests[id])
    ensures Opened(GateOf(w'.requests[id]), hasDb, acts, n, id, t)
  {
    var a := acts[n - 1];
    if id !in w.requests {
      ArrivalOpens(hasDb, acts, n, id, t, w, w');
      return;
    }
    if IsRequestAction(a) && a.id == id {
      OwnAdvance(w, w', a, id, t);
    } else {
      OthersStay(w, a, id);
    }
    AdvanceOpens(hasDb, acts, n, id, t, w, w.requests[id], w'.requests[id]);
  }

  lemma NextLetThrough(hasDb: bool, acts: seq<Action>, n: nat, id: Id, w: World, w': World)
    requires 0 < n <= |acts| && w == After(hasDb, acts, n - 1) && w' == After(hasDb, acts, n) && w.hasDb == hasDb
    requires Inv(w) && LetThrough(hasDb, acts, n - 1, id)
    ensures LetThrough(hasDb, acts, n, id)
  {
    forall t | id in w'.requests && w'.requests[id].stage != Rejected && Fits(t, w'.requests[id])
      ensures Opened(GateOf(w'.requests[id]), hasDb, acts, n, id, t)
    {
      StepOpens(hasDb, acts, n, id, t, w, w');
    }
  }

  lemma {:induction false} StaysLetThrough(hasDb: bool, acts: seq<Action>, n: nat, id: Id)
    requires n <= |acts|
    ensures LetThrough(hasDb, acts, n, id)
    decreases n
  {
    if n > 0 {
      StaysLetThrough(hasDb, acts, n - 1, id);
      AfterKeepsInv(hasDb, acts, n - 1);
      NextLetThrough(hasDb, acts, n, id, After(hasDb, acts, n - 1), After(hasDb, acts, n));
    }
  }

  /** All gates have opened to the request in the course of the run. */
  ghost predicate Answered(hasDb: bool, acts: seq<Action>, id: Id, t: Terms) {
    Opened(GATES, hasDb, acts, |acts|, id, t)
  }

  /** Whatever else goes on in the run: a request is admitted only if every gate opened to
  it, one after the other, by an answer given in the run. */
  lemma AdmittedWasAnswered(hasDb: bool, acts: seq<Action>, id: Id)
    requires var w := Run(Init(hasDb), acts); id in w.requests && w.requests[id].stage.Admitted?
    ensures var r := Run(Init(hasDb), acts).requests[id];
      r.claims.Some? && Answered(hasDb, acts, id, Terms(r.changing, r.nonceHeader, r.claims.value, r.fromCache))
  {
    var w, n := After(hasDb, acts, |acts|), |acts|;
    AfterIsRun(hasDb, acts, n);
    assert Run(w, []) == w;
    AfterKeepsInv(hasDb, acts, n);
    StaysLetThrough(hasDb, acts, n, id);
    var r := w.requests[id];
    assert Accounted(r);
    var t := Terms(r.changing, r.nonceHeader, r.claims.value, r.fromCache);
    assert Fits(t, r);
    assert Opened(GateOf(r), hasDb, acts, n, id, t);
  }

  // ---- whoever is let through gets ahead ---------------------------------

  predicate Own(a: Action, id: Id) {
    IsRequestAction(a) && a.id == id
  }

  /** The gate at which an action is an answer; a rehydration is none. */
  function GateAsked(a: Action): nat {
    match a
    case Arrive(_, _, _) => 0
    case Door(_, _, _, _, _) => 1
    case ReadClaims(_, _, _, _) => 2
    case AssessRisk(_, _) => 3
    case ReadKey(_, _) => 4
    case ReadRow(_, _) => 5
    case CheckSession(_, _) => 6
    case CheckUserLimit(_, _) => 7
    case CheckNonce(_, _) => 8
    case _ => 9
  }

  /** Each gate answers the request once at most. */
  predicate AnsweredOnce(acts: seq<Action>, id: Id) {
    forall i, j | 0 <= i < j < |acts| && Own(acts[i], id) && Own(acts[j], id) :: GateAsked(acts[i]) != GateAsked(acts[j])
  }

  /** No gate after g has been asked. */
  predicate AskedUpTo(g: nat, hasDb: bool, acts: seq<Action>, n: nat, id: Id, changing: bool)
    requires n <= |acts|
  {
    forall k | 0 <= k < n && Own(acts[k], id) ::
      GateAsked(acts[k]) <= g || GateAsked(acts[k]) > GATES || Spared(GateAsked(acts[k]), hasDb, changing)
  }

  /** Where a request is when gate g was the last to open to it. */
  predicate Behind(g: nat, hasDb: bool, r: Request, t: Terms) {
    && t.changing == r.changing && t.nonceHeader == r.nonceHeader
    && (g >= 2 ==> r.claims == Some(t.claims) && r.fromCache == t.cached)
    && match g
       case 0 => r.stage == AtDoor
       case 1 => r.stage == AtClaims
       case 2 => r.stage == AtRisk
       case 3 => r.stage == AtKey
       case 4 => if hasDb then r.stage == AtRow else r.stage == AtSession && r.listed == Some(NotListed)
       case 5 => r.stage == AtSession && r.listed == Some(NotListed)
       case 6 => r.stage == AtUserLimit
       case 7 => r.stage == if t.changing then AtNonce else Admitted
       case _ => r.stage == Admitted
  }

  lemma FirstGateOpens(w: World, w': World, a: Action, id: Id, g: nat, t: Terms)
    requires g <= 2 && Opens(g, w.s, w.hasDb, a, id, t) && w' == Step(w, a)
    requires if g == 0 then id !in w.requests else id in w.requests && Behind(g - 1, w.hasDb, w.requests[id], t)
    ensures id in w'.requests && Behind(g, w.hasDb, w'.requests[id], t)
  {
    match a {
      case Arrive(_, _, _) => return;
      case Door(_, _, _, _, _) => return;
      case ReadClaims(_, _, _, _) => return;
    }
  }

  lemma RiskGateOpens(w: World, w': World, a: Action, id: Id, g: nat, t: Terms)
    requires g == 3 && Opens(g, w.s, w.hasDb, a, id, t) && w' == Step(w, a)
    requires id in w.requests && Behind(g - 1, w.hasDb, w.requests[id], t)
    ensures id in w'.requests && Behind(g, w.hasDb, w'.requests[id], t)
  {
  }

  lemma LastGateOpens(w: World, w': World, a: Action, id: Id, g: nat, t: Terms)
    requires 4 <= g <= GATES && !Spared(g, w.hasDb, t.changing) && Opens(g, w.s, w.hasDb, a, id, t) && w' == Step(w, a)
    requires id in w.requests && Behind(g - 1, w.hasDb, w.requests[id], t)
    ensures id in w'.requests && Behind(g, w.hasDb, w'.requests[id], t)
  {
    match a {
      case ReadKey(_, _) => return;
      case ReadRow(_, _) => return;
      case CheckSession(_, _) => return;
      case CheckUserLimit(_, _) => return;
      case CheckNonce(_, _) => return;
    }
  }

  lemma OpensGate(w: World, w': World, a: Action, id: Id, g: nat, t: Terms)
    requires g <= GATES && !Spared(g, w.hasDb, t.changing) && Opens(g, w.s, w.hasDb, a, id, t) && w' == Step(w, a)
    requires if g == 0 then id !in w.requests else id in w.requests && Behind(g - 1, w.hasDb, w.requests[id], t)
    ensures id in w'.requests && Behind(g, w.hasDb, w'.requests[id], t)
  {
    if g <= 2 {
      FirstGateOpens(w, w', a, id, g, t);
    } else if g == 3 {
      RiskGateOpens(w, w', a, id, g, t);
    } else {
      LastGateOpens(w, w', a, id, g, t);
    }
  }

  /** Answers of gates that are behind it move a request no more. */
  lemma OldAnswersPass(w: World, w': World, a: Action, id: Id, g: nat, t: Terms)
    requires g <= GATES && id in w.requests && Behind(g, w.hasDb, w.requests[id], t) && w' == Step(w, a)
    requires Own(a, id) ==> GateAsked(a) <= g || GateAsked(a) > GATES || Spared(GateAsked(a), w.hasDb, t.changing)
    ensures id in w'.requests && w'.requests[id] == w.requests[id]
  {
    if !Own(a, id) {
      OthersStay(w, a, id);
      return;
    }
  }

  lemma {:induction false} StaysBehind(hasDb: bool, acts: seq<Action>, m: nat, n: nat, id: Id, g: nat, t: Terms)
    requires m <= n <= |acts| && g <= GATES && AskedUpTo(g, hasDb, acts, n, id, t.changing)
    requires var w := After(hasDb, acts, m); id in w.requests && Behind(g, hasDb, w.requests[id], t)
    ensures var w := After(hasDb, acts, n); id in w.requests && Behind(g, hasDb, w.requests[id], t)
    decreases n
  {
    if m < n {
      StaysBehind(hasDb, acts, m, n - 1, id, g, t);
      AfterKeepsInv(hasDb, acts, n - 1);
      OldAnswersPass(After(hasDb, acts, n - 1), After(hasDb, acts, n), acts[n - 1], id, g, t);
    }
  }

  lemma {:induction false} NotYetThere(hasDb: bool, acts: seq<Action>, n: nat, id: Id)
    requires n <= |acts| && forall k | 0 <= k < n && Own(acts[k], id) :: GateAsked(acts[k]) != 0
    ensures id !in After(hasDb, acts, n).requests
    decreases n
  {
    if n > 0 {
      NotYetThere(hasDb, acts, n - 1, id);
      if !Own(acts[n - 1], id) {
        OthersStay(After(hasDb, acts, n - 1), acts[n - 1], id);
      }
    }
  }

  lemma OpeningIsOwn(g: nat, s: Lists, hasDb: bool, a: Action, id: Id, t: Terms)
    requires Opens(g, s, hasDb, a, id, t)
    ensures Own(a, id) && GateAsked(a) == g <= GATES
  {
  }

  /** Before the answer of gate g nothing beyond the gate before it was asked. */
  lemma AskedBefore(g: nat, hasDb: bool, acts: seq<Action>, k: nat, n: nat, id: Id, changing: bool)
    requires k < n <= |acts| && 0 < g <= GATES && AnsweredOnce(acts, id) && AskedUpTo(g, hasDb, acts, n, id, changing)
    requires Own(acts[k], id) && GateAsked(acts[k]) == g
    ensures AskedUpTo(g - 1, hasDb, acts, k, id, changing)
  {
  }

  lemma AskedButSpared(g: nat, hasDb: bool, acts: seq<Action>, n: nat, id: Id, changing: bool)
    requires n <= |acts| && 0 < g <= GATES && AskedUpTo(g, hasDb, acts, n, id, changing) && Spared(g, hasDb, changing)
    ensures AskedUpTo(g - 1, hasDb, acts, n, id, changing)
  {
  }

  lemma SparedIsBehind(g: nat, hasDb: bool, r: Request, t: Terms)
    requires 0 < g <= GATES && Spared(g, hasDb, t.changing) && Behind(g - 1, hasDb, r, t)
    ensures Behind(g, hasDb, r, t)
  {
  }

  lemma NoneArrivedBefore(acts: seq<Action>, k: nat, id: Id)
    requires k < |acts| && AnsweredOnce(acts, id) && Own(acts[k], id) && GateAsked(acts[k]) == 0
    ensures forall j | 0 <= j < k && Own(acts[j], id) :: GateAsked(acts[j]) != 0
  {
  }

  lemma {:induction false} OpenedIsBehind(g: nat, hasDb: bool, acts: seq<Action>, n: nat, id: Id, t: Terms, at: seq<nat>)
    requires n <= |acts| && g <= GATES && AnsweredOnce(acts, id) && OpenedAt(g, hasDb, acts, n, id, t, at)
    requires AskedUpTo(g, hasDb, acts, n, id, t.changing)
    ensures var w := After(hasDb, acts, n); id in w.requests && Behind(g, hasDb, w.requests[id], t)
    decreases g
  {
    if Spared(g, hasDb, t.changing) {
      AskedButSpared(g, hasDb, acts, n, id, t.changing);
      OpenedIsBehind(g - 1, hasDb, acts, n, id, t, at[..g]);
      SparedIsBehind(g, hasDb, After(hasDb, acts, n).requests[id], t);
      return;
    }
    var k := at[g];
    OpeningIsOwn(g, After(hasDb, acts, k).s, hasDb, acts[k], id, t);
    if g == 0 {
      NoneArrivedBefore(acts, k, id);
      NotYetThere(hasDb, acts, k, id);
    } else {
      AskedBefore(g, hasDb, acts, k, n, id, t.changing);
      EarlierMoments(g, hasDb, acts, k, n, id, t, at);
      OpenedIsBehind(g - 1, hasDb, acts, k, id, t, at[..g]);
    }
    GateTurns(g, hasDb, acts, k, id, t);
    StaysBehind(hasDb, acts, k + 1, n, id, g, t);
  }

  lemma EarlierMoments(g: nat, hasDb: bool, acts: seq<Action>, k: nat, n: nat, id: Id, t: Terms, at: seq<nat>)
    requires n <= |acts| && g > 0 && OpenedAt(g, hasDb, acts, n, id, t, at) && !Spared(g, hasDb, t.changing) && k == at[g]
    ensures OpenedAt(g - 1, hasDb, acts, k, id, t, at[..g])
  {
  }

  lemma GateTurns(g: nat, hasDb: bool, acts: seq<Action>, k: nat, id: Id, t: Terms)
    requires k < |acts| && g <= GATES && !Spared(g, hasDb, t.changing) && Opens(g, After(hasDb, acts, k).s, hasDb, acts[k], id, t)
    requires var w := After(hasDb, acts, k); if g == 0 then id !in w.requests else id in w.requests && Behind(g - 1, hasDb, w.requests[id], t)
    ensures var w := After(hasDb, acts, k + 1); id in w.requests && Behind(g, hasDb, w.requests[id], t)
  {
    AfterKeepsInv(hasDb, acts, k);
    OpensGate(After(hasDb, acts, k), After(hasDb, acts, k + 1), acts[k], id, g, t);
  }

  lemma AnsweredIsAdmitted(hasDb: bool, acts: seq<Action>, id: Id, t: Terms)
    requires AnsweredOnce(acts, id) && Answered(hasDb, acts, id, t)
    ensures var w := Run(Init(hasDb), acts); id in w.requests && w.requests[id].stage.Admitted?
  {
    var at :| OpenedAt(GATES, hasDb, acts, |acts|, id, t, at);
    OpenedIsBehind(GATES, hasDb, acts, |acts|, id, t, at);
    AfterIsRun(hasDb, acts, |acts|);
    assert Run(After(hasDb, acts, |acts|), []) == After(hasDb, acts, |acts|);
  }

  /** On every run in which each gate answers the request once at most, whatever happens
  beside it: the request is admitted if and only if every gate opened to it, one after
  the other. */
  lemma AdmittedExactlyWhenAnswered(hasDb: bool, acts: seq<Action>, id: Id)
    requires AnsweredOnce(acts, id)
    ensures var w := Run(Init(hasDb), acts);
      (id in w.requests && w.requests[id].stage.Admitted?) <==> exists t :: Answered(hasDb, acts, id, t)
  {
    var w := Run(Init(hasDb), acts);
    if id in w.requests && w.requests[id].stage.Admitted? {
      AdmittedWasAnswered(hasDb, acts, id);
    }
    if t :| Answered(hasDb, acts, id, t) {
      AnsweredIsAdmitted(hasDb, acts, id, t);
    }
  }
}
