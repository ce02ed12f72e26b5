/** Refresh-token rotation as a concurrent protocol.

Every call is a program counter over atomic steps on three shared stores: the
committed DB rows, the Redis cache and the Redis lock.  An open DB transaction
is a set of staged rows held in the call; staging a row locks it against every
other writer, committing publishes all of it at once, and a crash discards it.
Cache entries and locks may disappear at any moment, any store call may fail or
take effect and then lose its reply, and a call may crash at any step.
*/
module RefreshRotation {
  import opened Wrappers
  import opened RefreshTable
  import opened RefreshChains

  /** What a rotation reports.  `Replay(swept)` also records the rows its cascade
  went through; it is empty when no cascade completed. */
  datatype Result = Rotated | Replay(swept: set<Hash>) | Failed

  datatype RotatePc =
    | TakeLock
    | ReadCache
    | ReadDb
    | Preflight(rec: Token)
    | Gate(rec: Token)
    | Insert(rec: Token, staged: Rows)
    | Commit(rec: Token, staged: Rows)
    | MarkOld(rec: Token)
    | CacheNew(rec: Token)
    | Cascade(user: Name)
    | Sweep(seen: set<Hash>, todo: set<Hash>, staged: Rows)
    | Unlock(res: Result)
    | Returned(res: Result)

  datatype IssuePc = DbInsert | CacheWrite | Issued

  datatype RevokePc = DbRevoke | CacheRead | CacheMark(rec: Token) | RevokeDone

  datatype ValidatePc = CacheGet | DbGet | Rehydrate(rec: Token) | Validated(answer: Option<Token>)

  datatype Call =
    | RotateCall(rotate: RotatePc, prior: Hash, succ: Hash, expiresAt: nat)
    | IssueCall(issue: IssuePc, h: Hash, user: Name, device: Name, expiresAt: nat)
    | RevokeCall(revoke: RevokePc, h: Hash)
    | ValidateCall(validate: ValidatePc, h: Hash)

  /** `used` are the token ids ever handed out; `owners` those handed out by `issue`. */
  datatype World = World(
    now: nat,
    rows: Rows,
    cache: Rows,
    locks: set<Hash>,
    calls: map<nat, Call>,
    used: set<Hash>,
    owners: map<Hash, (Name, Name)>)

  const EMPTY := World(0, map[], map[], {}, map[], {}, map[])

  datatype Action =
    | Tick
    | EvictCache(h: Hash)
    | ExpireLock(h: Hash)
    | BeginRotate(id: nat, prior: Hash, succ: Hash, expiresAt: nat)
    | BeginIssue(id: nat, h: Hash, user: Name, device: Name, expiresAt: nat)
    | BeginRevoke(id: nat, h: Hash)
    | BeginValidate(id: nat, h: Hash)
    | Crash(id: nat)
    | Advance(id: nat, outcome: Outcome, pick: Hash)

  function Staged(c: Call): Rows {
    match c
    case RotateCall(Insert(_, staged), _, _, _) => staged
    case RotateCall(Commit(_, staged), _, _, _) => staged
    case RotateCall(Sweep(_, _, staged), _, _, _) => staged
    case _ => map[]
  }

  /** Another open transaction has written this key and not yet committed. */
  predicate Locked(w: World, id: nat, h: Hash) {
    exists j | j in w.calls :: j != id && h in Staged(w.calls[j])
  }

  function Goto(w: World, id: nat, c: Call): World {
    w.(calls := w.calls[id := c])
  }

  // ---- one step of a rotation --------------------------------------------

  function StepRotate(w: World, id: nat, c: Call, o: Outcome, pick: Hash): World
    requires c.RotateCall?
  {
    match c.rotate
    case TakeLock =>
      if o == Fails || c.prior in w.locks then Goto(w, id, c.(rotate := Returned(Failed)))
      else if o == FailsLate then Goto(w, id, c.(rotate := Returned(Failed))).(locks := w.locks + {c.prior})
      else Goto(w, id, c.(rotate := ReadCache)).(locks := w.locks + {c.prior})
    case ReadCache =>
      if o == Fine && c.prior in w.cache then Goto(w, id, c.(rotate := Preflight(w.cache[c.prior])))
      else Goto(w, id, c.(rotate := ReadDb))
    case ReadDb =>
      if o != Fine then Goto(w, id, c.(rotate := Unlock(Failed)))
      else if c.prior in w.rows then Goto(w, id, c.(rotate := Preflight(w.rows[c.prior])))
      else Goto(w, id, c.(rotate := Unlock(Replay({}))))
    case Preflight(rec) =>
      if rec.revoked || rec.expiresAt <= w.now then Goto(w, id, c.(rotate := Unlock(Replay({}))))
      else Goto(w, id, c.(rotate := Gate(rec)))
    case Gate(rec) =>
      if o != Fine then Goto(w, id, c.(rotate := Unlock(Failed)))
      else if Locked(w, id, c.prior) then w
      else if GateOpen(w.rows, c.prior, w.now) then
        Goto(w, id, c.(rotate := Insert(rec, map[c.prior := Spent(w.rows[c.prior], c.succ)])))
      else Goto(w, id, c.(rotate := Cascade(rec.user)))
    case Insert(rec, staged) =>
      if o != Fine then Goto(w, id, c.(rotate := Unlock(Failed)))
      else if Locked(w, id, c.succ) then w
      else
        var staged' := if c.succ in w.rows || c.succ in staged then staged
                       else staged[c.succ := Fresh(rec.user, rec.device, c.expiresAt)];
        Goto(w, id, c.(rotate := Commit(rec, staged')))
    case Commit(rec, staged) =>
      if o == Fails then Goto(w, id, c.(rotate := Unlock(Failed)))
      else if o == FailsLate then Goto(w, id, c.(rotate := Unlock(Failed))).(rows := w.rows + staged)
      else Goto(w, id, c.(rotate := MarkOld(rec))).(rows := w.rows + staged)
    case MarkOld(rec) =>
      var w' := Goto(w, id, c.(rotate := CacheNew(rec)));
      if o == Fails then w' else w'.(cache := w.cache[c.prior := Spent(rec, c.succ)])
    case CacheNew(rec) =>
      var w' := Goto(w, id, c.(rotate := Unlock(Rotated)));
      if o == Fails then w' else w'.(cache := w.cache[c.succ := Fresh(rec.user, rec.device, c.expiresAt)])
    case Cascade(user) =>
      if o != Fine || user == NO_NAME then Goto(w, id, c.(rotate := Unlock(Replay({}))))
      else
        var seen := set h | h in w.rows && w.rows[h].user == user;
        var todo := set h | h in seen && !w.rows[h].revoked;
        Goto(w, id, c.(rotate := Sweep(seen, todo, map[])))
    case Sweep(seen, todo, staged) =>
      if o == Fails then Goto(w, id, c.(rotate := Unlock(Replay({}))))
      else if todo == {} then
        Goto(w, id, c.(rotate := Unlock(Replay(if o == Fine then seen else {})))).(rows := w.rows + staged)
      else if o != Fine || pick !in todo || Locked(w, id, pick) then w
      else
        var staged' := if pick !in w.rows || w.rows[pick].revoked then staged
                       else staged[pick := w.rows[pick].(revoked := true)];
        Goto(w, id, c.(rotate := Sweep(seen, todo - {pick}, staged')))
    case Unlock(res) =>
      var w' := Goto(w, id, c.(rotate := Returned(res)));
      if o == Fails then w' else w'.(locks := w.locks - {c.prior})
    case Returned(_) => w
  }

  // ---- one step of the other calls ---------------------------------------

  function StepIssue(w: World, id: nat, c: Call, o: Outcome): World
    requires c.IssueCall?
  {
    var t := Fresh(c.user, c.device, c.expiresAt);
    match c.issue
    case DbInsert =>
      if o == Fails then Goto(w, id, c.(issue := Issued))
      else if Locked(w, id, c.h) then w
      else Goto(w, id, c.(issue := if o == Fine then CacheWrite else Issued)).(rows := Inserted(w.rows, c.h, t))
    case CacheWrite =>
      var w' := Goto(w, id, c.(issue := Issued));
      if o == Fails then w' else w'.(cache := w.cache[c.h := t])
    case Issued => w
  }

  function StepRevoke(w: World, id: nat, c: Call, o: Outcome): World
    requires c.RevokeCall?
  {
    match c.revoke
    case DbRevoke =>
      if o == Fails then Goto(w, id, c.(revoke := RevokeDone))
      else if Locked(w, id, c.h) then w
      else Goto(w, id, c.(revoke := if o == Fine then CacheRead else RevokeDone)).(rows := Revoked(w.rows, c.h))
    case CacheRead =>
      if o == Fine && c.h in w.cache then Goto(w, id, c.(revoke := CacheMark(w.cache[c.h])))
      else Goto(w, id, c.(revoke := RevokeDone))
    case CacheMark(rec) =>
      var w' := Goto(w, id, c.(revoke := RevokeDone));
      if o == Fails then w' else w'.(cache := w.cache[c.h := rec.(revoked := true)])
    case RevokeDone => w
  }

  predicate Usable(t: Token, now: nat) {
    !t.revoked && t.expiresAt > now
  }

  function StepValidate(w: World, id: nat, c: Call, o: Outcome): World
    requires c.ValidateCall?
  {
    match c.validate
    case CacheGet =>
      if o == Fine && c.h in w.cache then
        var rec := w.cache[c.h];
        Goto(w, id, c.(validate := Validated(if Usable(rec, w.now) then Some(rec) else None)))
      else Goto(w, id, c.(validate := DbGet))
    case DbGet =>
      if o != Fine || c.h !in w.rows || !Usable(w.rows[c.h], w.now) then Goto(w, id, c.(validate := Validated(None)))
      else Goto(w, id, c.(validate := Rehydrate(w.rows[c.h])))
    case Rehydrate(rec) =>
      var w' := Goto(w, id, c.(validate := Validated(Some(rec))));
      if o == Fails || rec.expiresAt <= w.now then w' else w'.(cache := w.cache[c.h := rec])
    case Validated(_) => w
  }

  // ---- the whole system --------------------------------------------------

  /** A token id given to `issue` is new, or repeats an earlier `issue` for the same user and device. */
  predicate MayIssue(w: World, h: Hash, user: Name, device: Name) {
    h !in w.used || (h in w.owners && w.owners[h] == (user, device))
  }

  /** An action that is not enabled changes nothing. */
  function Step(w: World, a: Action): World {
    match a
    case Tick => w.(now := w.now + 1)
    case EvictCache(h) => w.(cache := w.cache - {h})
    case ExpireLock(h) => w.(locks := w.locks - {h})
    case BeginRotate(id, prior, succ, exp) =>
      if id in w.calls || exp <= w.now || succ in w.used || succ == prior then w
      else Goto(w, id, RotateCall(TakeLock, prior, succ, exp)).(used := w.used + {succ})
    case BeginIssue(id, h, user, device, exp) =>
      if id in w.calls || exp <= w.now || user == NO_NAME || device == NO_NAME || !MayIssue(w, h, user, device) then w
      else Goto(w, id, IssueCall(DbInsert, h, user, device, exp))
           .(used := w.used + {h}, owners := w.owners[h := (user, device)])
    case BeginRevoke(id, h) =>
      if id in w.calls then w else Goto(w, id, RevokeCall(DbRevoke, h))
    case BeginValidate(id, h) =>
      if id in w.calls then w else Goto(w, id, ValidateCall(CacheGet, h))
    case Crash(id) => w.(calls := w.calls - {id})
    case Advance(id, o, pick) =>
      if id !in w.calls then w
      else
        var c := w.calls[id];
        match c
        case RotateCall(_, _, _, _) => StepRotate(w, id, c, o, pick)
        case IssueCall(_, _, _, _, _) => StepIssue(w, id, c, o)
        case RevokeCall(_, _) => StepRevoke(w, id, c, o)
        case ValidateCall(_, _) => StepValidate(w, id, c, o)
  }

  function Run(w: World, acts: seq<Action>): World
    decreases |acts|
  {
    if acts == [] then w else Run(Step(w, acts[0]), acts[1..])
  }

  // ---- invariant ---------------------------------------------------------

  predicate Faithful(rows: Rows, h: Hash, rec: Token) {
    h in rows && SameOwner(rec, rows[h])
  }

  predicate AllRevoked(rows: Rows, seen: set<Hash>) {
    forall h | h in seen :: h in rows && rows[h].revoked
  }

  /** The call has passed its COMMIT, or reported that it did. */
  predicate Committed(c: Call) {
    c.RotateCall? && (c.rotate.MarkOld? || c.rotate.CacheNew?
      || c.rotate == Unlock(Rotated) || c.rotate == Returned(Rotated))
  }

  /** The call may have left its successor in the table. */
  predicate MaybeCommitted(c: Call) {
    c.RotateCall? && (Committed(c) || c.rotate == Unlock(Failed) || c.rotate == Returned(Failed))
  }

  predicate SuccessorSet(rows: Rows, prior: Hash, succ: Hash) {
    prior in rows && succ in rows && rows[prior].revoked && rows[prior].rotatedTo == Some(succ)
  }

  predicate RotateOk(rows: Rows, c: Call)
    requires c.RotateCall?
  {
    && (!MaybeCommitted(c) ==> c.succ !in rows)
    && (Committed(c) ==> SuccessorSet(rows, c.prior, c.succ))
    && match c.rotate
       case Preflight(rec) => Faithful(rows, c.prior, rec)
       case Gate(rec) => Faithful(rows, c.prior, rec)
       case Insert(rec, staged) =>
         && Faithful(rows, c.prior, rec) && !rows[c.prior].revoked
         && staged == map[c.prior := Spent(rows[c.prior], c.succ)]
       case Commit(rec, staged) =>
         && Faithful(rows, c.prior, rec) && !rows[c.prior].revoked
         && staged == map[c.prior := Spent(rows[c.prior], c.succ), c.succ := Fresh(rec.user, rec.device, c.expiresAt)]
       case MarkOld(rec) => Faithful(rows, c.prior, rec) && Faithful(rows, c.succ, rec)
       case CacheNew(rec) => Faithful(rows, c.succ, rec)
       case Sweep(seen, todo, staged) =>
         && (forall h | h in seen :: h in rows && (h in todo || h in staged || rows[h].revoked))
         && todo <= seen
         && (forall h | h in staged :: h in seen && h in rows && !rows[h].revoked && staged[h] == rows[h].(revoked := true))
       case Unlock(Replay(seen)) => AllRevoked(rows, seen)
       case Returned(Replay(seen)) => AllRevoked(rows, seen)
       case _ => true
  }

  predicate CallOk(rows: Rows, used: set<Hash>, owners: map<Hash, (Name, Name)>, c: Call) {
    match c
    case RotateCall(_, _, succ, _) => succ in used && succ !in owners && succ != c.prior && RotateOk(rows, c)
    case IssueCall(pc, h, user, device, _) =>
      h in owners && owners[h] == (user, device) && (pc.CacheWrite? ==> h in rows)
    case RevokeCall(pc, h) => pc.CacheMark? ==> Faithful(rows, h, pc.rec)
    case ValidateCall(pc, h) =>
      && (pc.Rehydrate? ==> Faithful(rows, h, pc.rec))
      && (pc.Validated? && pc.answer.Some? ==> Faithful(rows, h, pc.answer.value))
  }

  predicate OwnersOk(rows: Rows, used: set<Hash>, owners: map<Hash, (Name, Name)>) {
    && rows.Keys <= used && owners.Keys <= used
    && forall h | h in owners && h in rows :: (rows[h].user, rows[h].device) == owners[h]
  }

  predicate CacheOk(rows: Rows, cache: Rows) {
    forall h | h in cache :: Faithful(rows, h, cache[h])
  }

  /** Open transactions write disjoint keys, and no two rotations share a successor. */
  predicate Apart(c: Call, d: Call) {
    && Staged(c).Keys !! Staged(d).Keys
    && (c.RotateCall? && d.RotateCall? ==> c.succ != d.succ)
  }

  predicate CallsApart(calls: map<nat, Call>) {
    forall i, j | i in calls && j in calls && i != j :: Apart(calls[i], calls[j])
  }

  ghost predicate Inv(w: World) {
    && Linked(w.rows)
    && OwnersOk(w.rows, w.used, w.owners)
    && CacheOk(w.rows, w.cache)
    && CallsApart(w.calls)
    && forall id | id in w.calls :: CallOk(w.rows, w.used, w.owners, w.calls[id])
  }

  // ---- every step keeps the invariant ------------------------------------

  predicate OwnersGrow(o: map<Hash, (Name, Name)>, o': map<Hash, (Name, Name)>) {
    forall h | h in o :: h in o' && o'[h] == o[h]
  }

  lemma CallOkFrame(w: World, w': World, c: Call)
    requires CallOk(w.rows, w.used, w.owners, c)
    requires Evolves(w.rows, w'.rows) && w.used <= w'.used && OwnersGrow(w.owners, w'.owners)
    requires c.RotateCall? ==> c.succ !in w'.owners && (!MaybeCommitted(c) ==> c.succ !in w'.rows)
    requires forall h | h in Staged(c) && h in w.rows :: w'.rows[h] == w.rows[h]
    ensures CallOk(w'.rows, w'.used, w'.owners, c)
  {
  }

  /** What a call knows about the stores. */
  predicate LocalOk(w: World, c: Call) {
    OwnersOk(w.rows, w.used, w.owners) && CacheOk(w.rows, w.cache) && CallOk(w.rows, w.used, w.owners, c)
  }

  /** No other open transaction has staged a row that this call has staged. */
  predicate OwnsStaged(w: World, id: nat, c: Call) {
    forall h | h in Staged(c) :: !Locked(w, id, h)
  }

  /** The shape shared by all steps of a call: it becomes `c'`, and changes only
  rows that no other transaction has staged and no other rotation will insert. */
  ghost predicate LocalStep(w: World, w': World, id: nat, c: Call, c': Call) {
    && w' == w.(rows := w'.rows, cache := w'.cache, locks := w'.locks, calls := w.calls[id := c'])
    && Evolves(w.rows, w'.rows)
    && LocalOk(w', c')
    && (c'.RotateCall? <==> c.RotateCall?)
    && (c'.RotateCall? ==> c'.succ == c.succ)
    && OwnsStaged(w, id, c')
    && (forall h | h in w.rows && w'.rows[h] != w.rows[h] :: !Locked(w, id, h))
    && (forall h | h in w'.rows && h !in w.rows :: h in w.owners || (c'.RotateCall? && h == c'.succ))
  }

  lemma LocalStepKeepsInv(w: World, w': World, id: nat, c: Call, c': Call)
    requires Inv(w) && id in w.calls && w.calls[id] == c
    requires LocalStep(w, w', id, c, c') && Linked(w'.rows)
    ensures Inv(w')
  {
    forall j | j in w'.calls
      ensures CallOk(w'.rows, w'.used, w'.owners, w'.calls[j])
      ensures j != id ==> Apart(w'.calls[j], c') && Apart(c', w'.calls[j])
    {
      if j != id {
        var d := w.calls[j];
        assert CallOk(w.rows, w.used, w.owners, d);
        assert Apart(c, d) && Apart(d, c);
        forall h | h in Staged(d) && h in w.rows
          ensures w'.rows[h] == w.rows[h]
        {
          assert Locked(w, id, h);
        }
        CallOkFrame(w, w', d);
        forall h | h in Staged(d)
          ensures h !in Staged(c')
        {
          assert Locked(w, id, h);
        }
      }
    }
  }

  lemma InvGivesLocal(w: World, id: nat)
    requires Inv(w) && id in w.calls
    ensures LocalOk(w, w.calls[id]) && OwnsStaged(w, id, w.calls[id])
  {
    var c := w.calls[id];
    forall h | h in Staged(c)
      ensures !Locked(w, id, h)
    {
      forall j | j in w.calls && j != id
        ensures h !in Staged(w.calls[j])
      {
        assert Apart(w.calls[j], c);
      }
    }
  }

  /** The steps of a rotation that leave the committed rows alone. */
  predicate Quiet(c: Call, o: Outcome)
    requires c.RotateCall?
  {
    o == Fails || (!c.rotate.Commit? && !(c.rotate.Sweep? && c.rotate.todo == {}))
  }

  lemma QuietStep(w: World, w': World, id: nat, c: Call, c': Call)
    requires LocalOk(w, c)
    requires w' == w.(cache := w'.cache, locks := w'.locks, calls := w.calls[id := c'])
    requires CacheOk(w.rows, w'.cache) && CallOk(w.rows, w.used, w.owners, c') && OwnsStaged(w, id, c')
    requires (c'.RotateCall? <==> c.RotateCall?) && (c'.RotateCall? ==> c'.succ == c.succ)
    ensures LocalStep(w, w', id, c, c')
  {
  }

  lemma LockStep(w: World, id: nat, c: Call, o: Outcome, pick: Hash)
    requires LocalOk(w, c) && c.RotateCall? && (c.rotate.TakeLock? || c.rotate.Unlock? || c.rotate.Returned?)
    ensures var w' := StepRotate(w, id, c, o, pick);
      w' == w || (id in w'.calls && LocalStep(w, w', id, c, w'.calls[id]) && w'.rows == w.rows)
  {
    var w' := StepRotate(w, id, c, o, pick);
    if w' != w {
      QuietStep(w, w', id, c, w'.calls[id]);
    }
  }

  lemma CascadeStep(w: World, id: nat, c: Call, o: Outcome, pick: Hash)
    requires LocalOk(w, c) && c.RotateCall? && c.rotate.Cascade?
    ensures var w' := StepRotate(w, id, c, o, pick);
      id in w'.calls && LocalStep(w, w', id, c, w'.calls[id]) && w'.rows == w.rows
  {
    var w' := StepRotate(w, id, c, o, pick);
    QuietStep(w, w', id, c, w'.calls[id]);
  }

  lemma CacheReadingStep(w: World, w': World, id: nat, c: Call, o: Outcome, pick: Hash)
    requires LocalOk(w, c) && c.RotateCall? && c.rotate.ReadCache? && w' == StepRotate(w, id, c, o, pick)
    ensures id in w'.calls && LocalStep(w, w', id, c, w'.calls[id]) && w'.rows == w.rows
  {
    QuietStep(w, w', id, c, w'.calls[id]);
  }

  lemma RowReadingStep(w: World, w': World, id: nat, c: Call, o: Outcome, pick: Hash)
    requires LocalOk(w, c) && c.RotateCall? && c.rotate.ReadDb? && w' == StepRotate(w, id, c, o, pick)
    ensures id in w'.calls && LocalStep(w, w', id, c, w'.calls[id]) && w'.rows == w.rows
  {
    QuietStep(w, w', id, c, w'.calls[id]);
  }

  lemma PreflightStep(w: World, w': World, id: nat, c: Call, o: Outcome, pick: Hash)
    requires LocalOk(w, c) && c.RotateCall? && c.rotate.Preflight? && w' == StepRotate(w, id, c, o, pick)
    ensures id in w'.calls && LocalStep(w, w', id, c, w'.calls[id]) && w'.rows == w.rows
  {
    QuietStep(w, w', id, c, w'.calls[id]);
  }

  lemma GateStep(w: World, w': World, id: nat, c: Call, o: Outcome, pick: Hash)
    requires LocalOk(w, c) && OwnsStaged(w, id, c) && c.RotateCall? && c.rotate.Gate?
    requires w' == StepRotate(w, id, c, o, pick) && w' != w
    ensures id in w'.calls && LocalStep(w, w', id, c, w'.calls[id]) && w'.rows == w.rows
  {
    var c' := w'.calls[id];
    assert CallOk(w.rows, w.used, w.owners, c') && OwnsStaged(w, id, c');
    QuietStep(w, w', id, c, c');
  }

  lemma InsertStep(w: World, w': World, id: nat, c: Call, o: Outcome, pick: Hash)
    requires LocalOk(w, c) && OwnsStaged(w, id, c) && c.RotateCall? && c.rotate.Insert?
    requires w' == StepRotate(w, id, c, o, pick) && w' != w
    ensures id in w'.calls && LocalStep(w, w', id, c, w'.calls[id]) && w'.rows == w.rows
  {
    var c' := w'.calls[id];
    assert CallOk(w.rows, w.used, w.owners, c') && OwnsStaged(w, id, c');
    QuietStep(w, w', id, c, c');
  }

  lemma StagingStep(w: World, id: nat, c: Call, o: Outcome, pick: Hash)
    requires LocalOk(w, c) && OwnsStaged(w, id, c) && c.RotateCall? && (c.rotate.Gate? || c.rotate.Insert?)
    ensures var w' := StepRotate(w, id, c, o, pick);
      w' == w || (id in w'.calls && LocalStep(w, w', id, c, w'.calls[id]) && w'.rows == w.rows)
  {
    var w' := StepRotate(w, id, c, o, pick);
    if w' != w {
      if c.rotate.Gate? {
        GateStep(w, w', id, c, o, pick);
      } else {
        InsertStep(w, w', id, c, o, pick);
      }
    }
  }

  lemma CachingStep(w: World, id: nat, c: Call, o: Outcome, pick: Hash)
    requires LocalOk(w, c) && c.RotateCall?
    requires c.rotate.MarkOld? || c.rotate.CacheNew? || (c.rotate.Commit? && o == Fails)
    ensures var w' := StepRotate(w, id, c, o, pick);
      id in w'.calls && LocalStep(w, w', id, c, w'.calls[id]) && w'.rows == w.rows
  {
    var w' := StepRotate(w, id, c, o, pick);
    QuietStep(w, w', id, c, w'.calls[id]);
  }

  lemma SweepingStep(w: World, id: nat, c: Call, o: Outcome, pick: Hash)
    requires LocalOk(w, c) && OwnsStaged(w, id, c) && c.RotateCall? && c.rotate.Sweep?
    requires o == Fails || c.rotate.todo != {}
    ensures var w' := StepRotate(w, id, c, o, pick);
      w' == w || (id in w'.calls && LocalStep(w, w', id, c, w'.calls[id]) && w'.rows == w.rows)
  {
    var w' := StepRotate(w, id, c, o, pick);
    if w' != w {
      QuietStep(w, w', id, c, w'.calls[id]);
    }
  }

  lemma QuietIsLocal(w: World, id: nat, c: Call, o: Outcome, pick: Hash)
    requires LocalOk(w, c) && OwnsStaged(w, id, c) && c.RotateCall? && Quiet(c, o)
    ensures var w' := StepRotate(w, id, c, o, pick);
      w' == w || (id in w'.calls && LocalStep(w, w', id, c, w'.calls[id]) && w'.rows == w.rows)
  {
    if c.rotate.Gate? || c.rotate.Insert? {
      StagingStep(w, id, c, o, pick);
    } else if c.rotate.MarkOld? || c.rotate.CacheNew? || c.rotate.Commit? {
      CachingStep(w, id, c, o, pick);
    } else if c.rotate.Sweep? {
      SweepingStep(w, id, c, o, pick);
    } else if c.rotate.Cascade? {
      CascadeStep(w, id, c, o, pick);
    } else if c.rotate.TakeLock? || c.rotate.Unlock? || c.rotate.Returned? {
      LockStep(w, id, c, o, pick);
    } else if c.rotate.ReadCache? {
      CacheReadingStep(w, StepRotate(w, id, c, o, pick), id, c, o, pick);
    } else if c.rotate.ReadDb? {
      RowReadingStep(w, StepRotate(w, id, c, o, pick), id, c, o, pick);
    } else {
      PreflightStep(w, StepRotate(w, id, c, o, pick), id, c, o, pick);
    }
  }

  lemma CommitRows(w: World, c: Call)
    requires LocalOk(w, c) && Linked(w.rows) && c.RotateCall? && c.rotate.Commit?
    ensures var rows' := w.rows + c.rotate.staged;
      && Linked(rows') && Evolves(w.rows, rows') && OwnersOk(rows', w.used, w.owners)
      && SuccessorSet(rows', c.prior, c.succ)
      && Faithful(rows', c.prior, c.rotate.rec) && Faithful(rows', c.succ, c.rotate.rec)
  {
    var t := Fresh(c.rotate.rec.user, c.rotate.rec.device, c.expiresAt);
    assert w.rows + c.rotate.staged == w.rows[c.prior := Spent(w.rows[c.prior], c.succ)][c.succ := t];
    RotateKeepsLinked(w.rows, c.prior, c.succ, t);
  }

  lemma SweepRows(w: World, c: Call)
    requires LocalOk(w, c) && Linked(w.rows) && c.RotateCall? && c.rotate.Sweep?
    ensures var rows' := w.rows + c.rotate.staged;
      && Linked(rows') && Evolves(w.rows, rows') && OwnersOk(rows', w.used, w.owners) && rows'.Keys == w.rows.Keys
      && (c.rotate.todo == {} ==> AllRevoked(rows', c.rotate.seen))
  {
    var rows' := w.rows + c.rotate.staged;
    assert forall h | h in c.rotate.staged :: h in w.rows;
    assert rows'.Keys == w.rows.Keys;
    RevokeKeepsLinked(w.rows, rows');
  }

  lemma RevokedRows(w: World, h: Hash)
    requires Linked(w.rows) && OwnersOk(w.rows, w.used, w.owners)
    ensures var rows' := Revoked(w.rows, h);
      Linked(rows') && Evolves(w.rows, rows') && OwnersOk(rows', w.used, w.owners) && rows'.Keys == w.rows.Keys
  {
    RevokeKeepsLinked(w.rows, Revoked(w.rows, h));
  }

  lemma CacheEvolves(rows: Rows, rows': Rows, cache: Rows)
    requires CacheOk(rows, cache) && Evolves(rows, rows')
    ensures CacheOk(rows', cache)
  {
  }

  /** A step that publishes rows. */
  lemma PublishStep(w: World, w': World, id: nat, c: Call, c': Call)
    requires LocalOk(w, c)
    requires w' == w.(rows := w'.rows, calls := w.calls[id := c'])
    requires Evolves(w.rows, w'.rows) && OwnersOk(w'.rows, w.used, w.owners)
    requires CallOk(w'.rows, w.used, w.owners, c') && Staged(c') == map[]
    requires (c'.RotateCall? <==> c.RotateCall?) && (c'.RotateCall? ==> c'.succ == c.succ)
    requires forall h | h in w.rows && w'.rows[h] != w.rows[h] :: !Locked(w, id, h)
    requires forall h | h in w'.rows && h !in w.rows :: h in w.owners || (c'.RotateCall? && h == c'.succ)
    ensures LocalStep(w, w', id, c, c')
  {
    CacheEvolves(w.rows, w'.rows, w.cache);
  }

  lemma CommittedCall(w: World, w': World, id: nat, c: Call, o: Outcome, pick: Hash)
    requires LocalOk(w, c) && c.RotateCall? && c.rotate.Commit? && o != Fails && w' == StepRotate(w, id, c, o, pick)
    ensures id in w'.calls && w' == w.(rows := w.rows + c.rotate.staged, calls := w.calls[id := w'.calls[id]])
    ensures w'.calls[id] == c.(rotate := if o == Fine then MarkOld(c.rotate.rec) else Unlock(Failed))
  {
    if o == Fine {
      return;
    }
  }

  lemma CommitIsLocal(w: World, id: nat, c: Call, o: Outcome, pick: Hash)
    requires LocalOk(w, c) && OwnsStaged(w, id, c) && c.RotateCall? && c.rotate.Commit? && o != Fails
    requires Linked(w.rows)
    ensures var w' := StepRotate(w, id, c, o, pick);
      id in w'.calls && LocalStep(w, w', id, c, w'.calls[id]) && Linked(w'.rows)
  {
    var w' := StepRotate(w, id, c, o, pick);
    CommittedCall(w, w', id, c, o, pick);
    CommitRows(w, c);
    assert c.prior in Staged(c);
    PublishStep(w, w', id, c, w'.calls[id]);
  }

  lemma SweepCommitIsLocal(w: World, id: nat, c: Call, o: Outcome, pick: Hash)
    requires LocalOk(w, c) && OwnsStaged(w, id, c) && c.RotateCall? && c.rotate.Sweep? && c.rotate.todo == {} && o != Fails
    requires Linked(w.rows)
    ensures var w' := StepRotate(w, id, c, o, pick);
      id in w'.calls && LocalStep(w, w', id, c, w'.calls[id]) && Linked(w'.rows)
  {
    var w' := StepRotate(w, id, c, o, pick);
    SweepRows(w, c);
    PublishStep(w, w', id, c, w'.calls[id]);
  }

  lemma RotateKeepsInv(w: World, id: nat, c: Call, o: Outcome, pick: Hash)
    requires Inv(w) && id in w.calls && w.calls[id] == c && c.RotateCall?
    ensures Inv(StepRotate(w, id, c, o, pick)) && Evolves(w.rows, StepRotate(w, id, c, o, pick).rows)
  {
    var w' := StepRotate(w, id, c, o, pick);
    InvGivesLocal(w, id);
    if Quiet(c, o) {
      QuietIsLocal(w, id, c, o, pick);
    } else if c.rotate.Commit? {
      CommitIsLocal(w, id, c, o, pick);
    } else {
      SweepCommitIsLocal(w, id, c, o, pick);
    }
    if w' != w {
      LocalStepKeepsInv(w, w', id, c, w'.calls[id]);
    }
  }

  lemma IssueIsLocal(w: World, id: nat, c: Call, o: Outcome)
    requires LocalOk(w, c) && Linked(w.rows) && c.IssueCall?
    ensures var w' := StepIssue(w, id, c, o);
      w' == w || (id in w'.calls && LocalStep(w, w', id, c, w'.calls[id]) && Linked(w'.rows))
  {
    var w' := StepIssue(w, id, c, o);
    InsertKeepsLinked(w.rows, c.h, Fresh(c.user, c.device, c.expiresAt));
    if c.issue.DbInsert? && w' != w {
      PublishStep(w, w', id, c, w'.calls[id]);
    } else if w' != w {
      QuietStep(w, w', id, c, w'.calls[id]);
    }
  }

  lemma RowRevokeIsLocal(w: World, w': World, id: nat, c: Call, o: Outcome)
    requires LocalOk(w, c) && Linked(w.rows) && c.RevokeCall? && c.revoke.DbRevoke? && w' == StepRevoke(w, id, c, o) && w' != w
    ensures id in w'.calls && LocalStep(w, w', id, c, w'.calls[id]) && Linked(w'.rows)
  {
    if o == Fails {
      QuietStep(w, w', id, c, w'.calls[id]);
      return;
    }
    RevokedRows(w, c.h);
    PublishStep(w, w', id, c, w'.calls[id]);
  }

  lemma CacheRevokeIsLocal(w: World, w': World, id: nat, c: Call, o: Outcome)
    requires LocalOk(w, c) && c.RevokeCall? && !c.revoke.DbRevoke? && w' == StepRevoke(w, id, c, o) && w' != w
    ensures id in w'.calls && LocalStep(w, w', id, c, w'.calls[id]) && w'.rows == w.rows
  {
    QuietStep(w, w', id, c, w'.calls[id]);
  }

  lemma RevokeIsLocal(w: World, id: nat, c: Call, o: Outcome)
    requires LocalOk(w, c) && Linked(w.rows) && c.RevokeCall?
    ensures var w' := StepRevoke(w, id, c, o);
      w' == w || (id in w'.calls && LocalStep(w, w', id, c, w'.calls[id]) && Linked(w'.rows))
  {
    var w' := StepRevoke(w, id, c, o);
    if w' != w {
      if c.revoke.DbRevoke? {
        RowRevokeIsLocal(w, w', id, c, o);
      } else {
        CacheRevokeIsLocal(w, w', id, c, o);
      }
    }
  }

  lemma ValidateIsLocal(w: World, id: nat, c: Call, o: Outcome)
    requires LocalOk(w, c) && c.ValidateCall?
    ensures var w' := StepValidate(w, id, c, o);
      w' == w || (id in w'.calls && LocalStep(w, w', id, c, w'.calls[id]) && w'.rows == w.rows)
  {
    var w' := StepValidate(w, id, c, o);
    if w' != w {
      QuietStep(w, w', id, c, w'.calls[id]);
    }
  }

  lemma AdvanceKeepsInv(w: World, id: nat, o: Outcome, pick: Hash)
    requires Inv(w) && id in w.calls
    ensures var w' := Step(w, Advance(id, o, pick)); Inv(w') && Evolves(w.rows, w'.rows)
  {
    var c, w' := w.calls[id], Step(w, Advance(id, o, pick));
    InvGivesLocal(w, id);
    match c
    case RotateCall(_, _, _, _) => RotateKeepsInv(w, id, c, o, pick);
    case IssueCall(_, _, _, _, _) =>
      IssueIsLocal(w, id, c, o);
      if w' != w { LocalStepKeepsInv(w, w', id, c, w'.calls[id]); }
    case RevokeCall(_, _) =>
      RevokeIsLocal(w, id, c, o);
      if w' != w { LocalStepKeepsInv(w, w', id, c, w'.calls[id]); }
    case ValidateCall(_, _) =>
      ValidateIsLocal(w, id, c, o);
      if w' != w { LocalStepKeepsInv(w, w', id, c, w'.calls[id]); }
  }

  lemma EnvironmentKeepsInv(w: World, a: Action)
    requires Inv(w) && (a.Tick? || a.EvictCache? || a.ExpireLock? || a.Crash?)
    ensures Inv(Step(w, a)) && Evolves(w.rows, Step(w, a).rows)
  {
    var w' := Step(w, a);
    assert w'.rows == w.rows && w'.used == w.used && w'.owners == w.owners;
    assert forall j | j in w'.calls :: j in w.calls && w'.calls[j] == w.calls[j];
  }

  lemma BeginKeepsInv(w: World, w': World, id: nat, c: Call)
    requires Inv(w) && id !in w.calls
    requires w' == w.(calls := w.calls[id := c], used := w'.used, owners := w'.owners)
    requires w.used <= w'.used && OwnersGrow(w.owners, w'.owners) && OwnersOk(w.rows, w'.used, w'.owners)
    requires forall h | h in w'.owners && h !in w.owners :: h !in w.used
    requires CallOk(w.rows, w'.used, w'.owners, c) && Staged(c) == map[]
    requires c.RotateCall? ==> c.succ !in w.used
    ensures Inv(w')
  {
    forall j | j in w.calls
      ensures CallOk(w'.rows, w'.used, w'.owners, w.calls[j]) && Apart(c, w.calls[j]) && Apart(w.calls[j], c)
    {
      assert CallOk(w.rows, w.used, w.owners, w.calls[j]);
      CallOkFrame(w, w', w.calls[j]);
    }
  }

  lemma AnyBeginKeepsInv(w: World, w': World, a: Action)
    requires Inv(w) && (a.BeginRotate? || a.BeginIssue? || a.BeginRevoke? || a.BeginValidate?) && w' == Step(w, a)
    ensures Inv(w') && Evolves(w.rows, w'.rows)
  {
    if w' == w {
      return;
    }
    if a.BeginRotate? {
      BeginKeepsInv(w, w', a.id, w'.calls[a.id]);
      return;
    }
    if a.BeginIssue? {
      BeginKeepsInv(w, w', a.id, w'.calls[a.id]);
      return;
    }
    BeginKeepsInv(w, w', a.id, w'.calls[a.id]);
  }

  lemma StepKeepsInv(w: World, a: Action)
    requires Inv(w)
    ensures Inv(Step(w, a)) && Evolves(w.rows, Step(w, a).rows)
  {
    match a
    case Advance(id, o, pick) => if id in w.calls { AdvanceKeepsInv(w, id, o, pick); }
    case BeginRotate(_, _, _, _) => AnyBeginKeepsInv(w, Step(w, a), a);
    case BeginIssue(_, _, _, _, _) => AnyBeginKeepsInv(w, Step(w, a), a);
    case BeginRevoke(_, _) => AnyBeginKeepsInv(w, Step(w, a), a);
    case BeginValidate(_, _) => AnyBeginKeepsInv(w, Step(w, a), a);
    case _ => EnvironmentKeepsInv(w, a);
  }

  lemma {:induction false} RunKeepsInv(w: World, acts: seq<Action>)
    requires Inv(w)
    ensures Inv(Run(w, acts)) && Evolves(w.rows, Run(w, acts).rows)
    decreases |acts|
  {
    if acts != [] {
      StepKeepsInv(w, acts[0]);
      RunKeepsInv(Step(w, acts[0]), acts[1..]);
      EvolvesTransitive(w.rows, Step(w, acts[0]).rows, Run(w, acts).rows);
    }
  }
}
