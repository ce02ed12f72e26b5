/** Refresh-token rotation without a database: the record lives in Redis alone, and the
expiring lock is the only thing between two rotations of one token.

Issue, rotate and revoke interleave at every Redis command; entries are evicted, locks
expire, commands fail and callers crash.
*/
module RefreshRedisOnly {
  import opened Wrappers
  import opened RefreshTable

  type Id = int

  datatype Result = Rotated | Replay | Error

  datatype Stage =
    | TakeLock | Read | MarkOld(rec: Token) | WriteNew(rec: Token) | Unlock(result: Result) | Returned(result: Result)
    | Crashed

  datatype Rotation = Rotation(prior: Hash, succ: Hash, expiresAt: nat, stage: Stage)

  /** `revoke` reads the record and writes it back revoked. */
  datatype Revocation = ReadRecord(h: Hash) | WriteBack(h: Hash, rec: Token) | Over

  /** `written` remembers every key that ever had a record, `fresh` ids are used once. */
  datatype World = World(
    now: nat, store: map<Hash, Token>, locks: set<Hash>, rotations: map<Id, Rotation>,
    revocations: map<Id, Revocation>, used: set<Hash>, written: set<Hash>)

  datatype Action =
    | Issue(h: Hash, user: Name, device: Name, expiresAt: nat)
    | Begin(id: Id, prior: Hash, succ: Hash, expiresAt: nat)
    | Advance(id: Id, o: Outcome)
    | Crash(id: Id)
    | BeginRevoke(id: Id, h: Hash)
    | AdvanceRevoke(id: Id, o: Outcome)
    | ExpireLock(h: Hash)
    | Evict(h: Hash)
    | Tick(secs: nat)

  const START := World(0, map[], {}, map[], map[], {}, {})

  function Goto(w: World, id: Id, stage: Stage): World
    requires id in w.rotations
  {
    w.(rotations := w.rotations[id := w.rotations[id].(stage := stage)])
  }

  function Stored(w: World, h: Hash, t: Token): World {
    w.(store := w.store[h := t], written := w.written + {h})
  }

  /** A command that reports failure ends the attempt, even when it took effect; the lock
  is released in any case, whoever holds it by then. */
  function AdvanceStep(w: World, id: Id, o: Outcome): World
    requires id in w.rotations
  {
    var c := w.rotations[id];
    match c.stage
    case TakeLock =>
      if o == Fails || c.prior in w.locks then Goto(w, id, Returned(Error))
      else Goto(w, id, if o == Fine then Read else Returned(Error)).(locks := w.locks + {c.prior})
    case Read =>
      if o != Fine then Goto(w, id, Unlock(Error))
      else if c.prior !in w.store || w.store[c.prior].revoked || w.store[c.prior].expiresAt <= w.now then Goto(w, id, Unlock(Replay))
      else Goto(w, id, MarkOld(w.store[c.prior]))
    case MarkOld(rec) =>
      var w1 := Goto(w, id, if o == Fine then WriteNew(rec) else Unlock(Error));
      if o == Fails then w1 else Stored(w1, c.prior, Spent(rec, c.succ))
    case WriteNew(rec) =>
      var w1 := Goto(w, id, Unlock(if o == Fine then Rotated else Error));
      if o == Fails then w1 else Stored(w1, c.succ, Fresh(rec.user, rec.device, c.expiresAt))
    case Unlock(result) =>
      var w1 := Goto(w, id, Returned(result));
      if o == Fails then w1 else w1.(locks := w.locks - {c.prior})
    case Returned(_) => w
    case Crashed => w
  }

  function RevokeStep(w: World, id: Id, o: Outcome): World
    requires id in w.revocations
  {
    match w.revocations[id]
    case ReadRecord(h) =>
      w.(revocations := w.revocations[id := if o == Fine && h in w.store then WriteBack(h, w.store[h].(revoked := true)) else Over])
    case WriteBack(h, rec) =>
      var w1 := w.(revocations := w.revocations[id := Over]);
      if o == Fails then w1 else Stored(w1, h, rec)
    case Over => w
  }

  function Step(w: World, a: Action): World {
    match a
    case Issue(h, user, device, expiresAt) =>
      if h in w.used then w else Stored(w.(used := w.used + {h}), h, Fresh(user, device, expiresAt))
    case Begin(id, prior, succ, expiresAt) =>
      if id in w.rotations || succ in w.used || succ == prior then w
      else w.(used := w.used + {succ}, rotations := w.rotations[id := Rotation(prior, succ, expiresAt, TakeLock)])
    case Advance(id, o) => if id in w.rotations then AdvanceStep(w, id, o) else w
    case Crash(id) => if id in w.rotations && !w.rotations[id].stage.Returned? then Goto(w, id, Crashed) else w
    case BeginRevoke(id, h) => if id in w.revocations then w else w.(revocations := w.revocations[id := ReadRecord(h)])
    case AdvanceRevoke(id, o) => if id in w.revocations then RevokeStep(w, id, o) else w
    case ExpireLock(h) => w.(locks := w.locks - {h})
    case Evict(h) => w.(store := w.store - {h})
    case Tick(secs) => w.(now := w.now + secs)
  }

  function Run(w: World, acts: seq<Action>): World
    decreases |acts|
  {
    if acts == [] then w else Run(Step(w, acts[0]), acts[1..])
  }

  // ---- what holds with or without the lock -------------------------------

  /** The old record has been written as spent, and the call goes on from there. */
  predicate Committed(c: Rotation) {
    c.stage.WriteNew? || c.stage == Unlock(Rotated) || c.stage == Returned(Rotated)
  }

  predicate SpentOrGone(w: World, h: Hash) {
    h in w.written && (h in w.store ==> w.store[h].revoked)
  }

  predicate RotationOk(w: World, c: Rotation) {
    && (Committed(c) ==> SpentOrGone(w, c.prior))
    && (c.stage.MarkOld? ==> c.prior in w.written)
    && c.succ in w.used && c.succ != c.prior
    && (c.stage.TakeLock? || c.stage.Read? || c.stage.MarkOld? || c.stage.WriteNew? ==> c.succ !in w.written)
  }

  predicate RevocationOk(w: World, r: Revocation) {
    r.WriteBack? ==> r.h in w.written && r.rec.revoked
  }

  predicate Base(w: World) {
    && w.store.Keys <= w.written <= w.used
    && (forall id | id in w.rotations :: RotationOk(w, w.rotations[id]))
    && (forall i, j | i in w.rotations && j in w.rotations && i != j :: w.rotations[i].succ != w.rotations[j].succ)
    && (forall id | id in w.revocations :: RevocationOk(w, w.revocations[id]))
  }

  /** How records may develop: a key once written is never unrevoked again. */
  predicate Grows(w: World, w': World) {
    && w.written <= w'.written && w.used <= w'.used
    && (forall g | g in w.written && g in w'.store :: (g in w.store && w'.store[g] == w.store[g]) || w'.store[g].revoked)
  }

  lemma OtherStays(w: World, w': World, c: Rotation)
    requires RotationOk(w, c) && Grows(w, w') && (c.succ in w'.written ==> c.succ in w.written)
    ensures RotationOk(w', c)
  {
  }

  lemma OwnAdvance(w: World, id: Id, o: Outcome)
    requires Base(w) && id in w.rotations
    ensures var w' := AdvanceStep(w, id, o); var c, c' := w.rotations[id], AdvanceStep(w, id, o).rotations[id];
      && w'.rotations == w.rotations[id := c'] && c'.prior == c.prior && c'.succ == c.succ
      && RotationOk(w', c') && Grows(w, w') && w'.revocations == w.revocations && w'.used == w.used
      && (forall g | g in w'.written :: g in w.written || g == c.succ) && w'.store.Keys <= w'.written
  {
    assert RotationOk(w, w.rotations[id]);
  }

  lemma AdvanceKeepsBase(w: World, id: Id, o: Outcome)
    requires Base(w) && id in w.rotations
    ensures Base(AdvanceStep(w, id, o)) && Grows(w, AdvanceStep(w, id, o))
  {
    var w' := AdvanceStep(w, id, o);
    OwnAdvance(w, id, o);
    forall j | j in w'.rotations && j != id ensures RotationOk(w', w'.rotations[j]) {
      OtherStays(w, w', w.rotations[j]);
    }
  }

  lemma StepKeepsBase(w: World, a: Action)
    requires Base(w)
    ensures Base(Step(w, a)) && Grows(w, Step(w, a))
  {
    if a.Advance? && a.id in w.rotations {
      AdvanceKeepsBase(w, a.id, a.o);
    }
  }

  lemma {:induction false} RunKeepsBase(w: World, acts: seq<Action>)
    requires Base(w)
    ensures Base(Run(w, acts))
    decreases |acts|
  {
    if acts != [] {
      StepKeepsBase(w, acts[0]);
      RunKeepsBase(Step(w, acts[0]), acts[1..]);
    }
  }

  /** A rotation of h that has not read the record, or was refused. */
  predicate Barred(w: World, id: Id, h: Hash) {
    id in w.rotations && w.rotations[id].prior == h ==> !Committed(w.rotations[id]) && !w.rotations[id].stage.MarkOld?
  }

  lemma StaysBarred(w: World, w': World, a: Action, id: Id, h: Hash)
    requires Base(w) && SpentOrGone(w, h) && Barred(w, id, h) && w' == Step(w, a)
    ensures Barred(w', id, h)
  {
    match a {
      case Advance(i, o) =>
        if i == id && i in w.rotations {
          return;
        }
        return;
      case _ => return;
    }
  }

  lemma {:induction false} BarredForGood(w: World, acts: seq<Action>, id: Id, h: Hash)
    requires Base(w) && SpentOrGone(w, h) && Barred(w, id, h)
    ensures Barred(Run(w, acts), id, h)
    decreases |acts|
  {
    if acts != [] {
      StepKeepsBase(w, acts[0]);
      StaysBarred(w, Step(w, acts[0]), acts[0], id, h);
      BarredForGood(Step(w, acts[0]), acts[1..], id, h);
    }
  }

  /** Once a record is spent or revoked, or lost after that, no rotation that had not read
  it before reports success, whatever becomes of the locks. */
  lemma SpentIsFinal(before: seq<Action>, after: seq<Action>, id: Id, h: Hash)
    requires var w := Run(START, before); SpentOrGone(w, h) && Barred(w, id, h)
    ensures var w' := Run(Run(START, before), after);
      id in w'.rotations && w'.rotations[id].prior == h ==> w'.rotations[id].stage != Returned(Rotated)
  {
    RunKeepsBase(START, before);
    BarredForGood(Run(START, before), after, id, h);
  }

  // ---- what the lock adds ------------------------------------------------

  /** Between taking the lock and releasing it. */
  predicate Inside(c: Rotation) {
    c.stage.Read? || c.stage.MarkOld? || c.stage.WriteNew? || c.stage.Unlock?
  }

  /** Locks expire only when nobody is inside: every holder is done within five seconds. */
  predicate LocksHold(w: World, acts: seq<Action>)
    decreases |acts|
  {
    acts == [] ||
    ((acts[0].ExpireLock? ==> forall id | id in w.rotations && w.rotations[id].prior == acts[0].h :: !Inside(w.rotations[id]))
      && LocksHold(Step(w, acts[0]), acts[1..]))
  }

  /** Two rotations of one token are not inside together, and not both past the mark; one
  about to mark excludes one that has. */
  predicate Exclusive(c: Rotation, d: Rotation) {
    c.prior == d.prior ==>
      && !(Inside(c) && Inside(d)) && !(Committed(c) && Committed(d))
      && !(c.stage.MarkOld? && Committed(d)) && !(Committed(c) && d.stage.MarkOld?)
  }

  predicate LockInv(w: World) {
    && (forall id | id in w.rotations && Inside(w.rotations[id]) :: w.rotations[id].prior in w.locks)
    && (forall i, j | i in w.rotations && j in w.rotations && i != j :: Exclusive(w.rotations[i], w.rotations[j]))
  }

  lemma StillExclusive(w: World, id: Id, o: Outcome, d: Rotation)
    requires id in w.rotations && (Inside(d) ==> d.prior in w.locks)
    requires Committed(d) ==> SpentOrGone(w, d.prior)
    requires Exclusive(w.rotations[id], d) && Exclusive(d, w.rotations[id])
    ensures var c' := AdvanceStep(w, id, o).rotations[id]; Exclusive(c', d) && Exclusive(d, c')
  {
  }

  lemma LocksStay(w: World, id: Id, o: Outcome, d: Rotation)
    requires id in w.rotations && Inside(d) && d.prior in w.locks && Exclusive(w.rotations[id], d)
    ensures d.prior in AdvanceStep(w, id, o).locks
  {
  }

  lemma AdvanceKeepsLockInv(w: World, id: Id, o: Outcome)
    requires Base(w) && LockInv(w) && id in w.rotations
    ensures LockInv(AdvanceStep(w, id, o))
  {
    var w' := AdvanceStep(w, id, o);
    OwnAdvance(w, id, o);
    forall j | j in w'.rotations && Inside(w'.rotations[j]) ensures w'.rotations[j].prior in w'.locks {
      if j != id {
        LocksStay(w, id, o, w.rotations[j]);
      }
    }
    forall j | j in w'.rotations && j != id
      ensures Exclusive(w'.rotations[id], w'.rotations[j]) && Exclusive(w'.rotations[j], w'.rotations[id])
    {
      assert RotationOk(w, w.rotations[j]);
      StillExclusive(w, id, o, w.rotations[j]);
    }
  }

  lemma StepKeepsLockInv(w: World, w': World, a: Action)
    requires Base(w) && LockInv(w) && w' == Step(w, a)
    requires a.ExpireLock? ==> forall id | id in w.rotations && w.rotations[id].prior == a.h :: !Inside(w.rotations[id])
    ensures LockInv(w')
  {
    match a {
      case Advance(id, o) =>
        if id in w.rotations {
          AdvanceKeepsLockInv(w, id, o);
        }
        return;
      case Begin(_, _, _, _) => return;
      case Crash(_) => return;
      case _ => return;
    }
  }

  lemma {:induction false} RunKeepsLockInv(w: World, acts: seq<Action>)
    requires Base(w) && LockInv(w) && LocksHold(w, acts)
    ensures LockInv(Run(w, acts))
    decreases |acts|
  {
    if acts != [] {
      StepKeepsBase(w, acts[0]);
      StepKeepsLockInv(w, Step(w, acts[0]), acts[0]);
      RunKeepsLockInv(Step(w, acts[0]), acts[1..]);
    }
  }

  /** As long as no lock expires under its holder, a token is rotated at most once, on
  every interleaving with evictions, failures, crashes and revocations. */
  lemma RotatedOnceUnderLock(acts: seq<Action>, i: Id, j: Id)
    requires LocksHold(START, acts)
    requires var w := Run(START, acts); i in w.rotations && j in w.rotations && w.rotations[i].prior == w.rotations[j].prior
    requires var w := Run(START, acts); w.rotations[i].stage == w.rotations[j].stage == Returned(Rotated)
    ensures i == j
  {
    RunKeepsLockInv(START, acts);
    var w := Run(START, acts);
    assert i != j ==> Exclusive(w.rotations[i], w.rotations[j]);
  }

  // ---- exactly which calls still get through -----------------------------

  lemma {:induction false} RunSplit(w: World, a: seq<Action>, b: seq<Action>)
    ensures Run(w, a + b) == Run(Run(w, a), b)
    decreases |a|
  {
    if a == [] {
      assert a + b == b;
    } else {
      assert (a + b)[1..] == a[1..] + b;
      RunSplit(Step(w, a[0]), a[1..], b);
    }
  }

  predicate Succeeds(w: World, j: Id, acts: seq<Action>) {
    j in Run(w, acts).rotations && Run(w, acts).rotations[j].stage == Returned(Rotated)
  }

  /** A call that has read the record as usable finishes with at most three commands. */
  lemma GoesThrough(w: World, j: Id) returns (acts: seq<Action>)
    requires j in w.rotations && (w.rotations[j].stage.MarkOld? || Committed(w.rotations[j]))
    ensures Succeeds(w, j, acts)
    decreases match w.rotations[j].stage case MarkOld(_) => 3 case WriteNew(_) => 2 case Unlock(_) => 1 case _ => 0
  {
    if w.rotations[j].stage.Returned? {
      acts := [];
    } else {
      var a := Advance(j, Fine);
      var rest := GoesThrough(Step(w, a), j);
      acts := [a] + rest;
      assert acts[1..] == rest;
    }
  }

  /** In any reachable state in which one call on a token has got past its mark, another
  call on that token can still succeed, in some continuation, if and only if it has read
  the record as usable already or is past the mark itself. */
  lemma SecondSucceedsExactlyWhen(before: seq<Action>, i: Id, j: Id)
    requires var w := Run(START, before);
      i in w.rotations && j in w.rotations && Committed(w.rotations[i]) && w.rotations[i].prior == w.rotations[j].prior
    ensures var w := Run(START, before);
      (exists acts :: Succeeds(w, j, acts)) <==> w.rotations[j].stage.MarkOld? || Committed(w.rotations[j])
  {
    var w := Run(START, before);
    RunKeepsBase(START, before);
    assert RotationOk(w, w.rotations[i]);
    if w.rotations[j].stage.MarkOld? || Committed(w.rotations[j]) {
      var acts := GoesThrough(w, j);
      assert Succeeds(w, j, acts);
    } else {
      forall acts ensures !Succeeds(w, j, acts) {
        BarredForGood(w, acts, j, w.rotations[i].prior);
        PriorStays(w, acts, j);
      }
    }
  }

  lemma {:induction false} PriorStays(w: World, acts: seq<Action>, j: Id)
    requires j in w.rotations
    ensures j in Run(w, acts).rotations && Run(w, acts).rotations[j].prior == w.rotations[j].prior
    decreases |acts|
  {
    if acts != [] {
      PriorStays(Step(w, acts[0]), acts[1..], j);
    }
  }

  /** Taken together: after one success another on the same token follows in some
  continuation if and only if another call is about to mark the record or beyond; and that
  needs a lock that expired under its holder. */
  lemma RotatedAgainExactlyWhen(before: seq<Action>, i: Id)
    requires var w := Run(START, before); i in w.rotations && w.rotations[i].stage == Returned(Rotated)
    ensures var w := Run(START, before);
      (exists j, acts | j in w.rotations && j != i && w.rotations[j].prior == w.rotations[i].prior :: Succeeds(w, j, acts))
      <==> (exists j | j in w.rotations :: Through(w, i, j))
    ensures var w := Run(START, before);
      (exists j | j in w.rotations :: Through(w, i, j)) ==> !LocksHold(START, before)
  {
    var w := Run(START, before);
    forall j | j in w.rotations && j != i && w.rotations[j].prior == w.rotations[i].prior
      ensures (exists acts :: Succeeds(w, j, acts)) <==> Through(w, i, j)
    {
      SecondSucceedsExactlyWhen(before, i, j);
    }
    if j :| j in w.rotations && Through(w, i, j) {
      var acts := GoesThrough(w, j);
      assert Succeeds(w, j, acts);
      if LocksHold(START, before) {
        RunKeepsLockInv(START, before);
        assert Exclusive(w.rotations[i], w.rotations[j]);
      }
    }
  }

  /** Call j is another on the token of call i, about to mark its record or beyond. */
  predicate Through(w: World, i: Id, j: Id)
    requires i in w.rotations && j in w.rotations
  {
    j != i && w.rotations[j].prior == w.rotations[i].prior && (w.rotations[j].stage.MarkOld? || Committed(w.rotations[j]))
  }

  lemma RunStep(w: World, a: Action, rest: seq<Action>)
    ensures Run(w, [a] + rest) == Run(Step(w, a), rest)
  {
    assert ([a] + rest)[1..] == rest;
  }

  predicate BothRotated(w: World) {
    && 1 in w.rotations && 2 in w.rotations && w.rotations[1].prior == w.rotations[2].prior
    && w.rotations[1].stage == w.rotations[2].stage == Returned(Rotated)
  }

  /** The hypothesis is needed: when the lock of the first caller expires after its read,
  two callers rotate one token. */
  lemma ExpiredLockRotatesTwice() returns (acts: seq<Action>)
    ensures BothRotated(Run(START, acts))
  {
    var one, two := Advance(1, Fine), Advance(2, Fine);
    var tail := FinishBoth(one, two);
    var a0, a1, a2, a5 := Issue(7, 1, 1, 9), Begin(1, 7, 8, 9), Begin(2, 7, 9, 9), ExpireLock(7);
    acts := [a0] + ([a1] + ([a2] + ([one] + ([one] + ([a5] + ([two] + ([two] + tail)))))));
    var t := Fresh(1, 1, 9);
    var w3 := Step(Step(Step(START, a0), a1), a2);
    assert w3 == World(0, map[7 := t], {}, map[1 := Rotation(7, 8, 9, TakeLock), 2 := Rotation(7, 9, 9, TakeLock)], map[], {7, 8, 9}, {7});
    var w5 := Step(Step(w3, one), one);
    assert w5 == w3.(locks := {7}, rotations := map[1 := Rotation(7, 8, 9, MarkOld(t)), 2 := Rotation(7, 9, 9, TakeLock)]);
    var w6 := Step(w5, a5);
    var w8 := Step(Step(w6, two), two);
    assert w8 == BothRead();
    RunStep(START, a0, acts[1..]);
    RunStep(Step(START, a0), a1, acts[2..]);
    RunStep(Step(Step(START, a0), a1), a2, acts[3..]);
    RunStep(w3, one, acts[4..]);
    RunStep(Step(w3, one), one, acts[5..]);
    RunStep(w5, a5, acts[6..]);
    RunStep(w6, two, acts[7..]);
    RunStep(Step(w6, two), two, tail);
  }

  function BothRead(): World {
    var t := Fresh(1, 1, 9);
    World(0, map[7 := t], {7}, map[1 := Rotation(7, 8, 9, MarkOld(t)), 2 := Rotation(7, 9, 9, MarkOld(t))], map[], {7, 8, 9}, {7})
  }

  lemma FinishBoth(one: Action, two: Action) returns (tail: seq<Action>)
    requires one == Advance(1, Fine) && two == Advance(2, Fine)
    ensures BothRotated(Run(BothRead(), tail))
  {
    tail := [one] + ([one] + ([one] + ([two] + ([two] + ([two] + [])))));
    var w := BothRead();
    var w3 := Step(Step(Step(w, one), one), one);
    assert w3.rotations[1] == Rotation(7, 8, 9, Returned(Rotated)) && w3.rotations[2] == w.rotations[2];
    var w6 := Step(Step(Step(w3, two), two), two);
    assert w6.rotations[2] == Rotation(7, 9, 9, Returned(Rotated)) && w6.rotations[1] == w3.rotations[1];
    RunStep(w, one, tail[1..]);
    RunStep(Step(w, one), one, tail[2..]);
    RunStep(Step(Step(w, one), one), one, tail[3..]);
    RunStep(w3, two, tail[4..]);
    RunStep(Step(w3, two), two, tail[5..]);
    RunStep(Step(Step(w3, two), two), two, []);
  }

  // ---- a call left to itself ---------------------------------------------

  /** The five commands of a rotation, all of which succeed. */
  function Alone(id: Id): seq<Action> {
    [Advance(id, Fine)] + ([Advance(id, Fine)] + ([Advance(id, Fine)] + ([Advance(id, Fine)] + ([Advance(id, Fine)] + []))))
  }

  lemma AloneRuns(w: World, id: Id)
    ensures var a := Advance(id, Fine); Run(w, Alone(id)) == Step(Step(Step(Step(Step(w, a), a), a), a), a)
  {
    var a := Advance(id, Fine);
    var w1 := Step(w, a);
    var w2 := Step(w1, a);
    var w3 := Step(w2, a);
    RunStep(w, a, [a] + ([a] + ([a] + ([a] + []))));
    RunStep(w1, a, [a] + ([a] + ([a] + [])));
    RunStep(w2, a, [a] + ([a] + []));
    RunStep(w3, a, [a] + []);
    RunStep(Step(w3, a), a, []);
  }

  predicate Ready(w: World, id: Id) {
    id in w.rotations && w.rotations[id].stage == TakeLock && w.rotations[id].prior !in w.locks
  }

  lemma TakesAndReads(w: World, w1: World, w2: World, id: Id)
    requires Ready(w, id) && w1 == Step(w, Advance(id, Fine)) && w2 == Step(w1, Advance(id, Fine))
    ensures var c := w.rotations[id]; var base := w.(locks := w.locks + {c.prior});
      w2 == Goto(base, id, if c.prior in w.store && !w.store[c.prior].revoked && w.store[c.prior].expiresAt > w.now
                           then MarkOld(w.store[c.prior]) else Unlock(Replay))
  {
    assert w1 == Goto(w.(locks := w.locks + {w.rotations[id].prior}), id, Read);
  }

  lemma WritesBoth(w: World, w2: World, id: Id, rec: Token)
    requires Ready(w, id) && w2 == Goto(w.(locks := w.locks + {w.rotations[id].prior}), id, MarkOld(rec))
    ensures var c, a := w.rotations[id], Advance(id, Fine);
      Step(Step(Step(w2, a), a), a) == Goto(w, id, Returned(Rotated)).(
        store := w.store[c.prior := Spent(rec, c.succ)][c.succ := Fresh(rec.user, rec.device, c.expiresAt)],
        written := w.written + {c.prior} + {c.succ})
  {
    var c, a := w.rotations[id], Advance(id, Fine);
    var w3 := Step(w2, a);
    assert w3 == Stored(Goto(w2, id, WriteNew(rec)), c.prior, Spent(rec, c.succ));
    var w4 := Step(w3, a);
    assert w4 == Stored(Goto(w3, id, Unlock(Rotated)), c.succ, Fresh(rec.user, rec.device, c.expiresAt));
    assert w.locks + {c.prior} - {c.prior} == w.locks;
  }

  /** A rotation left alone succeeds exactly if the record is there, unrevoked and
  unexpired: then the old record is spent and its successor stored for the same user
  and device.  Otherwise it reports a replay and leaves the store as it was.  The lock
  is free again in both cases. */
  lemma RotatesExactlyWhen(w: World, id: Id)
    requires Ready(w, id)
    ensures var c := w.rotations[id];
      Run(w, Alone(id)) ==
        if c.prior in w.store && !w.store[c.prior].revoked && w.store[c.prior].expiresAt > w.now then
          Goto(w, id, Returned(Rotated)).(
            store := w.store[c.prior := Spent(w.store[c.prior], c.succ)]
                            [c.succ := Fresh(w.store[c.prior].user, w.store[c.prior].device, c.expiresAt)],
            written := w.written + {c.prior} + {c.succ})
        else Goto(w, id, Returned(Replay))
  {
    var c, a := w.rotations[id], Advance(id, Fine);
    var w2 := Step(Step(w, a), a);
    AloneRuns(w, id);
    TakesAndReads(w, Step(w, a), w2, id);
    if c.prior in w.store && !w.store[c.prior].revoked && w.store[c.prior].expiresAt > w.now {
      WritesBoth(w, w2, id, w.store[c.prior]);
      return;
    }
    assert w.locks + {c.prior} - {c.prior} == w.locks;
    assert Step(w2, a) == Goto(w, id, Returned(Replay));
  }
}
