/** What holds of refresh-token rotation on every interleaving. */
module RefreshTheorems {
  import opened Wrappers
  import opened RefreshTable
  import opened RefreshChains
  import opened RefreshRotation

  lemma EmptyInv()
    ensures Inv(EMPTY)
  {
    assert Ranks(map[], map[]);
  }

  lemma {:induction false} RunSplits(w: World, first: seq<Action>, second: seq<Action>)
    ensures Run(w, first + second) == Run(Run(w, first), second)
    decreases |first|
  {
    if first == [] {
      assert first + second == second;
    } else {
      RunSplits(Step(w, first[0]), first[1..], second);
      assert (first + second)[1..] == first[1..] + second;
    }
  }

  /** Whatever has happened and whatever happens next: a row stays, keeps its user,
  device and expiry, never loses `revoked`, and gets `rotated_to` at most once. */
  lemma RowsOnlyMoveForward(past: seq<Action>, next: seq<Action>)
    ensures Evolves(Run(EMPTY, past).rows, Run(EMPTY, past + next).rows)
  {
    EmptyInv();
    RunKeepsInv(EMPTY, past);
    RunSplits(EMPTY, past, next);
    RunKeepsInv(Run(EMPTY, past), next);
  }

  /** A row is rotated at most once: two calls on it that passed their commit -- at
  the same time or at different times, crashed in between or not -- are the call
  that was given one and the same successor. */
  lemma RotatedAtMostOnce(past: seq<Action>, next: seq<Action>, i: nat, j: nat)
    requires var w := Run(EMPTY, past); i in w.calls && Committed(w.calls[i])
    requires var w := Run(EMPTY, past + next); j in w.calls && Committed(w.calls[j])
    requires Run(EMPTY, past).calls[i].prior == Run(EMPTY, past + next).calls[j].prior
    ensures Run(EMPTY, past).calls[i].succ == Run(EMPTY, past + next).calls[j].succ
    ensures next == [] ==> i == j
  {
    EmptyInv();
    RunKeepsInv(EMPTY, past);
    RunKeepsInv(EMPTY, past + next);
    RowsOnlyMoveForward(past, next);
    var v, w := Run(EMPTY, past), Run(EMPTY, past + next);
    assert CallOk(v.rows, v.used, v.owners, v.calls[i]);
    assert CallOk(w.rows, w.used, w.owners, w.calls[j]);
    if next == [] {
      assert past + next == past;
      assert i != j ==> Apart(w.calls[i], w.calls[j]);
    }
  }

  /** A rotation that reported success is in the table for good. */
  lemma ReportedRotationIsDurable(past: seq<Action>, next: seq<Action>, id: nat)
    requires var w := Run(EMPTY, past); id in w.calls && w.calls[id].RotateCall? && w.calls[id].rotate == Returned(Rotated)
    ensures var c := Run(EMPTY, past).calls[id]; SuccessorSet(Run(EMPTY, past + next).rows, c.prior, c.succ)
  {
    EmptyInv();
    RunKeepsInv(EMPTY, past);
    RowsOnlyMoveForward(past, next);
    var w := Run(EMPTY, past);
    assert CallOk(w.rows, w.used, w.owners, w.calls[id]);
  }

  /** In every reachable table the pointers form disjoint acyclic chains whose rows
  exist, belong to one user and device, and are all revoked except possibly the last. */
  lemma ChainsAreSound(past: seq<Action>, h: Hash, k: nat)
    requires Hop(Run(EMPTY, past).rows, h, k).Some?
    ensures var rows := Run(EMPTY, past).rows; var end := Hop(rows, h, k).value;
      && end in rows
      && SameOwner(rows[h], rows[end])
      && (k > 0 ==> end != h && rows[h].revoked)
  {
    EmptyInv();
    RunKeepsInv(EMPTY, past);
    HopStays(Run(EMPTY, past).rows, h, k);
    if k > 0 {
      NoCycle(Run(EMPTY, past).rows, h, k);
    }
  }

  lemma PointersNeverDangle(past: seq<Action>, h: Hash)
    requires Points(Run(EMPTY, past).rows, h)
    ensures var rows := Run(EMPTY, past).rows; rows[h].revoked && Target(rows, h) in rows
  {
    EmptyInv();
    RunKeepsInv(EMPTY, past);
  }

  lemma ChainsNeverMerge(past: seq<Action>, a: Hash, b: Hash, i: nat, j: nat)
    requires var rows := Run(EMPTY, past).rows; Hop(rows, a, i).Some? && Hop(rows, a, i) == Hop(rows, b, j)
    ensures var rows := Run(EMPTY, past).rows;
      if i <= j then Hop(rows, b, j - i) == Some(a) else Hop(rows, a, i - j) == Some(b)
  {
    EmptyInv();
    RunKeepsInv(EMPTY, past);
    ChainsDisjoint(Run(EMPTY, past).rows, a, b, i, j);
  }

  lemma OneLiveRowPerChain(past: seq<Action>, h: Hash, i: nat, j: nat)
    requires var rows := Run(EMPTY, past).rows;
      && Hop(rows, h, i).Some? && Hop(rows, h, j).Some?
      && Hop(rows, h, i).value in rows && !rows[Hop(rows, h, i).value].revoked
      && Hop(rows, h, j).value in rows && !rows[Hop(rows, h, j).value].revoked
    ensures i == j
  {
    EmptyInv();
    RunKeepsInv(EMPTY, past);
    if i <= j {
      AtMostOneLive(Run(EMPTY, past).rows, h, i, j);
    } else {
      AtMostOneLive(Run(EMPTY, past).rows, h, j, i);
    }
  }

  /** Whatever `validate` accepts, from the cache or the table, carries the user and
  device of the committed row. */
  lemma ValidateNamesTheOwner(past: seq<Action>, id: nat)
    requires id in Run(EMPTY, past).calls && Run(EMPTY, past).calls[id].ValidateCall?
    requires var c := Run(EMPTY, past).calls[id]; c.validate.Validated? && c.validate.answer.Some?
    ensures var w := Run(EMPTY, past); Faithful(w.rows, w.calls[id].h, w.calls[id].validate.answer.value)
  {
    EmptyInv();
    RunKeepsInv(EMPTY, past);
    var w := Run(EMPTY, past);
    assert CallOk(w.rows, w.used, w.owners, w.calls[id]);
  }

  // ---- the cascade -------------------------------------------------------

  /** Where a call that began sweeping `seen` may be. */
  predicate Sweeping(c: Call, seen: set<Hash>)
    requires c.RotateCall?
  {
    match c.rotate
    case Sweep(s, _, _) => s == seen
    case Unlock(res) => res == Replay(seen) || res == Replay({})
    case Returned(res) => res == Replay(seen) || res == Replay({})
    case _ => false
  }

  /** If the call given successor `succ` is still there, it is sweeping `seen`. */
  predicate SweepsIfThere(w: World, succ: Hash, seen: set<Hash>) {
    && succ in w.used
    && forall id | id in w.calls && w.calls[id].RotateCall? && w.calls[id].succ == succ :: Sweeping(w.calls[id], seen)
  }

  /** The call moves alone, hands out no id, and stays what it is. */
  predicate MovesAlone(w: World, w': World, id: nat) {
    && w'.used == w.used && id in w.calls && id in w'.calls && w'.calls == w.calls[id := w'.calls[id]]
    && (w'.calls[id].RotateCall? <==> w.calls[id].RotateCall?)
    && (w.calls[id].RotateCall? ==> w'.calls[id].succ == w.calls[id].succ)
  }

  lemma ReadMovesAlone(w: World, w': World, id: nat, c: Call, o: Outcome, pick: Hash)
    requires c.RotateCall? && id in w.calls && w.calls[id] == c && w' == StepRotate(w, id, c, o, pick)
    requires c.rotate.TakeLock? || c.rotate.ReadCache? || c.rotate.ReadDb? || c.rotate.Preflight?
    ensures MovesAlone(w, w', id)
  {
    if c.rotate.TakeLock? {
      return;
    }
    if c.rotate.ReadCache? {
      return;
    }
    if c.rotate.ReadDb? {
      return;
    }
  }

  lemma WriteMovesAlone(w: World, w': World, id: nat, c: Call, o: Outcome, pick: Hash)
    requires c.RotateCall? && id in w.calls && w.calls[id] == c && w' == StepRotate(w, id, c, o, pick)
    requires c.rotate.Gate? || c.rotate.Insert? || c.rotate.Commit?
    ensures MovesAlone(w, w', id)
  {
    if c.rotate.Gate? {
      return;
    }
    if c.rotate.Insert? {
      return;
    }
  }

  lemma CacheMovesAlone(w: World, w': World, id: nat, c: Call, o: Outcome, pick: Hash)
    requires c.RotateCall? && id in w.calls && w.calls[id] == c && w' == StepRotate(w, id, c, o, pick)
    requires c.rotate.MarkOld? || c.rotate.CacheNew? || c.rotate.Cascade?
    ensures MovesAlone(w, w', id)
  {
    if c.rotate.MarkOld? {
      return;
    }
    if c.rotate.CacheNew? {
      return;
    }
  }

  lemma LastMovesAlone(w: World, w': World, id: nat, c: Call, o: Outcome, pick: Hash)
    requires c.RotateCall? && id in w.calls && w.calls[id] == c && w' == StepRotate(w, id, c, o, pick)
    requires c.rotate.Sweep? || c.rotate.Unlock? || c.rotate.Returned?
    ensures MovesAlone(w, w', id)
  {
    if c.rotate.Sweep? {
      return;
    }
    if c.rotate.Unlock? {
      return;
    }
  }

  lemma RotateMovesAlone(w: World, w': World, id: nat, c: Call, o: Outcome, pick: Hash)
    requires c.RotateCall? && id in w.calls && w.calls[id] == c && w' == StepRotate(w, id, c, o, pick)
    ensures MovesAlone(w, w', id)
  {
    if c.rotate.Gate? || c.rotate.Insert? || c.rotate.Commit? {
      WriteMovesAlone(w, w', id, c, o, pick);
    } else if c.rotate.MarkOld? || c.rotate.CacheNew? || c.rotate.Cascade? {
      CacheMovesAlone(w, w', id, c, o, pick);
    } else if c.rotate.Sweep? || c.rotate.Unlock? || c.rotate.Returned? {
      LastMovesAlone(w, w', id, c, o, pick);
    } else {
      ReadMovesAlone(w, w', id, c, o, pick);
    }
  }

  /** A sweep under way stays one. */
  lemma SweepGoesOn(w: World, w': World, id: nat, c: Call, o: Outcome, pick: Hash, seen: set<Hash>)
    requires c.RotateCall? && id in w.calls && w.calls[id] == c && Sweeping(c, seen) && w' == StepRotate(w, id, c, o, pick)
    ensures id in w'.calls && w'.calls[id].RotateCall? && Sweeping(w'.calls[id], seen)
  {
    match c.rotate {
      case Sweep(_, _, _) => return;
      case Unlock(_) => return;
      case Returned(_) => return;
    }
  }

  lemma IssueMovesAlone(w: World, w': World, id: nat, c: Call, o: Outcome)
    requires c.IssueCall? && id in w.calls && w.calls[id] == c && w' == StepIssue(w, id, c, o)
    ensures MovesAlone(w, w', id)
  {
  }

  lemma RevokeMovesAlone(w: World, w': World, id: nat, c: Call, o: Outcome)
    requires c.RevokeCall? && id in w.calls && w.calls[id] == c && w' == StepRevoke(w, id, c, o)
    ensures MovesAlone(w, w', id)
  {
  }

  lemma ValidateMovesAlone(w: World, w': World, id: nat, c: Call, o: Outcome)
    requires c.ValidateCall? && id in w.calls && w.calls[id] == c && w' == StepValidate(w, id, c, o)
    ensures MovesAlone(w, w', id)
  {
  }

  lemma AdvanceKeepsSweep(w: World, w': World, id: nat, o: Outcome, pick: Hash, succ: Hash, seen: set<Hash>)
    requires SweepsIfThere(w, succ, seen) && id in w.calls && w' == Step(w, Advance(id, o, pick))
    ensures SweepsIfThere(w', succ, seen)
  {
    var c := w.calls[id];
    match c {
      case RotateCall(_, _, _, _) =>
        RotateMovesAlone(w, w', id, c, o, pick);
        if c.succ == succ {
          SweepGoesOn(w, w', id, c, o, pick, seen);
        }
      case IssueCall(_, _, _, _, _) => IssueMovesAlone(w, w', id, c, o);
      case RevokeCall(_, _) => RevokeMovesAlone(w, w', id, c, o);
      case ValidateCall(_, _) => ValidateMovesAlone(w, w', id, c, o);
    }
  }

  lemma StepKeepsSweep(w: World, a: Action, succ: Hash, seen: set<Hash>)
    requires SweepsIfThere(w, succ, seen)
    ensures SweepsIfThere(Step(w, a), succ, seen)
  {
    if a.Advance? && a.id in w.calls {
      AdvanceKeepsSweep(w, Step(w, a), a.id, a.outcome, a.pick, succ, seen);
    }
  }

  lemma {:induction false} RunKeepsSweep(w: World, acts: seq<Action>, succ: Hash, seen: set<Hash>)
    requires SweepsIfThere(w, succ, seen)
    ensures SweepsIfThere(Run(w, acts), succ, seen)
    decreases |acts|
  {
    if acts != [] {
      StepKeepsSweep(w, acts[0], succ, seen);
      RunKeepsSweep(Step(w, acts[0]), acts[1..], succ, seen);
    }
  }

  lemma CascadeStartsSweep(w: World, id: nat, pick: Hash)
    requires Inv(w) && id in w.calls && w.calls[id].RotateCall? && w.calls[id].rotate.Cascade?
    requires w.calls[id].rotate.user != NO_NAME
    ensures SweepsIfThere(Step(w, Advance(id, Fine, pick)), w.calls[id].succ,
      set h | h in w.rows && w.rows[h].user == w.calls[id].rotate.user)
  {
    var c := w.calls[id];
    var u := Step(w, Advance(id, Fine, pick));
    assert CallOk(w.rows, w.used, w.owners, c);
    forall j | j in u.calls && u.calls[j].RotateCall? && u.calls[j].succ == c.succ
      ensures j == id
    {
      assert j != id ==> Apart(w.calls[j], c);
    }
  }

  /** A sweep that has returned has revoked what it went through, for good. */
  lemma SweptForGood(v: World, id: nat, seen: set<Hash>, later: seq<Action>, h: Hash)
    requires Inv(v) && id in v.calls && v.calls[id].RotateCall? && Sweeping(v.calls[id], seen) && h in seen
    requires v.calls[id].rotate.Returned? && v.calls[id].rotate.res.Replay? && v.calls[id].rotate.res.swept != {}
    ensures h in v.rows && v.rows[h].revoked
    ensures h in Run(v, later).rows && Run(v, later).rows[h] == v.rows[h]
  {
    assert CallOk(v.rows, v.used, v.owners, v.calls[id]);
    RunKeepsInv(v, later);
  }

  /** Once a replay's cascade has completed, every row its user had when the cascade
  started is revoked, and none of them is rotated or changed ever again. */
  lemma CascadeIsFinal(past: seq<Action>, id: nat, pick: Hash, next: seq<Action>, later: seq<Action>, h: Hash)
    requires var w := Run(EMPTY, past);
      && id in w.calls && w.calls[id].RotateCall? && w.calls[id].rotate.Cascade?
      && w.calls[id].rotate.user != NO_NAME
      && h in w.rows && w.rows[h].user == w.calls[id].rotate.user
    requires var v := Run(Step(Run(EMPTY, past), Advance(id, Fine, pick)), next);
      && id in v.calls && v.calls[id].RotateCall? && v.calls[id].succ == Run(EMPTY, past).calls[id].succ
      && v.calls[id].rotate.Returned? && v.calls[id].rotate.res.Replay? && v.calls[id].rotate.res.swept != {}
    ensures var v := Run(Step(Run(EMPTY, past), Advance(id, Fine, pick)), next);
      && h in v.rows && v.rows[h].revoked
      && h in Run(v, later).rows && Run(v, later).rows[h] == v.rows[h]
  {
    EmptyInv();
    RunKeepsInv(EMPTY, past);
    CascadeFrom(Run(EMPTY, past), id, pick, next, later, h);
  }

  lemma CascadeFrom(w: World, id: nat, pick: Hash, next: seq<Action>, later: seq<Action>, h: Hash)
    requires Inv(w) && id in w.calls && w.calls[id].RotateCall? && w.calls[id].rotate.Cascade? && w.calls[id].rotate.user != NO_NAME
    requires h in w.rows && w.rows[h].user == w.calls[id].rotate.user
    requires var v := Run(Step(w, Advance(id, Fine, pick)), next);
      && id in v.calls && v.calls[id].RotateCall? && v.calls[id].succ == w.calls[id].succ
      && v.calls[id].rotate.Returned? && v.calls[id].rotate.res.Replay? && v.calls[id].rotate.res.swept != {}
    ensures var v := Run(Step(w, Advance(id, Fine, pick)), next);
      && h in v.rows && v.rows[h].revoked
      && h in Run(v, later).rows && Run(v, later).rows[h] == v.rows[h]
  {
    var u := Step(w, Advance(id, Fine, pick));
    StepKeepsInv(w, Advance(id, Fine, pick));
    var seen := set g | g in w.rows && w.rows[g].user == w.calls[id].rotate.user;
    CascadeStartsSweep(w, id, pick);
    RunKeepsSweep(u, next, w.calls[id].succ, seen);
    RunKeepsInv(u, next);
    SweptForGood(Run(u, next), id, seen, later, h);
  }

  // ---- a call left to itself ---------------------------------------------

  function Iterate(f: World -> World, w: World, n: nat): World {
    if n == 0 then w else f(Iterate(f, w, n - 1))
  }

  lemma {:induction false} IterateAdds(f: World -> World, w: World, m: nat, n: nat)
    ensures Iterate(f, w, m + n) == Iterate(f, Iterate(f, w, m), n)
    decreases n
  {
    if n > 0 {
      IterateAdds(f, w, m, n - 1);
    }
  }

  function Mover(id: nat): World -> World {
    w => Step(w, Advance(id, Fine, 0))
  }

  /** The call makes n steps, every store answers, and nobody else moves. */
  function Solo(w: World, id: nat, n: nat): World
    decreases n
  {
    if n == 0 then w else Step(Solo(w, id, n - 1), Advance(id, Fine, 0))
  }

  lemma {:induction false} SoloIterates(w: World, id: nat, n: nat)
    ensures Solo(w, id, n) == Iterate(Mover(id), w, n)
    decreases n
  {
    if n > 0 {
      SoloIterates(w, id, n - 1);
    }
  }

  lemma SoloAdds(w: World, id: nat, m: nat, n: nat)
    ensures Solo(w, id, m + n) == Solo(Solo(w, id, m), id, n)
  {
    IterateAdds(Mover(id), w, m, n);
    SoloIterates(w, id, m);
    SoloIterates(w, id, m + n);
    SoloIterates(Solo(w, id, m), id, n);
  }

  predicate ReadyToRotate(w: World, id: nat) {
    id in w.calls && w.calls[id].RotateCall? && w.calls[id].rotate.TakeLock? && w.calls[id].prior !in w.locks
  }

  /** The record the call will act on: the cached one if there is one, else the row. */
  lemma SoloReads(w: World, id: nat)
    requires ReadyToRotate(w, id)
    requires w.calls[id].prior in w.cache || w.calls[id].prior in w.rows
    ensures var c := w.calls[id];
      var rec := if c.prior in w.cache then w.cache[c.prior] else w.rows[c.prior];
      Solo(w, id, if c.prior in w.cache then 2 else 3)
        == Goto(w, id, c.(rotate := Preflight(rec))).(locks := w.locks + {c.prior})
  {
    var c := w.calls[id];
    assert Solo(w, id, 1) == Goto(w, id, c.(rotate := ReadCache)).(locks := w.locks + {c.prior});
    if c.prior !in w.cache {
      assert Solo(w, id, 2) == Goto(w, id, c.(rotate := ReadDb)).(locks := w.locks + {c.prior});
    }
  }

  lemma OwnMoveLocksNothing(w: World, id: nat, c: Call, h: Hash)
    ensures Locked(Goto(w, id, c), id, h) == Locked(w, id, h)
  {
    var v := Goto(w, id, c);
    forall j | j != id
      ensures j in v.calls <==> j in w.calls
      ensures j in w.calls ==> v.calls[j] == w.calls[j]
    {
    }
  }

  lemma SoloGates(base: World, id: nat, c: Call, rec: Token)
    requires c.RotateCall? && Usable(rec, base.now) && GateOpen(base.rows, c.prior, base.now)
    requires c.succ !in base.rows && c.succ != c.prior && !Locked(base, id, c.prior) && !Locked(base, id, c.succ)
    ensures Solo(Goto(base, id, c.(rotate := Preflight(rec))), id, 3) == Goto(base, id, c.(rotate := Commit(rec,
      map[c.prior := Spent(base.rows[c.prior], c.succ), c.succ := Fresh(rec.user, rec.device, c.expiresAt)])))
  {
    var w0 := Goto(base, id, c.(rotate := Preflight(rec)));
    var w1 := Goto(base, id, c.(rotate := Gate(rec)));
    assert Solo(w0, id, 1) == w1;
    OwnMoveLocksNothing(base, id, c.(rotate := Gate(rec)), c.prior);
    var one := map[c.prior := Spent(base.rows[c.prior], c.succ)];
    var w2 := Goto(base, id, c.(rotate := Insert(rec, one)));
    assert Solo(w0, id, 2) == w2;
    OwnMoveLocksNothing(base, id, c.(rotate := Insert(rec, one)), c.succ);
  }

  lemma SoloPublishes(base: World, id: nat, c: Call, rec: Token, staged: Rows)
    requires c.RotateCall?
    ensures Solo(Goto(base, id, c.(rotate := Commit(rec, staged))), id, 2)
      == Goto(base, id, c.(rotate := CacheNew(rec))).(
        rows := base.rows + staged, cache := base.cache[c.prior := Spent(rec, c.succ)])
  {
    var w := Goto(base, id, c.(rotate := Commit(rec, staged)));
    assert Step(w, Advance(id, Fine, 0)) == Goto(base, id, c.(rotate := MarkOld(rec))).(rows := base.rows + staged);
  }

  lemma SoloReleases(base: World, id: nat, c: Call, rec: Token)
    requires c.RotateCall?
    ensures Solo(Goto(base, id, c.(rotate := CacheNew(rec))), id, 2)
      == Goto(base, id, c.(rotate := Returned(Rotated))).(
        locks := base.locks - {c.prior},
        cache := base.cache[c.succ := Fresh(rec.user, rec.device, c.expiresAt)])
  {
    var w := Goto(base, id, c.(rotate := CacheNew(rec)));
    assert Step(w, Advance(id, Fine, 0)) == Goto(base, id, c.(rotate := Unlock(Rotated))).(
      cache := base.cache[c.succ := Fresh(rec.user, rec.device, c.expiresAt)]);
  }

  lemma SoloFinishes(base: World, locks: set<Hash>, id: nat, c: Call, rec: Token, staged: Rows)
    requires c.RotateCall? && base.locks == locks + {c.prior} && c.prior !in locks
    ensures Solo(Goto(base, id, c.(rotate := Commit(rec, staged))), id, 4)
      == Goto(base, id, c.(rotate := Returned(Rotated))).(
        locks := locks, rows := base.rows + staged,
        cache := base.cache[c.prior := Spent(rec, c.succ)][c.succ := Fresh(rec.user, rec.device, c.expiresAt)])
  {
    var mid := base.(rows := base.rows + staged, cache := base.cache[c.prior := Spent(rec, c.succ)]);
    SoloPublishes(base, id, c, rec, staged);
    SoloReleases(mid, id, c, rec);
    SoloAdds(Goto(base, id, c.(rotate := Commit(rec, staged))), id, 2, 2);
    assert base.locks - {c.prior} == locks;
  }

  /** The record a rotation starts from. */
  function RecordOf(w: World, prior: Hash): Token
    requires prior in w.cache || prior in w.rows
  {
    if prior in w.cache then w.cache[prior] else w.rows[prior]
  }

  lemma SoloChains(w: World, id: nat, i: nat, u: World, j: nat, v: World, k: nat)
    requires Solo(w, id, i) == u && Solo(u, id, j) == v
    ensures Solo(w, id, i + j + k) == Solo(v, id, k)
  {
    SoloAdds(w, id, i, j);
    SoloAdds(w, id, i + j, k);
  }

  lemma RotatesFrom(w: World, id: nat, c: Call, rec: Token, n: nat)
    requires ReadyToRotate(w, id) && c == w.calls[id]
    requires GateOpen(w.rows, c.prior, w.now) && rec == RecordOf(w, c.prior) && Usable(rec, w.now)
    requires !Locked(w, id, c.prior) && !Locked(w, id, c.succ) && c.succ !in w.rows && c.succ != c.prior
    requires n == if c.prior in w.cache then 9 else 10
    ensures var t := Fresh(rec.user, rec.device, c.expiresAt);
      Solo(w, id, n) == Goto(w, id, c.(rotate := Returned(Rotated))).(
        rows := w.rows + map[c.prior := Spent(w.rows[c.prior], c.succ), c.succ := t],
        cache := w.cache[c.prior := Spent(rec, c.succ)][c.succ := t])
  {
    var base := w.(locks := w.locks + {c.prior});
    assert forall h :: Locked(base, id, h) == Locked(w, id, h);
    SoloReads(w, id);
    SoloGates(base, id, c, rec);
    var staged := map[c.prior := Spent(w.rows[c.prior], c.succ), c.succ := Fresh(rec.user, rec.device, c.expiresAt)];
    SoloFinishes(base, w.locks, id, c, rec, staged);
    SoloChains(w, id, n - 7, Goto(base, id, c.(rotate := Preflight(rec))),
      3, Goto(base, id, c.(rotate := Commit(rec, staged))), 4);
  }

  /** A live token whose cached record, if any, is usable rotates when the call is not
  disturbed: the old row is spent, its successor is there for the same user and
  device, the cache shows both, the lock is free again, and nothing else has changed.
  In particular a crash inside an earlier transaction leaves nothing in the way. */
  lemma UndisturbedRotation(w: World, id: nat, n: nat)
    requires Inv(w) && ReadyToRotate(w, id)
    requires GateOpen(w.rows, w.calls[id].prior, w.now) && Usable(RecordOf(w, w.calls[id].prior), w.now)
    requires !Locked(w, id, w.calls[id].prior) && !Locked(w, id, w.calls[id].succ)
    requires n == if w.calls[id].prior in w.cache then 9 else 10
    ensures var c := w.calls[id]; var row := w.rows[c.prior];
      var t := Fresh(row.user, row.device, c.expiresAt);
      Solo(w, id, n) == Goto(w, id, c.(rotate := Returned(Rotated))).(
        rows := w.rows + map[c.prior := Spent(row, c.succ), c.succ := t],
        cache := w.cache[c.prior := Spent(RecordOf(w, c.prior), c.succ)][c.succ := t])
  {
    var c := w.calls[id];
    assert CallOk(w.rows, w.used, w.owners, c);
    RotatesFrom(w, id, c, RecordOf(w, c.prior), n);
  }

  lemma SoloRefuses(base: World, id: nat, c: Call, rec: Token)
    requires c.RotateCall? && !GateOpen(base.rows, c.prior, base.now) && !Locked(base, id, c.prior)
    ensures var w := Goto(base, id, c.(rotate := Preflight(rec)));
      if Usable(rec, base.now) then Solo(w, id, 2) == Goto(base, id, c.(rotate := Cascade(rec.user)))
      else Solo(w, id, 1) == Goto(base, id, c.(rotate := Unlock(Replay({}))))
  {
    var next := Advance(id, Fine, 0);
    var w := Goto(base, id, c.(rotate := Preflight(rec)));
    if Usable(rec, base.now) {
      var w1 := Goto(base, id, c.(rotate := Gate(rec)));
      assert Step(w, next) == w1;
      OwnMoveLocksNothing(base, id, c.(rotate := Gate(rec)), c.prior);
      assert Step(w1, next) == Goto(base, id, c.(rotate := Cascade(rec.user)));
    }
  }

  /** When a token that can no longer rotate is presented again, the cascade that
  section 10.4 of RFC 6749 asks for is started exactly if the cache still holds a
  usable record of it; otherwise the pre-flight check refuses and the table is left alone. */
  lemma ReplayCascadesIffCacheIsStale(w: World, id: nat)
    requires CacheOk(w.rows, w.cache) && ReadyToRotate(w, id)
    requires !GateOpen(w.rows, w.calls[id].prior, w.now) && !Locked(w, id, w.calls[id].prior)
    ensures var c := w.calls[id];
      var base := w.(locks := w.locks + {c.prior});
      if c.prior in w.cache && Usable(w.cache[c.prior], w.now)
      then Solo(w, id, 4) == Goto(base, id, c.(rotate := Cascade(w.rows[c.prior].user)))
      else Solo(w, id, if c.prior in w.cache || c.prior !in w.rows then 3 else 4)
             == Goto(base, id, c.(rotate := Unlock(Replay({}))))
  {
    var c := w.calls[id];
    var base := w.(locks := w.locks + {c.prior});
    assert forall h :: Locked(base, id, h) == Locked(w, id, h);
    if c.prior in w.cache || c.prior in w.rows {
      ReplayWithRecord(w, id, base, if c.prior in w.cache then 2 else 3);
      return;
    }
    ReplayWithoutRecord(w, id, base, 3);
  }

  lemma ReplayWithoutRecord(w: World, id: nat, base: World, n: nat)
    requires ReadyToRotate(w, id) && base == w.(locks := w.locks + {w.calls[id].prior}) && n == 3
    requires w.calls[id].prior !in w.cache && w.calls[id].prior !in w.rows
    ensures Solo(w, id, n) == Goto(base, id, w.calls[id].(rotate := Unlock(Replay({}))))
  {
    var c := w.calls[id];
    assert Solo(w, id, n - 2) == Goto(base, id, c.(rotate := ReadCache)) by { assert Solo(w, id, n - 3) == w; }
    assert Solo(w, id, n - 1) == Goto(base, id, c.(rotate := ReadDb));
  }

  lemma ReplayWithRecord(w: World, id: nat, base: World, n: nat)
    requires ReadyToRotate(w, id) && base == w.(locks := w.locks + {w.calls[id].prior})
    requires w.calls[id].prior in w.cache || w.calls[id].prior in w.rows
    requires !GateOpen(base.rows, w.calls[id].prior, base.now) && !Locked(base, id, w.calls[id].prior)
    requires n == if w.calls[id].prior in w.cache then 2 else 3
    ensures var c := w.calls[id]; var rec := RecordOf(w, c.prior);
      if Usable(rec, base.now) then Solo(w, id, n + 2) == Goto(base, id, c.(rotate := Cascade(rec.user)))
      else Solo(w, id, n + 1) == Goto(base, id, c.(rotate := Unlock(Replay({}))))
  {
    SoloReads(w, id);
    SoloRefuses(base, id, w.calls[id], RecordOf(w, w.calls[id].prior));
    SoloAdds(w, id, n, 1);
    SoloAdds(w, id, n, 2);
  }
}
