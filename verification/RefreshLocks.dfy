/** What the lock of a rotation is for: one call at a time on a token, and when. */
module RefreshLocks {
  import opened Wrappers
  import opened RefreshTable
  import opened RefreshRotation
  import opened RefreshTheorems

  /** The call is between taking the lock of h and giving it back. */
  predicate Holds(c: Call, h: Hash) {
    c.RotateCall? && c.prior == h && !c.rotate.TakeLock? && !c.rotate.Returned?
  }

  predicate Guards(w: World, id: nat, h: Hash) {
    id in w.calls && Holds(w.calls[id], h)
  }

  predicate Exclusive(w: World, h: Hash) {
    forall i | i in w.calls && Guards(w, i, h) :: h in w.locks && forall j | j in w.calls && Guards(w, j, h) :: j == i
  }

  /** A call sets to work on h only by taking its lock, and only its holder lets go of it. */
  predicate LockMove(w: World, w': World, id: nat, h: Hash) {
    && id in w.calls && id in w'.calls
    && (Holds(w'.calls[id], h) ==> h in w'.locks && (Holds(w.calls[id], h) || h !in w.locks))
    && (!Holds(w.calls[id], h) && h in w.locks ==> h in w'.locks)
  }

  lemma EdgeMove(w: World, w': World, id: nat, c: Call, o: Outcome, pick: Hash, h: Hash)
    requires id in w.calls && w.calls[id] == c && c.RotateCall? && (c.rotate.TakeLock? || c.rotate.Unlock? || c.rotate.Returned?)
    requires w' == StepRotate(w, id, c, o, pick)
    ensures LockMove(w, w', id, h)
  {
    if c.rotate.TakeLock? {
      return;
    }
    if c.rotate.Unlock? {
      return;
    }
  }

  /** In between, the call goes on with its token and the locks stay. */
  predicate GoesOn(w: World, w': World, id: nat, c: Call) {
    w'.locks == w.locks && id in w'.calls && w'.calls[id].RotateCall? && c.RotateCall? && w'.calls[id].prior == c.prior
  }

  lemma ReadGoesOn(w: World, w': World, id: nat, c: Call, o: Outcome, pick: Hash)
    requires id in w.calls && w.calls[id] == c && c.RotateCall? && w' == StepRotate(w, id, c, o, pick)
    requires c.rotate.ReadCache? || c.rotate.ReadDb? || c.rotate.Preflight?
    ensures GoesOn(w, w', id, c)
  {
    if c.rotate.ReadCache? {
      return;
    }
    if c.rotate.ReadDb? {
      return;
    }
  }

  lemma WriteGoesOn(w: World, w': World, id: nat, c: Call, o: Outcome, pick: Hash)
    requires id in w.calls && w.calls[id] == c && c.RotateCall? && w' == StepRotate(w, id, c, o, pick)
    requires c.rotate.Gate? || c.rotate.Insert? || c.rotate.Commit?
    ensures GoesOn(w, w', id, c)
  {
    if c.rotate.Gate? {
      return;
    }
    if c.rotate.Insert? {
      return;
    }
  }

  lemma CacheGoesOn(w: World, w': World, id: nat, c: Call, o: Outcome, pick: Hash)
    requires id in w.calls && w.calls[id] == c && c.RotateCall? && w' == StepRotate(w, id, c, o, pick)
    requires c.rotate.MarkOld? || c.rotate.CacheNew? || c.rotate.Cascade?
    ensures GoesOn(w, w', id, c)
  {
    if c.rotate.MarkOld? {
      return;
    }
    if c.rotate.CacheNew? {
      return;
    }
  }

  lemma SweepGoesOn(w: World, w': World, id: nat, c: Call, o: Outcome, pick: Hash)
    requires id in w.calls && w.calls[id] == c && c.RotateCall? && w' == StepRotate(w, id, c, o, pick) && c.rotate.Sweep?
    ensures GoesOn(w, w', id, c)
  {
  }

  lemma RotateMove(w: World, w': World, id: nat, c: Call, o: Outcome, pick: Hash, h: Hash)
    requires id in w.calls && w.calls[id] == c && c.RotateCall? && w' == StepRotate(w, id, c, o, pick)
    requires Holds(c, h) ==> h in w.locks
    ensures LockMove(w, w', id, h)
  {
    if c.rotate.TakeLock? || c.rotate.Unlock? || c.rotate.Returned? {
      EdgeMove(w, w', id, c, o, pick, h);
    } else if c.rotate.ReadCache? || c.rotate.ReadDb? || c.rotate.Preflight? {
      ReadGoesOn(w, w', id, c, o, pick);
    } else if c.rotate.Gate? || c.rotate.Insert? || c.rotate.Commit? {
      WriteGoesOn(w, w', id, c, o, pick);
    } else if c.rotate.Sweep? {
      SweepGoesOn(w, w', id, c, o, pick);
    } else {
      CacheGoesOn(w, w', id, c, o, pick);
    }
  }

  lemma OtherCallMove(w: World, w': World, id: nat, c: Call, o: Outcome, pick: Hash)
    requires id in w.calls && w.calls[id] == c && !c.RotateCall? && w' == Step(w, Advance(id, o, pick))
    ensures w'.locks == w.locks && MovesAlone(w, w', id)
  {
    if c.IssueCall? {
      IssueMovesAlone(w, w', id, c, o);
      return;
    }
    if c.RevokeCall? {
      RevokeMovesAlone(w, w', id, c, o);
      return;
    }
    ValidateMovesAlone(w, w', id, c, o);
  }

  lemma AdvanceKeepsExclusive(w: World, w': World, id: nat, o: Outcome, pick: Hash, h: Hash)
    requires Exclusive(w, h) && id in w.calls && w' == Step(w, Advance(id, o, pick))
    ensures Exclusive(w', h)
  {
    var c := w.calls[id];
    assert Holds(c, h) ==> Guards(w, id, h);
    if c.RotateCall? {
      RotateMovesAlone(w, w', id, c, o, pick);
      RotateMove(w, w', id, c, o, pick, h);
    } else {
      OtherCallMove(w, w', id, c, o, pick);
    }
    MoveKeepsExclusive(w, w', id, h);
  }

  lemma MoveKeepsExclusive(w: World, w': World, id: nat, h: Hash)
    requires Exclusive(w, h) && MovesAlone(w, w', id) && LockMove(w, w', id, h)
    ensures Exclusive(w', h)
  {
    forall i | i in w'.calls && Guards(w', i, h)
      ensures h in w'.locks && forall j | j in w'.calls && Guards(w', j, h) :: j == i
    {
      assert i != id ==> Guards(w, i, h);
      assert Holds(w.calls[id], h) ==> Guards(w, id, h);
      forall j | j in w'.calls && Guards(w', j, h)
        ensures j == i
      {
        assert j != id ==> Guards(w, j, h);
      }
    }
  }

  lemma StepKeepsExclusive(w: World, a: Action, h: Hash)
    requires Exclusive(w, h) && a != ExpireLock(h)
    ensures Exclusive(Step(w, a), h)
  {
    var w' := Step(w, a);
    if a.Advance? {
      if a.id in w.calls {
        AdvanceKeepsExclusive(w, w', a.id, a.outcome, a.pick, h);
      }
      return;
    }
    OtherKeepsLocks(w, w', a, h);
    forall i | i in w'.calls && Guards(w', i, h)
      ensures h in w'.locks && forall j | j in w'.calls && Guards(w', j, h) :: j == i
    {
      assert Guards(w, i, h);
      forall j | j in w'.calls && Guards(w', j, h)
        ensures j == i
      {
        assert Guards(w, j, h);
      }
    }
  }

  lemma OtherKeepsLocks(w: World, w': World, a: Action, h: Hash)
    requires !a.Advance? && a != ExpireLock(h) && w' == Step(w, a)
    ensures h in w.locks <==> h in w'.locks
    ensures forall i | Guards(w', i, h) :: Guards(w, i, h)
  {
    match a {
      case BeginRotate(_, _, _, _) => return;
      case BeginIssue(_, _, _, _, _) => return;
      case BeginRevoke(_, _) => return;
      case BeginValidate(_, _) => return;
      case Crash(_) => return;
      case _ => return;
    }
  }

  lemma {:induction false} RunKeepsExclusive(w: World, acts: seq<Action>, h: Hash)
    requires Exclusive(w, h) && ExpireLock(h) !in acts
    ensures Exclusive(Run(w, acts), h)
    decreases |acts|
  {
    if acts != [] {
      StepKeepsExclusive(w, acts[0], h);
      RunKeepsExclusive(Step(w, acts[0]), acts[1..], h);
    }
  }

  /** On every run in which the lock of a token does not expire, at most one rotation of it
  is under way at a time, and the lock is there as long. */
  lemma OneRotationAtATime(acts: seq<Action>, h: Hash, i: nat, j: nat)
    requires ExpireLock(h) !in acts && Guards(Run(EMPTY, acts), i, h) && Guards(Run(EMPTY, acts), j, h)
    ensures i == j && h in Run(EMPTY, acts).locks
  {
    RunKeepsExclusive(EMPTY, acts, h);
  }

  /** A token whose lock is taken is refused at once, whatever its state. */
  lemma TakenIsRefused(w: World, id: nat, o: Outcome, pick: Hash)
    requires id in w.calls && w.calls[id].RotateCall? && w.calls[id].rotate.TakeLock? && w.calls[id].prior in w.locks
    ensures Step(w, Advance(id, o, pick)) == Goto(w, id, w.calls[id].(rotate := Returned(Failed)))
  {
  }
}
