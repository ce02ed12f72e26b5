/** What the workers' locks are for: one worker at a time on an operation id, and when. */
module ReconLocks {
  import opened Wrappers
  import opened ReconQueue
  import opened ReconTheorems
  import U = ReconUniqueness

  /** The worker is between taking the lock of id x and giving it back. */
  predicate Holds(k: Worker, x: Id) {
    match k
    case Batch(_) => false
    case Claim(e, _) => e.id == x
    case Execute(e, _) => e.id == x
    case Succeeded(e, _) => e.id == x
    case Unlock(e, _) => e.id == x
    case Failed(e, _) => e.id == x
    case Requeue(e, _, _) => e.id == x
    case Buried(e, _) => e.id == x
    case Release(id, _) => id == x
  }

  predicate Guards(w: World, j: WorkerId, x: Id) {
    j in w.workers && Holds(w.workers[j], x)
  }

  /** Whoever holds x has its lock, and only one does. */
  predicate Exclusive(w: World, x: Id) {
    forall j | j in w.workers && Guards(w, j, x) :: x in w.locks && forall k | k in w.workers && Guards(w, k, x) :: k == j
  }

  /** The lock of x does not expire, and a script that deletes it learns that it did. */
  predicate Steady(w: World, a: Action, x: Id) {
    && a != ExpireLock(x)
    && (a.StepWorker? && a.j in w.workers && w.workers[a.j].Unlock? && w.workers[a.j].e.id == x ==> a.o != FailsLate)
  }

  predicate SteadyRun(w: World, acts: seq<Action>, x: Id)
    decreases |acts|
  {
    acts == [] || (Steady(w, acts[0], x) && SteadyRun(Step(w, acts[0]), acts[1..], x))
  }

  /** A worker takes x up only by taking its lock, and only its holder lets go of it. */
  predicate LockStep(w: World, w': World, j: WorkerId, x: Id) {
    && j in w.workers && j in w'.workers
    && (Holds(w'.workers[j], x) ==> Holds(w.workers[j], x) || x !in w.locks)
    && (Holds(w'.workers[j], x) ==> x in w'.locks)
    && (!Holds(w.workers[j], x) && x in w.locks ==> x in w'.locks)
  }

  lemma TryLocks(w: World, w': World, j: WorkerId, todo: seq<Entry>, o: Outcome, x: Id)
    requires j in w.workers && w.workers[j] == Batch(todo) && todo != [] && w' == DoTry(w, j, todo, o)
    ensures LockStep(w, w', j, x)
  {
  }

  lemma ClaimLocks(w: World, w': World, j: WorkerId, e: Entry, todo: seq<Entry>, o: Outcome, x: Id)
    requires j in w.workers && w.workers[j] == Claim(e, todo) && w' == DoClaim(w, j, e, todo, o) && (e.id == x ==> x in w.locks)
    ensures LockStep(w, w', j, x)
  {
    if o == Fine && e in w.pending {
      assert w'.workers == w.workers[j := Execute(e.(attempt := e.attempt + 1), todo)] && w'.locks == w.locks;
      return;
    }
    assert w'.workers == w.workers[j := OrStop(j, o, Release(e.id, todo))] && w'.locks == w.locks;
  }

  lemma ExecuteLocks(w: World, w': World, j: WorkerId, e: Entry, todo: seq<Entry>, o: Outcome, err: int, x: Id)
    requires j in w.workers && w.workers[j] == Execute(e, todo) && w' == DoExecute(w, j, e, todo, o, err) && (e.id == x ==> x in w.locks)
    ensures LockStep(w, w', j, x)
  {
  }

  lemma SuccessLocks(w: World, w': World, j: WorkerId, e: Entry, todo: seq<Entry>, o: Outcome, err: int, x: Id)
    requires j in w.workers && w.workers[j] == Succeeded(e, todo) && w' == DoSucceeded(w, j, e, todo, o, err) && (e.id == x ==> x in w.locks)
    ensures LockStep(w, w', j, x)
  {
    assert w'.locks == w.locks;
  }

  lemma UnlockLocks(w: World, w': World, j: WorkerId, e: Entry, todo: seq<Entry>, o: Outcome, err: int, x: Id)
    requires j in w.workers && w.workers[j] == Unlock(e, todo) && w' == DoUnlock(w, j, e, todo, o, err) && (e.id == x ==> x in w.locks && o != FailsLate)
    ensures LockStep(w, w', j, x)
  {
  }

  lemma FailedLocks(w: World, w': World, j: WorkerId, e: Entry, todo: seq<Entry>, o: Outcome, x: Id)
    requires j in w.workers && w.workers[j] == Failed(e, todo) && w' == DoFailed(w, j, e, todo, o) && (e.id == x ==> x in w.locks)
    ensures LockStep(w, w', j, x)
  {
    if e.attempt >= e.maxAttempts {
      assert w'.workers == w.workers[j := OrStop(j, o, Buried(e, todo))] && w'.locks == w.locks;
      return;
    }
  }

  lemma RequeueLocks(w: World, w': World, j: WorkerId, e: Entry, score: nat, todo: seq<Entry>, o: Outcome, x: Id)
    requires j in w.workers && w.workers[j] == Requeue(e, score, todo) && w' == DoRequeue(w, j, e, score, todo, o) && (e.id == x ==> x in w.locks)
    ensures LockStep(w, w', j, x)
  {
    assert w'.workers == w.workers[j := OrStop(j, o, Release(e.id, todo))] && w'.locks == w.locks;
  }

  lemma LastLocks(w: World, w': World, j: WorkerId, o: Outcome, err: int, x: Id)
    requires j in w.workers && (w.workers[j].Buried? || w.workers[j].Release?) && w' == DoWorker(w, j, o, err)
    requires Holds(w.workers[j], x) ==> x in w.locks
    ensures LockStep(w, w', j, x)
  {
    if w.workers[j].Buried? {
      return;
    }
  }

  lemma WorkerLocks(w: World, w': World, j: WorkerId, o: Outcome, err: int, x: Id)
    requires j in w.workers && w.workers[j] != Batch([]) && w' == DoWorker(w, j, o, err) && Steady(w, StepWorker(j, o, err), x)
    requires Holds(w.workers[j], x) ==> x in w.locks
    ensures LockStep(w, w', j, x)
  {
    match w.workers[j] {
      case Batch(todo) => TryLocks(w, w', j, todo, o, x);
      case Claim(e, todo) => ClaimLocks(w, w', j, e, todo, o, x);
      case Execute(e, todo) => ExecuteLocks(w, w', j, e, todo, o, err, x);
      case Succeeded(e, todo) => SuccessLocks(w, w', j, e, todo, o, err, x);
      case Unlock(e, todo) => UnlockLocks(w, w', j, e, todo, o, err, x);
      case Failed(e, todo) => FailedLocks(w, w', j, e, todo, o, x);
      case Requeue(e, score, todo) => RequeueLocks(w, w', j, e, score, todo, o, x);
      case Buried(_, _) => LastLocks(w, w', j, o, err, x);
      case Release(_, _) => LastLocks(w, w', j, o, err, x);
    }
  }

  lemma WorkerKeepsExclusive(w: World, w': World, j: WorkerId, o: Outcome, err: int, x: Id)
    requires Exclusive(w, x) && j in w.workers && w.workers[j] != Batch([])
    requires w' == DoWorker(w, j, o, err) && Steady(w, StepWorker(j, o, err), x)
    ensures Exclusive(w', x)
  {
    assert Holds(w.workers[j], x) ==> Guards(w, j, x);
    WorkerMovesAlone(w, j, o, err);
    WorkerLocks(w, w', j, o, err, x);
    forall i | i in w'.workers && Guards(w', i, x)
      ensures x in w'.locks && forall k | k in w'.workers && Guards(w', k, x) :: k == i
    {
      assert i != j ==> Guards(w, i, x);
      assert Holds(w.workers[j], x) ==> Guards(w, j, x);
      forall k | k in w'.workers && Guards(w', k, x)
        ensures k == i
      {
        assert k != j ==> Guards(w, k, x);
      }
    }
  }

  lemma EnqueuerKeepsLocks(w: World, w': World, i: nat, o: Outcome)
    requires i in w.enqueuers && w' == DoEnqueuer(w, i, o)
    ensures w'.locks == w.locks
  {
    match w.enqueuers[i] {
      case SetKeyNx(_) => return;
      case CheckKey(_) => return;
      case SetKey(_) => return;
      case Add(_) => return;
      case Over => return;
    }
  }

  /** A worker is as it was or has nothing in hand. */
  predicate AsItWas(w: World, w': World, j: WorkerId) {
    j in w'.workers && !w'.workers[j].Batch? ==> j in w.workers && w'.workers[j] == w.workers[j]
  }

  lemma CrashKeepsLocks(w: World, w': World, i: nat)
    requires w' == Step(w, CrashEnqueuer(i))
    ensures w.locks == w'.locks && w'.workers == w.workers
  {
    if i in w.enqueuers && w.enqueuers[i].Add? {
      return;
    }
  }

  lemma WorkerCrashKeepsLocks(w: World, w': World, k: WorkerId, j: WorkerId)
    requires w' == Step(w, CrashWorker(k))
    ensures w.locks == w'.locks && AsItWas(w, w', j)
  {
    if k in w.workers && Held(w.workers[k]).Some? {
      return;
    }
  }

  /** Any step but a worker's leaves the lock alone and nobody new with it. */
  lemma OtherKeepsLocks(w: World, w': World, a: Action, x: Id, j: WorkerId)
    requires !a.StepWorker? && a != ExpireLock(x) && w' == Step(w, a)
    ensures (x in w.locks <==> x in w'.locks) && AsItWas(w, w', j)
  {
    if a.StepEnqueuer? {
      if a.i in w.enqueuers {
        EnqueuerKeepsLocks(w, w', a.i, a.o);
        U.EnqueuerKeepsWorkers(w, a.i, a.o);
      }
      return;
    }
    if a.CrashEnqueuer? {
      CrashKeepsLocks(w, w', a.i);
      return;
    }
    if a.CrashWorker? {
      WorkerCrashKeepsLocks(w, w', a.j, j);
      return;
    }
  }

  lemma StepKeepsExclusive(w: World, a: Action, x: Id)
    requires Exclusive(w, x) && Steady(w, a, x)
    ensures Exclusive(Step(w, a), x)
  {
    var w' := Step(w, a);
    if a.StepWorker? {
      if a.j in w.workers && w.workers[a.j] != Batch([]) {
        WorkerKeepsExclusive(w, w', a.j, a.o, a.err, x);
      }
      return;
    }
    forall i | i in w'.workers && Guards(w', i, x)
      ensures x in w'.locks && forall k | k in w'.workers && Guards(w', k, x) :: k == i
    {
      OtherKeepsLocks(w, w', a, x, i);
      assert Guards(w, i, x);
      forall k | k in w'.workers && Guards(w', k, x)
        ensures k == i
      {
        OtherKeepsLocks(w, w', a, x, k);
        assert Guards(w, k, x);
      }
    }
  }

  lemma {:induction false} RunKeepsExclusive(w: World, acts: seq<Action>, x: Id)
    requires Exclusive(w, x) && SteadyRun(w, acts, x)
    ensures Exclusive(Run(w, acts), x)
    decreases |acts|
  {
    if acts != [] {
      StepKeepsExclusive(w, acts[0], x);
      RunKeepsExclusive(Step(w, acts[0]), acts[1..], x);
    }
  }

  /** On every run in which the lock of id x does not expire and no script loses the reply to
  its deletion, at most one worker of either language is at work on x at a time, and
  its lock is there. */
  lemma OneWorkerPerId(acts: seq<Action>, x: Id, i: WorkerId, j: WorkerId)
    requires SteadyRun(EMPTY, acts, x) && Guards(Run(EMPTY, acts), i, x) && Guards(Run(EMPTY, acts), j, x)
    ensures i == j && x in Run(EMPTY, acts).locks
  {
    RunKeepsExclusive(EMPTY, acts, x);
  }
}
