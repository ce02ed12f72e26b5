/** What holds of the reconciliation queue on every run. */
module ReconTheorems {
  import opened Wrappers
  import opened ReconQueue

  lemma ReachableInv(acts: seq<Action>)
    ensures Inv(Run(EMPTY, acts))
  {
    RunKeepsInv(EMPTY, acts);
  }

  lemma {:induction false} RunSplits(w: World, first: seq<Action>, second: seq<Action>)
    ensures Run(w, first + second) == Run(Run(w, first), second)
    decreases |first|
  {
    if first == [] {
      assert first + second == second;
    } else {
      RunSplits(Step(w, first[0]), first[1..], second);
      assert (first + second)[1..] == first[1..] + second;
    }
  }

  // ---- conservation ------------------------------------------------------

  /** At every moment of every run, an accepted operation is in exactly one place:
  with its enqueuer, one pending entry, one worker, one dead letter, finished or lost. */
  lemma ExactlyOnePlace(acts: seq<Action>, t: Ticket, p: Place)
    requires t in Run(EMPTY, acts).log
    ensures var w := Run(EMPTY, acts); At(w, t, p) <==> p == w.log[t].place
  {
    ReachableInv(acts);
    var w := Run(EMPTY, acts);
    assert LogOk(w, t);
    match p
    case AtEnqueuer(i) => assert i in w.enqueuers ==> EnqueuerOk(w, i, w.enqueuers[i]);
    case AtPending(e) => assert e in w.pending ==> PendingOk(w, e);
    case AtWorker(j) => assert j in w.workers ==> WorkerOk(w, j, w.workers[j]);
    case AtUnlock(j) => assert j in w.workers ==> WorkerOk(w, j, w.workers[j]);
    case Ended(DeadLettered(e)) => assert e in w.dlq ==> DeadOk(w, e);
    case Ended(_) =>
  }

  /** Nobody crashes and no Redis command fails; operations themselves may fail. */
  predicate Healthy(w: World, a: Action) {
    match a
    case CrashEnqueuer(_) => false
    case CrashWorker(_) => false
    case StepEnqueuer(_, o) => o == Fine
    case StepWorker(j, o, _) => o == Fine || (j in w.workers && w.workers[j].Execute?)
    case _ => true
  }

  predicate HealthyRun(w: World, acts: seq<Action>)
    decreases |acts|
  {
    acts == [] || (Healthy(w, acts[0]) && HealthyRun(Step(w, acts[0]), acts[1..]))
  }

  predicate NoneLost(w: World) {
    forall t | t in w.log :: w.log[t].place != Ended(Lost)
  }

  lemma HealthyClaimLosesNothing(w: World, j: WorkerId, e: Entry, todo: seq<Entry>)
    requires NoneLost(w)
    ensures NoneLost(DoClaim(w, j, e, todo, Fine))
  {
    if e in w.pending {
      return;
    }
  }

  lemma HealthyTryLosesNothing(w: World, w': World, j: WorkerId, o: Outcome, err: int)
    requires NoneLost(w) && j in w.workers && o == Fine && w' == DoWorker(w, j, o, err)
    requires w.workers[j].Batch? || w.workers[j].Claim? || w.workers[j].Buried? || w.workers[j].Release?
    ensures NoneLost(w')
  {
    if w.workers[j].Claim? {
      HealthyClaimLosesNothing(w, j, w.workers[j].e, w.workers[j].todo);
      return;
    }
    assert w'.log == w.log;
  }

  lemma HealthyRunLosesNothing(w: World, w': World, j: WorkerId, o: Outcome, err: int)
    requires NoneLost(w) && j in w.workers && (o == Fine || w.workers[j].Execute?) && w' == DoWorker(w, j, o, err)
    requires w.workers[j].Execute? || w.workers[j].Succeeded? || w.workers[j].Unlock? || w.workers[j].Requeue?
    ensures NoneLost(w')
  {
    match w.workers[j] {
      case Execute(_, _) => return;
      case Succeeded(_, _) => return;
      case Unlock(_, _) => return;
      case Requeue(_, _, _) => return;
    }
  }

  lemma HealthyWorkerLosesNothing(w: World, w': World, j: WorkerId, o: Outcome, err: int)
    requires NoneLost(w) && j in w.workers && (o == Fine || w.workers[j].Execute?) && w' == DoWorker(w, j, o, err)
    ensures NoneLost(w')
  {
    if w.workers[j].Failed? {
      HealthyFailureLosesNothing(w, j, w.workers[j].e, w.workers[j].todo);
    } else if Held(w.workers[j]).Some? {
      HealthyRunLosesNothing(w, w', j, o, err);
    } else {
      HealthyTryLosesNothing(w, w', j, o, err);
    }
  }

  lemma HealthyFailureLosesNothing(w: World, j: WorkerId, e: Entry, todo: seq<Entry>)
    requires NoneLost(w)
    ensures NoneLost(DoFailed(w, j, e, todo, Fine))
  {
  }

  lemma HealthyEnqueuerLosesNothing(w: World, i: nat)
    requires NoneLost(w) && i in w.enqueuers
    ensures NoneLost(DoEnqueuer(w, i, Fine))
  {
  }

  lemma HealthyStepLosesNothing(w: World, a: Action)
    requires NoneLost(w) && Healthy(w, a)
    ensures NoneLost(Step(w, a))
  {
    match a
    case StepEnqueuer(i, _) => if i in w.enqueuers { HealthyEnqueuerLosesNothing(w, i); }
    case StepWorker(j, o, err) => if j in w.workers { HealthyWorkerLosesNothing(w, Step(w, a), j, o, err); }
    case _ =>
  }

  lemma {:induction false} HealthyRunKeepsAll(w: World, acts: seq<Action>)
    requires NoneLost(w) && HealthyRun(w, acts)
    ensures NoneLost(Run(w, acts))
    decreases |acts|
  {
    if acts != [] {
      HealthyStepLosesNothing(w, acts[0]);
      HealthyRunKeepsAll(Step(w, acts[0]), acts[1..]);
    }
  }

  /** Without crashes and failed Redis commands no accepted operation is ever lost. */
  lemma NothingIsLost(acts: seq<Action>, t: Ticket)
    requires HealthyRun(EMPTY, acts) && t in Run(EMPTY, acts).log
    ensures Run(EMPTY, acts).log[t].place != Ended(Lost)
  {
    HealthyRunKeepsAll(EMPTY, acts);
  }

  // ---- attempts and delays -----------------------------------------------

  /** An accepted operation runs at most MAX_ATTEMPTS times, whoever crashes and
  whichever locks expire; if it is dead-lettered it ran exactly that often, its
  scheduled delays add up to 1000 * (2^(n-1) - 1) ms = 15 s, and at least that much
  time has passed since it was enqueued. */
  lemma AttemptsAndDelays(acts: seq<Action>, t: Ticket)
    requires t in Run(EMPTY, acts).log
    ensures var w := Run(EMPTY, acts); var l := w.log[t];
      && l.runs <= MAX_ATTEMPTS
      && (l.place.Ended? && l.place.how.DeadLettered? ==>
        l.runs == MAX_ATTEMPTS && l.delay == TotalDelay(MAX_ATTEMPTS - 1) == 15_000 && t.stamp + 15_000 <= w.now)
  {
    ReachableInv(acts);
    assert LogOk(Run(EMPTY, acts), t);
    assert Pow2(4) == 16;
  }

  /** An entry is claimed only when its score is due, and the score leaves room for the
  whole backoff so far: attempt n + 1 starts at least 1000 * (2^n - 1) ms after the stamp. */
  lemma ClaimedOnlyWhenDue(acts: seq<Action>, j: WorkerId)
    requires var w := Run(EMPTY, acts); j in w.workers && w.workers[j].Claim? && w.workers[j].e in w.pending
    ensures var w := Run(EMPTY, acts); var e := w.workers[j].e;
      e.createdAt + TotalDelay(e.attempt) <= w.pending[e] <= w.now
  {
    ReachableInv(acts);
    var w := Run(EMPTY, acts);
    var e := w.workers[j].e;
    assert WorkerOk(w, j, w.workers[j]) && PendingOk(w, e);
    assert e in Todo(w.workers[j]) && ListedOk(w, e);
  }

  // ---- a member is claimed once ------------------------------------------

  predicate Gone(w: World, e: Entry) {
    var t := TicketOf(e);
    t in w.log && (e.attempt < w.log[t].claims || w.log[t].place.Ended?)
  }

  /** How the account of a ticket may develop. */
  predicate LogGrows(l: Log, l': Log) {
    l.claims <= l'.claims && l.runs <= l'.runs && (l.place.Ended? ==> l'.place == l.place)
  }

  lemma ClaimLogGrows(w: World, j: WorkerId, e: Entry, todo: seq<Entry>, o: Outcome, t: Ticket)
    requires Inv(w) && t in w.log
    ensures t in DoClaim(w, j, e, todo, o).log && LogGrows(w.log[t], DoClaim(w, j, e, todo, o).log[t])
  {
    if e in w.pending {
      assert PendingOk(w, e);
    }
  }

  lemma RunLogGrowsHere(w: World, w': World, j: WorkerId, o: Outcome, err: int, t: Ticket)
    requires j in w.workers && HeldOk(w, j, w.workers[j]) && t in w.log
    requires w.workers[j].Execute? || w.workers[j].Succeeded? || w.workers[j].Unlock?
    requires w' == DoWorker(w, j, o, err)
    ensures t in w'.log && LogGrows(w.log[t], w'.log[t])
  {
    match w.workers[j] {
      case Execute(_, _) => return;
      case Succeeded(_, _) => return;
      case Unlock(_, _) => return;
    }
  }

  lemma FailureLogGrows(w: World, w': World, j: WorkerId, o: Outcome, err: int, t: Ticket)
    requires j in w.workers && HeldOk(w, j, w.workers[j]) && t in w.log
    requires (w.workers[j].Failed? || w.workers[j].Requeue?) && w' == DoWorker(w, j, o, err)
    ensures t in w'.log && LogGrows(w.log[t], w'.log[t])
  {
    match w.workers[j] {
      case Failed(e, _) =>
        if e.attempt >= e.maxAttempts {
          return;
        }
      case Requeue(_, _, _) => return;
    }
  }

  lemma HeldLogGrows(w: World, j: WorkerId, o: Outcome, err: int, t: Ticket)
    requires j in w.workers && HeldOk(w, j, w.workers[j]) && Held(w.workers[j]).Some? && t in w.log
    ensures t in DoWorker(w, j, o, err).log && LogGrows(w.log[t], DoWorker(w, j, o, err).log[t])
  {
    if w.workers[j].Failed? || w.workers[j].Requeue? {
      FailureLogGrows(w, DoWorker(w, j, o, err), j, o, err, t);
    } else {
      RunLogGrowsHere(w, DoWorker(w, j, o, err), j, o, err, t);
    }
  }

  lemma TryKeepsLog(w: World, j: WorkerId, todo: seq<Entry>, o: Outcome)
    requires todo != []
    ensures DoTry(w, j, todo, o).log == w.log
  {
  }

  lemma ClearingKeepsLog(w: World, w': World, j: WorkerId, o: Outcome, err: int)
    requires j in w.workers && (w.workers[j].Buried? || w.workers[j].Release?) && w' == DoWorker(w, j, o, err)
    ensures w'.log == w.log
  {
  }

  lemma IdleLogGrows(w: World, w': World, j: WorkerId, o: Outcome, err: int, t: Ticket)
    requires Inv(w) && j in w.workers && Held(w.workers[j]) == None && t in w.log && w' == DoWorker(w, j, o, err)
    ensures t in w'.log && LogGrows(w.log[t], w'.log[t])
  {
    if w.workers[j].Claim? {
      ClaimLogGrows(w, j, w.workers[j].e, w.workers[j].todo, o, t);
      return;
    }
    if w.workers[j].Batch? {
      if w.workers[j].todo != [] {
        TryKeepsLog(w, j, w.workers[j].todo, o);
      }
      return;
    }
    ClearingKeepsLog(w, w', j, o, err);
  }

  lemma WorkerLogGrows(w: World, j: WorkerId, o: Outcome, err: int, t: Ticket)
    requires Inv(w) && j in w.workers && t in w.log
    ensures t in DoWorker(w, j, o, err).log && LogGrows(w.log[t], DoWorker(w, j, o, err).log[t])
  {
    if Held(w.workers[j]).Some? {
      assert WorkerOk(w, j, w.workers[j]);
      HeldLogGrows(w, j, o, err, t);
    } else {
      IdleLogGrows(w, DoWorker(w, j, o, err), j, o, err, t);
    }
  }

  lemma CrashEnqueuerLogGrows(w: World, i: nat, t: Ticket)
    requires t in w.log && (i in w.enqueuers ==> EnqueuerOk(w, i, w.enqueuers[i]))
    ensures t in Step(w, CrashEnqueuer(i)).log && LogGrows(w.log[t], Step(w, CrashEnqueuer(i)).log[t])
  {
    if i !in w.enqueuers || !w.enqueuers[i].Add? {
      return;
    }
  }

  lemma CrashWorkerLogGrows(w: World, j: WorkerId, t: Ticket)
    requires t in w.log && (j in w.workers ==> HeldOk(w, j, w.workers[j]))
    ensures t in Step(w, CrashWorker(j)).log && LogGrows(w.log[t], Step(w, CrashWorker(j)).log[t])
  {
  }

  lemma EnqueuerLogGrows(w: World, i: nat, o: Outcome, t: Ticket)
    requires i in w.enqueuers && EnqueuerOk(w, i, w.enqueuers[i]) && t in w.log
    ensures t in DoEnqueuer(w, i, o).log && LogGrows(w.log[t], DoEnqueuer(w, i, o).log[t])
  {
    match w.enqueuers[i] {
      case SetKeyNx(_) => return;
      case SetKey(_) => return;
      case Add(_) => return;
      case _ => return;
    }
  }

  lemma StepLogGrows(w: World, a: Action, t: Ticket)
    requires Inv(w) && t in w.log
    ensures t in Step(w, a).log && LogGrows(w.log[t], Step(w, a).log[t])
  {
    match a
    case StepWorker(j, o, err) => if j in w.workers { WorkerLogGrows(w, j, o, err, t); }
    case StepEnqueuer(i, o) => if i in w.enqueuers { EnqueuerLogGrows(w, i, o, t); }
    case CrashEnqueuer(i) =>
      assert i in w.enqueuers ==> EnqueuerOk(w, i, w.enqueuers[i]);
      CrashEnqueuerLogGrows(w, i, t);
    case CrashWorker(j) =>
      assert j in w.workers ==> WorkerOk(w, j, w.workers[j]);
      CrashWorkerLogGrows(w, j, t);
    case _ => assert Step(w, a).log == w.log;
  }

  lemma {:induction false} GoneForever(w: World, acts: seq<Action>, e: Entry)
    requires Inv(w) && Gone(w, e)
    ensures Gone(Run(w, acts), e) && e !in Run(w, acts).pending
    decreases |acts|
  {
    if acts == [] {
      assert e in w.pending ==> PendingOk(w, e);
    } else {
      StepKeepsInv(w, acts[0]);
      StepLogGrows(w, acts[0], TicketOf(e));
      GoneForever(Step(w, acts[0]), acts[1..], e);
    }
  }

  /** A member that a worker has claimed never comes back to the queue.  Only members in
  the queue can be claimed, so each is claimed, and hence executed, by at most one
  worker -- although locks may have expired or been deleted by somebody else. */
  lemma ClaimedOnce(past: seq<Action>, j: WorkerId, err: int, next: seq<Action>)
    requires var w := Run(EMPTY, past); j in w.workers && w.workers[j].Claim? && w.workers[j].e in w.pending
    ensures var w := Run(EMPTY, past); var v := Step(w, StepWorker(j, Fine, err));
      Held(v.workers[j]).Some? && w.workers[j].e !in Run(v, next).pending
  {
    ReachableInv(past);
    var w := Run(EMPTY, past);
    var v := Step(w, StepWorker(j, Fine, err));
    StepKeepsInv(w, StepWorker(j, Fine, err));
    assert PendingOk(w, w.workers[j].e);
    GoneForever(v, next, w.workers[j].e);
  }

  /** A claim, a retry and an ending each keep what was recorded: runs are never uncounted. */
  lemma {:induction false} RunLogGrows(w: World, acts: seq<Action>, t: Ticket)
    requires Inv(w) && t in w.log
    ensures t in Run(w, acts).log && LogGrows(w.log[t], Run(w, acts).log[t])
    decreases |acts|
  {
    if acts != [] {
      StepKeepsInv(w, acts[0]);
      StepLogGrows(w, acts[0], t);
      RunLogGrows(Step(w, acts[0]), acts[1..], t);
    }
  }

}
