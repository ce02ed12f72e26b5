/** When two operations of one id can be in flight at once: exactly which steps let a
second one in, and which guards keep it out.
*/
module ReconUniqueness {
  import opened Wrappers
  import opened ReconQueue
  import opened ReconTheorems

  /** Accepted and still to be settled. */
  predicate InFlight(w: World, t: Ticket) {
    t in w.log && (w.log[t].place.AtEnqueuer? || w.log[t].place.AtPending? || w.log[t].place.AtWorker?)
  }

  ghost predicate Unique(w: World, x: Id) {
    forall t, u | InFlight(w, t) && InFlight(w, u) :: t.id == x && u.id == x ==> t == u
  }

  ghost predicate SomeInFlight(w: World, x: Id) {
    exists t :: InFlight(w, t) && t.id == x
  }

  // ---- who comes into flight ---------------------------------------------

  /** This step of an enqueuer accepts its entry: the gateway's does unless SET NX answers
  that the key is there, the application's after its SETEX. */
  predicate Accepts(w: World, q: Enqueuer, o: Outcome) {
    match q
    case SetKeyNx(e) => !(o == Fine && KeyLive(w, e.id))
    case SetKey(_) => o == Fine
    case _ => false
  }

  /** A new operation, or one that a script has executed and, its lock not deleted, queues
  again although its key is gone. */
  function Entering(w: World, a: Action): Option<Ticket> {
    match a
    case StepEnqueuer(i, o) =>
      if i in w.enqueuers && Accepts(w, w.enqueuers[i], o) then Some(TicketOf(w.enqueuers[i].e)) else None
    case StepWorker(j, o, _) =>
      if j in w.workers && w.workers[j].Unlock? && o != Fine then Some(TicketOf(w.workers[j].e)) else None
    case _ => None
  }

  predicate SameFlight(w: World, w': World, u: Ticket) {
    (InFlight(w', u) ==> InFlight(w, u)) && (u in w.log && u in w'.log ==> w'.log[u].keyUntil == w.log[u].keyUntil)
  }

  lemma EnqueuerFlight(w: World, i: nat, o: Outcome, u: Ticket)
    requires i in w.enqueuers && EnqueuerOk(w, i, w.enqueuers[i])
    requires Accepts(w, w.enqueuers[i], o) ==> u != TicketOf(w.enqueuers[i].e)
    ensures SameFlight(w, DoEnqueuer(w, i, o), u)
    ensures Accepts(w, w.enqueuers[i], o) && InFlight(w, u) ==> InFlight(DoEnqueuer(w, i, o), u)
  {
  }

  lemma ClaimFlight(w: World, j: WorkerId, e: Entry, todo: seq<Entry>, o: Outcome, u: Ticket)
    requires e in w.pending ==> PendingOk(w, e)
    ensures SameFlight(w, DoClaim(w, j, e, todo, o), u)
  {
  }

  lemma SettleFlight(w: World, j: WorkerId, o: Outcome, err: int, u: Ticket)
    requires j in w.workers && HeldOk(w, j, w.workers[j]) && (w.workers[j].Succeeded? || w.workers[j].Unlock? || w.workers[j].Execute?)
    requires w.workers[j].Unlock? && o != Fine ==> u != TicketOf(w.workers[j].e)
    ensures SameFlight(w, DoWorker(w, j, o, err), u)
    ensures w.workers[j].Unlock? && o != Fine && InFlight(w, u) ==> InFlight(DoWorker(w, j, o, err), u)
  {
    match w.workers[j] {
      case Execute(_, _) =>
      case Succeeded(_, _) =>
      case Unlock(_, _) =>
    }
  }

  lemma FailFlight(w: World, j: WorkerId, o: Outcome, err: int, u: Ticket)
    requires j in w.workers && HeldOk(w, j, w.workers[j]) && (w.workers[j].Failed? || w.workers[j].Requeue?)
    ensures SameFlight(w, DoWorker(w, j, o, err), u)
  {
    match w.workers[j] {
      case Failed(_, _) =>
      case Requeue(_, _, _) =>
    }
  }

  lemma WorkerFlight(w: World, w': World, j: WorkerId, o: Outcome, err: int, u: Ticket)
    requires Inv(w) && j in w.workers && w' == DoWorker(w, j, o, err)
    requires w.workers[j].Unlock? && o != Fine ==> u != TicketOf(w.workers[j].e)
    ensures SameFlight(w, w', u)
    ensures w.workers[j].Unlock? && o != Fine && InFlight(w, u) ==> InFlight(w', u)
  {
    assert WorkerOk(w, j, w.workers[j]);
    if w.workers[j].Execute? || w.workers[j].Succeeded? || w.workers[j].Unlock? {
      SettleFlight(w, j, o, err, u);
    } else if w.workers[j].Failed? || w.workers[j].Requeue? {
      FailFlight(w, j, o, err, u);
    } else {
      IdleFlight(w, w', j, o, err, u);
    }
  }

  lemma IdleFlight(w: World, w': World, j: WorkerId, o: Outcome, err: int, u: Ticket)
    requires Inv(w) && j in w.workers && w' == DoWorker(w, j, o, err)
    requires w.workers[j].Claim? || w.workers[j].Batch? || w.workers[j].Buried? || w.workers[j].Release?
    ensures SameFlight(w, w', u)
  {
    if w.workers[j].Claim? {
      ClaimFlight(w, j, w.workers[j].e, w.workers[j].todo, o, u);
      return;
    }
    assert w'.log == w.log;
  }

  lemma CrashEnqueuerFlight(w: World, i: nat, u: Ticket)
    requires i in w.enqueuers ==> EnqueuerOk(w, i, w.enqueuers[i])
    ensures SameFlight(w, Step(w, CrashEnqueuer(i)), u)
  {
    if i !in w.enqueuers || !w.enqueuers[i].Add? {
      return;
    }
  }

  lemma CrashWorkerFlight(w: World, j: WorkerId, u: Ticket)
    requires j in w.workers ==> HeldOk(w, j, w.workers[j])
    ensures SameFlight(w, Step(w, CrashWorker(j)), u)
  {
    if j !in w.workers || Held(w.workers[j]) == None {
      return;
    }
  }

  lemma CrashFlight(w: World, a: Action, u: Ticket)
    requires Inv(w) && !a.StepEnqueuer? && !a.StepWorker?
    ensures SameFlight(w, Step(w, a), u)
  {
    match a {
      case CrashEnqueuer(i) =>
        assert i in w.enqueuers ==> EnqueuerOk(w, i, w.enqueuers[i]);
        CrashEnqueuerFlight(w, i, u);
        return;
      case CrashWorker(j) =>
        assert j in w.workers ==> WorkerOk(w, j, w.workers[j]);
        CrashWorkerFlight(w, j, u);
        return;
      case _ => return;
    }
  }

  /** Nothing else comes into flight, and what comes in pushes nothing out. */
  lemma FlightFrame(w: World, a: Action, u: Ticket)
    requires Inv(w) && Entering(w, a) != Some(u)
    ensures SameFlight(w, Step(w, a), u)
    ensures Entering(w, a).Some? && InFlight(w, u) ==> InFlight(Step(w, a), u)
  {
    match a {
      case StepEnqueuer(i, o) =>
        if i in w.enqueuers {
          assert EnqueuerOk(w, i, w.enqueuers[i]);
          EnqueuerFlight(w, i, o, u);
        }
      case StepWorker(j, o, err) =>
        if j in w.workers {
          WorkerFlight(w, Step(w, a), j, o, err, u);
        }
      case _ => CrashFlight(w, a, u);
    }
  }

  lemma Enters(w: World, a: Action, t: Ticket)
    requires Inv(w) && Entering(w, a) == Some(t)
    ensures InFlight(Step(w, a), t) && !InFlight(w, t)
  {
    match a {
      case StepEnqueuer(i, _) => assert EnqueuerOk(w, i, w.enqueuers[i]);
      case StepWorker(j, _, _) => assert WorkerOk(w, j, w.workers[j]);
    }
  }

  // ---- exactly which steps break uniqueness ------------------------------

  /** An operation of id x comes into flight beside another. */
  ghost predicate Breaks(w: World, a: Action, x: Id) {
    Entering(w, a).Some? && Entering(w, a).value.id == x && SomeInFlight(w, x)
  }

  /** From a state with at most one operation of id x in flight, a step leads to two if and
  only if it accepts one, or a script puts one back, while another is in flight. */
  lemma StepBreaksExactlyWhen(w: World, a: Action, x: Id)
    requires Inv(w) && Unique(w, x)
    ensures !Unique(Step(w, a), x) <==> Breaks(w, a, x)
  {
    var w' := Step(w, a);
    if Breaks(w, a, x) {
      var t := Entering(w, a).value;
      var u := AnyInFlight(w, x);
      Enters(w, a, t);
      FlightFrame(w, a, u);
      assert InFlight(w', t) && InFlight(w', u) && t != u;
    } else {
      forall t, u | InFlight(w', t) && InFlight(w', u) && t.id == x && u.id == x
        ensures t == u
      {
        if Entering(w, a) != Some(t) {
          FlightFrame(w, a, t);
        }
        if Entering(w, a) != Some(u) {
          FlightFrame(w, a, u);
        }
      }
    }
  }

  lemma AnyInFlight(w: World, x: Id) returns (u: Ticket)
    requires SomeInFlight(w, x)
    ensures InFlight(w, u) && u.id == x
  {
    u :| InFlight(w, u) && u.id == x;
  }

  ghost predicate UniqueThroughout(w: World, acts: seq<Action>, x: Id)
    decreases |acts|
  {
    Unique(w, x) && (acts == [] || UniqueThroughout(Step(w, acts[0]), acts[1..], x))
  }

  ghost predicate NeverBreaks(w: World, acts: seq<Action>, x: Id)
    decreases |acts|
  {
    acts == [] || (!Breaks(w, acts[0], x) && NeverBreaks(Step(w, acts[0]), acts[1..], x))
  }

  lemma {:induction false} ThroughoutFrom(w: World, acts: seq<Action>, x: Id)
    requires Inv(w) && Unique(w, x)
    ensures UniqueThroughout(w, acts, x) <==> NeverBreaks(w, acts, x)
    decreases |acts|
  {
    if acts != [] {
      StepBreaksExactlyWhen(w, acts[0], x);
      StepKeepsInv(w, acts[0]);
      if Unique(Step(w, acts[0]), x) {
        ThroughoutFrom(Step(w, acts[0]), acts[1..], x);
      }
    }
  }

  /** In every run: at each moment at most one operation of id x is in flight, if and only if
  no step of the run is a breaking one. */
  lemma UniqueExactlyWhen(acts: seq<Action>, x: Id)
    ensures UniqueThroughout(EMPTY, acts, x) <==> NeverBreaks(EMPTY, acts, x)
  {
    ThroughoutFrom(EMPTY, acts, x);
  }

  /** What a breaking step looks like at an enqueuer: the application's SETEX breaks
  uniqueness iff another operation of the id is in flight; the gateway's SET NX iff so and
  the key is not live any more, or the command reported an error. */
  lemma AcceptanceBreaksExactlyWhen(w: World, i: nat, o: Outcome)
    requires Inv(w) && i in w.enqueuers && !w.enqueuers[i].Over? && Unique(w, w.enqueuers[i].e.id)
    ensures var q := w.enqueuers[i]; var x := q.e.id;
      !Unique(Step(w, StepEnqueuer(i, o)), x) <==>
        SomeInFlight(w, x) && match q
                              case SetKeyNx(_) => o != Fine || !KeyLive(w, x)
                              case SetKey(_) => o == Fine
                              case _ => false
  {
    StepBreaksExactlyWhen(w, StepEnqueuer(i, o), w.enqueuers[i].e.id);
  }

  // ---- what keeps them out -----------------------------------------------

  predicate Buries(k: Worker, t: Ticket) {
    k.Buried? && TicketOf(k.e) == t
  }

  /** Some process still works on the ticket, if only to delete its key. */
  predicate Busy(w: World, t: Ticket) {
    InFlight(w, t) || (t in w.log && exists j | j in w.workers :: Buries(w.workers[j], t))
  }

  /** No busy operation of id x has outlived its key. */
  predicate Young(w: World, x: Id) {
    forall t | t in w.log && t.id == x && Busy(w, t) :: w.now < w.log[t].keyUntil
  }

  /** The script has found no key of id x and is about to set it. */
  predicate Setting(w: World, i: nat, x: Id) {
    i in w.enqueuers && w.enqueuers[i].SetKey? && w.enqueuers[i].e.id == x
  }

  /** This step looks whether there is a key of id x. */
  predicate Looks(w: World, i: nat, x: Id) {
    i in w.enqueuers && (w.enqueuers[i].SetKeyNx? || w.enqueuers[i].CheckKey?) && w.enqueuers[i].e.id == x
  }

  /** Nobody looks for a key of id x between a script's check and its set, and a script's
  clean-up deletions for x work: the key's does not lose its reply, the lock's does not fail. */
  predicate Guarded(w: World, a: Action, x: Id) {
    match a
    case StepEnqueuer(i, _) => Looks(w, i, x) ==> forall k | k in w.enqueuers :: !Setting(w, k, x)
    case StepWorker(j, o, _) =>
      j in w.workers && j.Script? ==>
        && (w.workers[j].Succeeded? && w.workers[j].e.id == x ==> o != FailsLate)
        && (w.workers[j].Unlock? && w.workers[j].e.id == x ==> o == Fine)
    case _ => true
  }

  predicate GuardedRun(w: World, acts: seq<Action>, x: Id)
    decreases |acts|
  {
    Young(w, x) && (acts == [] || (Guarded(w, acts[0], x) && GuardedRun(Step(w, acts[0]), acts[1..], x)))
  }

  /** What is being buried is dead or lost, and only one worker buries it. */
  predicate BurialsOk(w: World) {
    && (forall j | j in w.workers && w.workers[j].Buried? ::
      TicketOf(w.workers[j].e) in w.log && w.log[TicketOf(w.workers[j].e)].place.Ended?)
    && (forall j, k | j in w.workers && k in w.workers && j != k && w.workers[j].Buried? && w.workers[k].Buried? ::
      TicketOf(w.workers[j].e) != TicketOf(w.workers[k].e))
  }

  predicate KeyHeld(w: World, t: Ticket)
    requires t in w.log
  {
    t.id in w.idem && w.idem[t.id] == w.log[t].keyUntil
  }

  predicate OnePerId(w: World, x: Id) {
    && (forall t | t in w.log && Busy(w, t) :: t.id == x ==> KeyHeld(w, t))
    && (forall t, u | t in w.log && u in w.log && Busy(w, t) && Busy(w, u) :: t.id == x && u.id == x ==> t == u)
  }

  predicate Quiet(w: World, x: Id) {
    forall t | t in w.log && Busy(w, t) :: t.id != x
  }

  /** A script about to set the key of id x is alone with it. */
  predicate SettersAlone(w: World, x: Id) {
    forall i | i in w.enqueuers && Setting(w, i, x) :: Quiet(w, x) && forall k | k in w.enqueuers && Setting(w, k, x) :: k == i
  }

  predicate Exclusive(w: World, x: Id) {
    SettersAlone(w, x) && BurialsOk(w) && OnePerId(w, x)
  }

  // ---- burials -----------------------------------------------------------

  lemma FailureStartsBurial(w: World, j: WorkerId, e: Entry, todo: seq<Entry>, o: Outcome)
    requires TicketOf(e) in w.log
    ensures var w' := DoFailed(w, j, e, todo, o);
      j in w'.workers && w'.workers[j].Buried? ==> w'.workers[j].e == e && TicketOf(e) in w'.log && w'.log[TicketOf(e)].place.Ended?
  {
    if e.attempt >= e.maxAttempts {
      return;
    }
  }

  lemma OthersStartNone(w: World, j: WorkerId, o: Outcome, err: int)
    requires j in w.workers && !w.workers[j].Failed? && w.workers[j] != Batch([])
    ensures var w' := DoWorker(w, j, o, err); j in w'.workers ==> !w'.workers[j].Buried?
  {
    match w.workers[j] {
      case Claim(_, _) => return;
      case Requeue(_, _, _) => return;
      case Succeeded(_, _) => return;
      case Unlock(_, _) => return;
      case _ => return;
    }
  }

  /** The step that starts a burial ends its ticket; nobody else's burial changes. */
  lemma BurialStarts(w: World, j: WorkerId, o: Outcome, err: int)
    requires Inv(w) && j in w.workers
    ensures var w' := DoWorker(w, j, o, err);
      && (forall k | k in w'.workers && k != j :: k in w.workers && w'.workers[k] == w.workers[k])
      && (j in w'.workers && w'.workers[j].Buried? ==>
        var t := TicketOf(w'.workers[j].e);
        InFlight(w, t) && t in w'.log && w'.log[t].place.Ended?)
  {
    assert WorkerOk(w, j, w.workers[j]);
    if w.workers[j] != Batch([]) {
      WorkerMovesAlone(w, j, o, err);
      if w.workers[j].Failed? {
        FailureStartsBurial(w, j, w.workers[j].e, w.workers[j].todo, o);
      } else {
        OthersStartNone(w, j, o, err);
      }
    }
  }

  lemma AcceptKeepsWorkers(w: World, i: nat, o: Outcome)
    requires i in w.enqueuers && (w.enqueuers[i].SetKeyNx? || w.enqueuers[i].SetKey?)
    ensures DoEnqueuer(w, i, o).workers == w.workers
  {
    if w.enqueuers[i].SetKeyNx? {
      return;
    }
  }

  lemma EnqueuerKeepsWorkers(w: World, i: nat, o: Outcome)
    requires i in w.enqueuers
    ensures DoEnqueuer(w, i, o).workers == w.workers
  {
    if w.enqueuers[i].SetKeyNx? || w.enqueuers[i].SetKey? {
      AcceptKeepsWorkers(w, i, o);
      return;
    }
    if w.enqueuers[i].Add? {
      return;
    }
  }

  lemma OtherBurials(w: World, a: Action)
    requires !a.StepWorker?
    ensures forall k | k in Step(w, a).workers && Step(w, a).workers[k].Buried? :: k in w.workers && Step(w, a).workers[k] == w.workers[k]
  {
    if a.StepEnqueuer? {
      if a.i in w.enqueuers {
        EnqueuerKeepsWorkers(w, a.i, a.o);
      }
    } else {
      IdleBurials(w, a);
    }
  }

  lemma IdleBurials(w: World, a: Action)
    requires !a.StepWorker? && !a.StepEnqueuer?
    ensures forall k | k in Step(w, a).workers && Step(w, a).workers[k].Buried? :: k in w.workers && Step(w, a).workers[k] == w.workers[k]
  {
    if a.CrashWorker? {
      if a.j in w.workers {
        assert Step(w, a).workers == w.workers[a.j := Batch([])];
      }
      return;
    }
    if a.List? {
      return;
    }
    assert Step(w, a).workers == w.workers;
  }

  lemma StepKeepsBurials(w: World, a: Action)
    requires Inv(w) && BurialsOk(w)
    ensures BurialsOk(Step(w, a))
  {
    var w' := Step(w, a);
    if a.StepWorker? && a.j in w.workers {
      BurialStarts(w, a.j, a.o, a.err);
    } else if !a.StepWorker? {
      OtherBurials(w, a);
    }
    forall j | j in w'.workers && w'.workers[j].Buried?
      ensures TicketOf(w'.workers[j].e) in w'.log && w'.log[TicketOf(w'.workers[j].e)].place.Ended?
    {
      if j in w.workers && w.workers[j] == w'.workers[j] {
        StepLogGrows(w, a, TicketOf(w.workers[j].e));
      }
    }
  }

  // ---- who is busy -------------------------------------------------------

  /** A step makes nobody busy but the one who comes into flight. */
  lemma BusyFrame(w: World, a: Action, u: Ticket)
    requires Inv(w) && BurialsOk(w) && Entering(w, a) != Some(u) && Busy(Step(w, a), u)
    ensures u in w.log && Busy(w, u) && Step(w, a).log[u].keyUntil == w.log[u].keyUntil
  {
    var w' := Step(w, a);
    FlightFrame(w, a, u);
    if !InFlight(w', u) {
      var k :| k in w'.workers && Buries(w'.workers[k], u);
      if a.StepWorker? && a.j in w.workers {
        BurialStarts(w, a.j, a.o, a.err);
        if k != a.j {
          assert Buries(w.workers[k], u);
        }
      } else if !a.StepWorker? {
        OtherBurials(w, a);
        assert Buries(w.workers[k], u);
      }
    }
  }

  predicate SameKey(w: World, w': World, x: Id) {
    (x in w.idem <==> x in w'.idem) && (x in w.idem ==> w.idem[x] == w'.idem[x])
  }

  /** The ticket whose key this step of a worker deletes, if the command takes effect. */
  predicate Deletes(w: World, a: Action, x: Id) {
    && a.StepWorker? && a.j in w.workers && Effective(a.o)
    && (w.workers[a.j].Succeeded? || w.workers[a.j].Buried?) && w.workers[a.j].e.id == x
  }

  lemma KeyFrame(w: World, a: Action, x: Id)
    requires !Deletes(w, a, x) && !(a.StepEnqueuer? && Setting(w, a.i, x))
    requires Entering(w, a).None? || Entering(w, a).value.id != x
    ensures SameKey(w, Step(w, a), x)
  {
    match a {
      case StepEnqueuer(i, o) => if i in w.enqueuers { EnqueuerKeyFrame(w, Step(w, a), i, o, x); }
      case StepWorker(j, o, err) => if j in w.workers { WorkerKeyFrame(w, Step(w, a), j, o, err, x); }
      case _ =>
    }
  }

  lemma EnqueuerKeyFrame(w: World, w': World, i: nat, o: Outcome, x: Id)
    requires i in w.enqueuers && w' == DoEnqueuer(w, i, o) && !Setting(w, i, x)
    requires Accepts(w, w.enqueuers[i], o) ==> w.enqueuers[i].e.id != x
    ensures SameKey(w, w', x)
  {
    match w.enqueuers[i] {
      case SetKeyNx(_) => OneLookKeyFrame(w, w', i, o, x);
      case SetKey(_) => return;
      case CheckKey(_) => return;
      case Add(_) => AddKeepsKeys(w, w', i, o);
      case Over => return;
    }
  }

  lemma OneLookKeyFrame(w: World, w': World, i: nat, o: Outcome, x: Id)
    requires i in w.enqueuers && w.enqueuers[i].SetKeyNx? && w' == DoEnqueuer(w, i, o)
    requires Accepts(w, w.enqueuers[i], o) ==> w.enqueuers[i].e.id != x
    ensures SameKey(w, w', x)
  {
    if o == Fine && KeyLive(w, w.enqueuers[i].e.id) {
      return;
    }
  }

  lemma AddKeepsKeys(w: World, w': World, i: nat, o: Outcome)
    requires i in w.enqueuers && w.enqueuers[i].Add? && w' == DoEnqueuer(w, i, o)
    ensures w'.idem == w.idem
  {
    if !Effective(o) {
      return;
    }
  }

  lemma ClaimKeepsKeys(w: World, j: WorkerId, e: Entry, todo: seq<Entry>, o: Outcome)
    ensures DoClaim(w, j, e, todo, o).idem == w.idem
  {
  }

  lemma ExecuteKeepsKeys(w: World, j: WorkerId, e: Entry, todo: seq<Entry>, o: Outcome, err: int)
    ensures DoExecute(w, j, e, todo, o, err).idem == w.idem
  {
  }

  lemma UnlockKeepsKeys(w: World, j: WorkerId, e: Entry, todo: seq<Entry>, o: Outcome, err: int)
    ensures DoUnlock(w, j, e, todo, o, err).idem == w.idem
  {
  }

  lemma FailureKeepsKeys(w: World, j: WorkerId, e: Entry, todo: seq<Entry>, o: Outcome)
    ensures DoFailed(w, j, e, todo, o).idem == w.idem
  {
    if e.attempt >= e.maxAttempts {
      return;
    }
  }

  lemma RequeueKeepsKeys(w: World, j: WorkerId, e: Entry, score: nat, todo: seq<Entry>, o: Outcome)
    ensures DoRequeue(w, j, e, score, todo, o).idem == w.idem
  {
  }

  lemma SuccessKeepsKeys(w: World, j: WorkerId, e: Entry, todo: seq<Entry>, o: Outcome, err: int, x: Id)
    requires e.id != x || o == Fails
    ensures SameKey(w, DoSucceeded(w, j, e, todo, o, err), x)
  {
  }

  lemma AttemptKeyFrame(w: World, w': World, j: WorkerId, o: Outcome, err: int)
    requires j in w.workers && (w.workers[j].Claim? || w.workers[j].Execute? || w.workers[j].Unlock?) && w' == DoWorker(w, j, o, err)
    ensures w'.idem == w.idem
  {
    match w.workers[j] {
      case Claim(e, todo) => ClaimKeepsKeys(w, j, e, todo, o);
      case Execute(e, todo) => ExecuteKeepsKeys(w, j, e, todo, o, err);
      case Unlock(e, todo) => UnlockKeepsKeys(w, j, e, todo, o, err);
    }
  }

  lemma FailureKeyFrame(w: World, w': World, j: WorkerId, o: Outcome, err: int)
    requires j in w.workers && (w.workers[j].Failed? || w.workers[j].Requeue?) && w' == DoWorker(w, j, o, err)
    ensures w'.idem == w.idem
  {
    match w.workers[j] {
      case Failed(e, todo) => FailureKeepsKeys(w, j, e, todo, o);
      case Requeue(e, score, todo) => RequeueKeepsKeys(w, j, e, score, todo, o);
    }
  }

  lemma OtherKeyFrame(w: World, w': World, j: WorkerId, o: Outcome, err: int, x: Id)
    requires j in w.workers && (w.workers[j].Batch? || w.workers[j].Buried? || w.workers[j].Release? || w.workers[j].Succeeded?)
    requires !Deletes(w, StepWorker(j, o, err), x) && w' == DoWorker(w, j, o, err)
    ensures SameKey(w, w', x)
  {
    match w.workers[j] {
      case Succeeded(e, todo) => SuccessKeepsKeys(w, j, e, todo, o, err, x);
      case _ => return;
    }
  }

  lemma WorkerKeyFrame(w: World, w': World, j: WorkerId, o: Outcome, err: int, x: Id)
    requires j in w.workers && !Deletes(w, StepWorker(j, o, err), x) && w' == DoWorker(w, j, o, err)
    ensures SameKey(w, w', x)
  {
    if w.workers[j].Claim? || w.workers[j].Execute? || w.workers[j].Unlock? {
      AttemptKeyFrame(w, w', j, o, err);
    } else if w.workers[j].Failed? || w.workers[j].Requeue? {
      FailureKeyFrame(w, w', j, o, err);
    } else {
      OtherKeyFrame(w, w', j, o, err, x);
    }
  }

  /** After its key is deleted nothing of id x is busy: the one operation there was is settled. */
  lemma DeletionSettles(w: World, a: Action, x: Id, u: Ticket)
    requires Inv(w) && Exclusive(w, x) && Deletes(w, a, x) && Guarded(w, a, x) && u.id == x
    ensures !Busy(Step(w, a), u)
  {
    var k, w' := w.workers[a.j], Step(w, a);
    var t := TicketOf(k.e);
    assert WorkerOk(w, a.j, k);
    assert Busy(w, t) && t in w.log by {
      assert k.Buried? ==> Buries(k, t);
    }
    if Busy(w', u) {
      BusyFrame(w, a, u);
      SettledByDeletion(w, a, t);
      NobodyBuries(w, a, t);
    }
  }

  lemma NobodyBuries(w: World, a: Action, t: Ticket)
    requires Inv(w) && BurialsOk(w) && a.StepWorker? && a.j in w.workers
    requires (w.workers[a.j].Succeeded? || w.workers[a.j].Buried?) && t == TicketOf(w.workers[a.j].e)
    ensures forall i | i in Step(w, a).workers :: !Buries(Step(w, a).workers[i], t)
  {
    var w' := Step(w, a);
    assert WorkerOk(w, a.j, w.workers[a.j]);
    OthersStartNone(w, a.j, a.o, a.err);
    WorkerMovesAlone(w, a.j, a.o, a.err);
    OthersBuryOthers(w, a.j, t);
    forall i | i in w'.workers ensures !Buries(w'.workers[i], t) {
      if i != a.j {
        assert w'.workers[i] == w.workers[i];
      }
    }
  }

  lemma OthersBuryOthers(w: World, j: WorkerId, t: Ticket)
    requires BurialsOk(w) && j in w.workers && HeldOk(w, j, w.workers[j])
    requires (w.workers[j].Succeeded? || w.workers[j].Buried?) && t == TicketOf(w.workers[j].e)
    ensures forall i | i in w.workers && i != j :: !Buries(w.workers[i], t)
  {
  }

  lemma SettledByDeletion(w: World, a: Action, t: Ticket)
    requires Inv(w) && BurialsOk(w) && a.StepWorker? && a.j in w.workers && Effective(a.o)
    requires w.workers[a.j].Succeeded? || w.workers[a.j].Buried?
    requires t == TicketOf(w.workers[a.j].e) && (a.j.Script? && w.workers[a.j].Succeeded? ==> a.o == Fine)
    ensures !InFlight(Step(w, a), t)
  {
    assert WorkerOk(w, a.j, w.workers[a.j]);
  }

  /** No step but a look sets a script to setting the key. */
  lemma SettersFrame(w: World, w': World, a: Action, k: nat, x: Id)
    requires w' == Step(w, a) && Setting(w', k, x)
    ensures Setting(w, k, x) || (a == StepEnqueuer(k, Fine) && Looks(w, k, x) && !KeyLive(w, x) && Entering(w, a).None?)
  {
    match a {
      case StepEnqueuer(i, o) =>
        if i in w.enqueuers {
          EnqueuerSetters(w, w', i, o, k, x);
        }
        return;
      case StepWorker(j, o, err) =>
        if j in w.workers && w.workers[j] != Batch([]) {
          WorkerMovesAlone(w, j, o, err);
        }
        return;
      case CrashEnqueuer(_) => return;
      case Enqueue(_, _, _, _) => return;
      case _ => return;
    }
  }

  lemma EnqueuerSetters(w: World, w': World, i: nat, o: Outcome, k: nat, x: Id)
    requires i in w.enqueuers && w' == DoEnqueuer(w, i, o) && Setting(w', k, x)
    ensures Setting(w, k, x) || (k == i && o == Fine && w.enqueuers[i].CheckKey? && w.enqueuers[i].e.id == x && !KeyLive(w, x))
  {
    if w.enqueuers[i].CheckKey? {
      var e := w.enqueuers[i].e;
      assert w'.enqueuers == w.enqueuers[i := if o != Fine || KeyLive(w, e.id) then Over else SetKey(e)];
      return;
    }
    OthersSetNobody(w, w', i, o);
  }

  lemma OthersSetNobody(w: World, w': World, i: nat, o: Outcome)
    requires i in w.enqueuers && !w.enqueuers[i].CheckKey? && w' == DoEnqueuer(w, i, o)
    ensures i in w'.enqueuers && w'.enqueuers == w.enqueuers[i := w'.enqueuers[i]] && !w'.enqueuers[i].SetKey?
  {
    match w.enqueuers[i] {
      case SetKeyNx(_) => OneLookSetsNobody(w, w', i, o);
      case SetKey(_) => SetSetsNobody(w, w', i, o);
      case Add(_) => AddSetsNobody(w, w', i, o);
      case Over => return;
    }
  }

  lemma OneLookSetsNobody(w: World, w': World, i: nat, o: Outcome)
    requires i in w.enqueuers && w.enqueuers[i].SetKeyNx? && w' == DoEnqueuer(w, i, o)
    ensures i in w'.enqueuers && w'.enqueuers == w.enqueuers[i := w'.enqueuers[i]] && !w'.enqueuers[i].SetKey?
  {
    if o == Fine && KeyLive(w, w.enqueuers[i].e.id) {
      return;
    }
  }

  lemma SetSetsNobody(w: World, w': World, i: nat, o: Outcome)
    requires i in w.enqueuers && w.enqueuers[i].SetKey? && w' == DoEnqueuer(w, i, o)
    ensures i in w'.enqueuers && w'.enqueuers == w.enqueuers[i := w'.enqueuers[i]] && !w'.enqueuers[i].SetKey?
  {
    if o == Fine {
      return;
    }
  }

  lemma AddSetsNobody(w: World, w': World, i: nat, o: Outcome)
    requires i in w.enqueuers && w.enqueuers[i].Add? && w' == DoEnqueuer(w, i, o)
    ensures i in w'.enqueuers && w'.enqueuers == w.enqueuers[i := w'.enqueuers[i]] && !w'.enqueuers[i].SetKey?
  {
    if !Effective(o) {
      return;
    }
  }

  /** An operation of the id that is busy has its key live. */
  lemma NoKeyNobodyBusy(w: World, x: Id)
    requires OnePerId(w, x) && Young(w, x) && !KeyLive(w, x)
    ensures Quiet(w, x)
  {
    forall t | t in w.log && Busy(w, t)
      ensures t.id != x
    {
      assert t.id == x ==> KeyHeld(w, t);
    }
  }

  lemma QuietStays(w: World, a: Action, x: Id)
    requires Inv(w) && BurialsOk(w) && Quiet(w, x) && (Entering(w, a).None? || Entering(w, a).value.id != x)
    ensures Quiet(Step(w, a), x)
  {
    forall t | t in Step(w, a).log && Busy(Step(w, a), t)
      ensures t.id != x
    {
      if t.id == x {
        BusyFrame(w, a, t);
      }
    }
  }

  /** What a script's second look, its set, leaves: the setter is gone. */
  lemma SetterLeaves(w: World, i: nat, o: Outcome, x: Id)
    requires Setting(w, i, x)
    ensures !Setting(DoEnqueuer(w, i, o), i, x)
  {
    if o == Fine {
      return;
    }
  }

  lemma AcceptorIsSetter(w: World, a: Action, x: Id, k: nat)
    requires Inv(w) && SettersAlone(w, x) && Guarded(w, a, x) && Setting(w, k, x)
    requires Entering(w, a).Some? && Entering(w, a).value.id == x
    ensures a.StepEnqueuer? && a.i == k
  {
    assert a.StepEnqueuer? by {
      assert a.StepWorker? ==> WorkerOk(w, a.j, w.workers[a.j]);
    }
    assert EnqueuerOk(w, a.i, w.enqueuers[a.i]);
    assert Looks(w, a.i, x) || Setting(w, a.i, x);
  }

  lemma SetterStaysAlone(w: World, w': World, a: Action, x: Id, k: nat)
    requires Inv(w) && Exclusive(w, x) && Young(w, x) && Guarded(w, a, x) && w' == Step(w, a) && Setting(w', k, x)
    ensures Quiet(w', x) && forall l | l in w'.enqueuers && Setting(w', l, x) :: l == k
  {
    SettersFrame(w, w', a, k, x);
    if !Setting(w, k, x) {
      NoKeyNobodyBusy(w, x);
      QuietStays(w, a, x);
    } else {
      if Entering(w, a).Some? && Entering(w, a).value.id == x {
        AcceptorIsSetter(w, a, x, k);
        SetterLeaves(w, k, a.o, x);
      }
      QuietStays(w, a, x);
    }
    forall l | l in w'.enqueuers && Setting(w', l, x)
      ensures l == k
    {
      SettersFrame(w, w', a, l, x);
    }
  }

  lemma StepKeepsSetters(w: World, a: Action, x: Id)
    requires Inv(w) && Exclusive(w, x) && Young(w, x) && Guarded(w, a, x)
    ensures SettersAlone(Step(w, a), x)
  {
    var w' := Step(w, a);
    forall k | k in w'.enqueuers && Setting(w', k, x)
      ensures Quiet(w', x) && forall l | l in w'.enqueuers && Setting(w', l, x) :: l == k
    {
      SetterStaysAlone(w, w', a, x, k);
    }
  }

  /** Either guard lets a new operation in only when nothing of its id is busy. */
  lemma AcceptIsExclusive(w: World, a: Action, x: Id, t: Ticket)
    requires Inv(w) && Exclusive(w, x) && Young(w, x) && Entering(w, a) == Some(t) && t.id == x
    requires Guarded(w, a, x) && Young(Step(w, a), x)
    ensures KeyHeld(Step(w, a), t) && Quiet(w, x)
  {
    Enters(w, a, t);
    assert a.StepEnqueuer? by { assert a.StepWorker? ==> WorkerOk(w, a.j, w.workers[a.j]); }
    var q := w.enqueuers[a.i];
    assert EnqueuerOk(w, a.i, q);
    if q.SetKey? {
      assert Setting(w, a.i, x);
      return;
    }
    assert Busy(Step(w, a), t);
    assert NewKey(w, x, a.o) > 0;
    NoKeyNobodyBusy(w, x);
  }

  lemma AcceptKeepsOnePerId(w: World, a: Action, x: Id, t: Ticket)
    requires Inv(w) && Exclusive(w, x) && Young(w, x) && Guarded(w, a, x) && Young(Step(w, a), x)
    requires Entering(w, a) == Some(t) && t.id == x
    ensures OnePerId(Step(w, a), x)
  {
    var w' := Step(w, a);
    AcceptIsExclusive(w, a, x, t);
    forall u | u in w'.log && Busy(w', u) && u.id == x ensures u == t {
      if u != t {
        BusyFrame(w, a, u);
      }
    }
  }

  lemma StepKeepsOnePerId(w: World, a: Action, x: Id)
    requires Inv(w) && Exclusive(w, x) && Young(w, x) && Guarded(w, a, x) && Young(Step(w, a), x)
    ensures OnePerId(Step(w, a), x)
  {
    var w' := Step(w, a);
    if Deletes(w, a, x) {
      forall u: Ticket | u.id == x ensures !Busy(w', u) {
        DeletionSettles(w, a, x, u);
      }
    } else if Entering(w, a).Some? && Entering(w, a).value.id == x {
      AcceptKeepsOnePerId(w, a, x, Entering(w, a).value);
    } else if a.StepEnqueuer? && Setting(w, a.i, x) {
      QuietStays(w, a, x);
    } else {
      KeyFrame(w, a, x);
      forall u | u in w'.log && Busy(w', u) && u.id == x
        ensures u in w.log && Busy(w, u) && w'.log[u].keyUntil == w.log[u].keyUntil
      {
        BusyFrame(w, a, u);
      }
    }
  }

  lemma {:induction false} RunKeepsExclusive(w: World, acts: seq<Action>, x: Id)
    requires Inv(w) && Exclusive(w, x) && GuardedRun(w, acts, x)
    ensures Exclusive(Run(w, acts), x) && Young(Run(w, acts), x)
    decreases |acts|
  {
    if acts != [] {
      var w' := Step(w, acts[0]);
      assert GuardedRun(w', acts[1..], x);
      StepKeepsInv(w, acts[0]);
      StepKeepsSetters(w, acts[0], x);
      StepKeepsBurials(w, acts[0]);
      StepKeepsOnePerId(w, acts[0], x);
      RunKeepsExclusive(w', acts[1..], x);
    }
  }

  /** For any one id x, whatever happens to others, and whoever enqueues it: if nobody looks
  for a key of x between a script's check and its set, no key of x expires or fails to be
  written under an operation in flight, and a script's clean-up deletions for x work, then
  at most one operation of id x is in flight, and its key is there.  With the gateway's
  atomic guard alone the first condition always holds. */
  lemma OneInFlightPerId(acts: seq<Action>, x: Id, t: Ticket, u: Ticket)
    requires GuardedRun(EMPTY, acts, x)
    requires var w := Run(EMPTY, acts); InFlight(w, t) && InFlight(w, u) && t.id == x && u.id == x
    ensures t == u && KeyLive(Run(EMPTY, acts), x)
  {
    RunKeepsExclusive(EMPTY, acts, x);
    var w := Run(EMPTY, acts);
    assert Busy(w, t) && Busy(w, u);
    assert KeyHeld(w, t);
  }

  // ---- each guard is needed ----------------------------------------------

  lemma RunStep(w: World, a: Action, rest: seq<Action>)
    ensures Run(w, [a] + rest) == Run(Step(w, a), rest)
  {
    assert ([a] + rest)[1..] == rest;
  }

  /** The check-then-set guard of the Next.js enqueuer admits two operations of one id under
  one live key. */
  lemma SplitGuardAdmitsTwo(x: Id) returns (acts: seq<Action>)
    ensures !Unique(Run(EMPTY, acts), x) && Young(Run(EMPTY, acts), x) && KeyLive(Run(EMPTY, acts), x)
  {
    var a0, a1, a2 := Enqueue(0, x, 0, false), Tick(1), Enqueue(1, x, 0, false);
    var c0, c1 := StepEnqueuer(0, Fine), StepEnqueuer(1, Fine);
    acts := [a0] + ([a1] + ([a2] + ([c0] + ([c1] + ([c0] + ([c1] + []))))));
    var e, f := Entry(x, 0, 0, MAX_ATTEMPTS, 0, None), Entry(x, 0, 0, MAX_ATTEMPTS, 1, None);
    var base := EMPTY.(now := 1, stamped := {TicketOf(e), TicketOf(f)});
    var w1 := Step(EMPTY, a0);
    var w3 := Step(Step(w1, a1), a2);
    assert w3 == base.(enqueuers := map[0 := CheckKey(e), 1 := CheckKey(f)]);
    var w5 := Step(Step(w3, c0), c1);
    assert w5 == base.(enqueuers := map[0 := SetKey(e), 1 := SetKey(f)]);
    var w6 := Step(w5, c0);
    var w7 := Step(w6, c1);
    RunStep(EMPTY, a0, acts[1..]);
    RunStep(w1, a1, acts[2..]);
    RunStep(Step(w1, a1), a2, acts[3..]);
    RunStep(w3, c0, acts[4..]);
    RunStep(Step(w3, c0), c1, acts[5..]);
    RunStep(w5, c0, acts[6..]);
    RunStep(w6, c1, []);
    assert w7.log.Keys == {TicketOf(e), TicketOf(f)};
    assert InFlight(w7, TicketOf(e)) && InFlight(w7, TicketOf(f));
  }

  /** With the atomic guard, a key that expires under an operation in flight admits a second. */
  lemma ExpiredKeyAdmitsTwo(x: Id) returns (acts: seq<Action>)
    ensures !Unique(Run(EMPTY, acts), x) && forall a | a in acts && a.Enqueue? :: a.atomic
  {
    var a0, c0, a1, a2, c1 := Enqueue(0, x, 0, true), StepEnqueuer(0, Fine), Tick(IDEM_TTL_MS), Enqueue(1, x, 0, true), StepEnqueuer(1, Fine);
    acts := [a0] + ([c0] + ([a1] + ([a2] + ([c1] + []))));
    var e, f := Entry(x, 0, 0, MAX_ATTEMPTS, 0, None), Entry(x, 0, 0, MAX_ATTEMPTS, IDEM_TTL_MS, None);
    var w1 := Step(EMPTY, a0);
    var w2 := Step(w1, c0);
    var w3 := Step(w2, a1);
    var w4 := Step(w3, a2);
    var w5 := Step(w4, c1);
    RunStep(EMPTY, a0, acts[1..]);
    RunStep(w1, c0, acts[2..]);
    RunStep(w2, a1, acts[3..]);
    RunStep(w3, a2, acts[4..]);
    RunStep(w4, c1, []);
    assert w2.log == map[TicketOf(e) := Log(0, 0, 0, IDEM_TTL_MS, AtEnqueuer(0))];
    assert w4.enqueuers[1] == SetKeyNx(f) && !KeyLive(w4, x);
    assert InFlight(w5, TicketOf(e)) && InFlight(w5, TicketOf(f));
  }

  /** Between the deletion of its key and of its lock, a script's operation lets the gateway
  accept another of the same id; when the lock's deletion then reports an error, the
  script queues the executed one again and both are in flight. */
  lemma FailedUnlockAdmitsTwo(w: World, j: WorkerId, i: nat, o: Outcome, err: int)
    requires Inv(w) && j in w.workers && w.workers[j].Unlock? && i in w.enqueuers && w.enqueuers[i].SetKeyNx?
    requires w.enqueuers[i].e.id == w.workers[j].e.id && !KeyLive(w, w.enqueuers[i].e.id) && o != Fine
    ensures !Unique(Step(Step(w, StepEnqueuer(i, Fine)), StepWorker(j, o, err)), w.enqueuers[i].e.id)
  {
    var a, b := StepEnqueuer(i, Fine), StepWorker(j, o, err);
    var t, u := TicketOf(w.enqueuers[i].e), TicketOf(w.workers[j].e);
    var w1 := Step(w, a);
    StepKeepsInv(w, a);
    Enters(w, a, t);
    assert w1.workers == w.workers;
    Enters(w1, b, u);
    FlightFrame(w1, b, t);
    assert WorkerOk(w1, j, w1.workers[j]);
    assert InFlight(Step(w1, b), t) && InFlight(Step(w1, b), u) && t != u;
  }

  /** A queue with one fresh entry of id x under a live key. */
  function Queued(x: Id): World {
    var e := Entry(x, 0, 0, MAX_ATTEMPTS, 0, None);
    World(0, map[e := 0], map[], map[x := IDEM_TTL_MS], {}, map[0 := Over], map[], {TicketOf(e)}, map[TicketOf(e) := Log(0, 0, 0, IDEM_TTL_MS, AtPending(e))])
  }

  lemma QueuedIsReached(x: Id) returns (acts: seq<Action>)
    ensures Run(EMPTY, acts) == Queued(x)
  {
    var a0, next := Enqueue(0, x, 0, true), StepEnqueuer(0, Fine);
    acts := [a0] + ([next] + ([next] + []));
    var w1 := Step(EMPTY, a0);
    RunStep(EMPTY, a0, acts[1..]);
    RunStep(w1, next, acts[2..]);
    RunStep(Step(w1, next), next, []);
  }

  /** A script takes it up to the deletion of its key. */
  lemma ScriptUnlocks(x: Id, n: nat) returns (acts: seq<Action>)
    ensures var w := Run(Queued(x), acts);
      && Script(n) in w.workers && w.workers[Script(n)].Unlock? && w.workers[Script(n)].e.id == x
      && w.idem == map[] && w.stamped == Queued(x).stamped && w.enqueuers == map[0 := Over] && w.now == 0
  {
    var e, j, s := Entry(x, 0, 0, MAX_ATTEMPTS, 0, None), Script(n), StepWorker(Script(n), Fine, 0);
    var a3 := List(j, [e]);
    var rest := ScriptFinishes(x, n);
    acts := [a3] + ([s] + ([s] + rest));
    var w4 := Queued(x).(workers := map[j := Batch([e])]);
    assert Step(Queued(x), a3) == w4 by { assert MayList(Queued(x), [e]); }
    ScriptClaims(x, n, w4, e);
    RunStep(Queued(x), a3, acts[1..]);
    RunStep(w4, s, acts[2..]);
    RunStep(Step(w4, s), s, rest);
  }

  lemma ScriptClaims(x: Id, n: nat, w4: World, e: Entry)
    requires e == Entry(x, 0, 0, MAX_ATTEMPTS, 0, None) && w4 == Queued(x).(workers := map[Script(n) := Batch([e])])
    ensures Step(Step(w4, StepWorker(Script(n), Fine, 0)), StepWorker(Script(n), Fine, 0)) == Executing(x, n)
  {
    var w5 := w4.(workers := map[Script(n) := Claim(e, [])], locks := {x});
    assert [e][1..] == [];
    assert Step(w4, StepWorker(Script(n), Fine, 0)) == w5;
    assert Step(w5, StepWorker(Script(n), Fine, 0)) == Executing(x, n);
  }

  function Executing(x: Id, n: nat): World {
    var e := Entry(x, 0, 0, MAX_ATTEMPTS, 0, None);
    Queued(x).(workers := map[Script(n) := Execute(e.(attempt := 1), [])], locks := {x}, pending := map[],
               log := map[TicketOf(e) := Log(1, 0, 0, IDEM_TTL_MS, AtWorker(Script(n)))])
  }

  lemma ScriptFinishes(x: Id, n: nat) returns (acts: seq<Action>)
    ensures var w := Run(Executing(x, n), acts);
      && Script(n) in w.workers && w.workers[Script(n)].Unlock? && w.workers[Script(n)].e.id == x
      && w.idem == map[] && w.stamped == Queued(x).stamped && w.enqueuers == map[0 := Over] && w.now == 0
  {
    var s := StepWorker(Script(n), Fine, 0);
    acts := [s] + ([s] + []);
    var w7 := Step(Executing(x, n), s);
    assert w7.workers == map[Script(n) := Succeeded(Executing(x, n).workers[Script(n)].e, [])] && w7.idem == map[x := IDEM_TTL_MS];
    RunStep(Executing(x, n), s, acts[1..]);
    RunStep(w7, s, []);
  }

  /** Such a state is reached: a script executes an operation and deletes its key, and the
  gateway enqueues another. */
  lemma UnlockIsReached(x: Id, n: nat) returns (acts: seq<Action>)
    ensures var w := Run(EMPTY, acts);
      && Script(n) in w.workers && w.workers[Script(n)].Unlock? && 1 in w.enqueuers && w.enqueuers[1].SetKeyNx?
      && w.enqueuers[1].e.id == w.workers[Script(n)].e.id == x && !KeyLive(w, x)
  {
    var first := QueuedIsReached(x);
    var second := ScriptUnlocks(x, n);
    var tick, again := Tick(1), Enqueue(1, x, 0, true);
    var third := [tick] + ([again] + []);
    var w := Run(Queued(x), second);
    RunStep(w, tick, [again] + []);
    RunStep(Step(w, tick), again, []);
    acts := first + (second + third);
    RunSplits(EMPTY, first, second + third);
    RunSplits(Queued(x), second, third);
  }
}
