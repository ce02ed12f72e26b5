/** What becomes of an operation that keeps failing, on an undisturbed worker: it is tried
again after each backoff and is dead-lettered in the end.
*/
module ReconProgress {
  import opened Wrappers
  import opened ReconQueue
  import opened ReconTheorems

  /** An entry in the queue that an idle worker j can have. */
  predicate Ready(w: World, j: WorkerId, e: Entry) {
    && (j in w.workers ==> w.workers[j] == Batch([]))
    && e in w.pending && w.now <= w.pending[e] && TicketOf(e) in w.log && e.id !in w.locks
    && e.attempt < e.maxAttempts == MAX_ATTEMPTS
  }

  /** List, lock, claim, fail, decide, requeue or clear the key, unlock. */
  function Listing(w: World, j: WorkerId, e: Entry): seq<Action>
    requires Ready(w, j, e)
  {
    [Tick(w.pending[e] - w.now), List(j, [e]), StepWorker(j, Fine, 0), StepWorker(j, Fine, 0)]
  }

  function Failing(j: WorkerId, err: int): seq<Action> {
    [StepWorker(j, Fails, err), StepWorker(j, Fine, 0), StepWorker(j, Fine, 0), StepWorker(j, Fine, 0)]
  }

  function Retry(e: Entry, err: int): Entry {
    e.(attempt := e.attempt + 1, lastError := Some(err))
  }

  /** In the dead-letter queue. */
  predicate Dead(w: World, t: Ticket) {
    t in w.log && w.log[t].place.Ended? && w.log[t].place.how.DeadLettered?
      && w.log[t].place.how.e in w.dlq && TicketOf(w.log[t].place.how.e) == t
  }

  lemma RunFour(w: World, acts: seq<Action>)
    requires |acts| == 4
    ensures Run(w, acts) == Step(Step(Step(Step(w, acts[0]), acts[1]), acts[2]), acts[3])
    ensures HealthyRun(w, acts) <==>
      && Healthy(w, acts[0]) && Healthy(Step(w, acts[0]), acts[1])
      && Healthy(Step(Step(w, acts[0]), acts[1]), acts[2]) && Healthy(Step(Step(Step(w, acts[0]), acts[1]), acts[2]), acts[3])
  {
    var one, two, three := acts[1..], acts[2..], acts[3..];
    assert one[1..] == two && two[1..] == three && three[1..] == [];
    var w1 := Step(w, acts[0]);
    var w2 := Step(w1, acts[1]);
    var w3 := Step(w2, acts[2]);
    assert Run(w3, three) == Step(w3, acts[3]) && HealthyRun(w3, three) == Healthy(w3, acts[3]);
    assert Run(w2, two) == Run(w3, three) && Run(w1, one) == Run(w2, two);
    assert HealthyRun(w2, two) == (Healthy(w2, acts[2]) && HealthyRun(w3, three));
    assert HealthyRun(w1, one) == (Healthy(w1, acts[1]) && HealthyRun(w2, two));
  }

  /** The worker has the entry for its next attempt. */
  predicate InHand(w: World, j: WorkerId, e: Entry) {
    && j in w.workers && w.workers[j] == Execute(e.(attempt := e.attempt + 1), [])
    && TicketOf(e) in w.log && e.attempt < e.maxAttempts == MAX_ATTEMPTS
  }

  lemma ListingClaims(w: World, j: WorkerId, e: Entry)
    requires Ready(w, j, e)
    ensures var w' := Run(w, Listing(w, j, e));
      && HealthyRun(w, Listing(w, j, e)) && InHand(w', j, e) && w'.now == w.pending[e]
      && w'.log[TicketOf(e)].runs == w.log[TicketOf(e)].runs && w'.log[TicketOf(e)].delay == w.log[TicketOf(e)].delay
  {
    var acts := Listing(w, j, e);
    RunFour(w, acts);
    var w1 := Step(w, acts[0]);
    assert w1 == w.(now := w.pending[e]);
    assert MayList(w1, [e]);
    var w2 := Step(w1, acts[1]);
    assert w2 == Set(w1, j, Batch([e]));
    var w3 := Step(w2, acts[2]);
    assert [e][1..] == [];
    assert w3.workers[j] == Claim(e, []) && w3.pending == w.pending && w3.log == w.log && w3.now == w1.now;
  }

  /** A failed attempt with tries left puts the entry back, due after its backoff. */
  lemma FailureIsRetried(w: World, j: WorkerId, e: Entry, err: int)
    requires InHand(w, j, e) && e.attempt + 1 < MAX_ATTEMPTS
    ensures var w' := Run(w, Failing(j, err));
      && HealthyRun(w, Failing(j, err)) && Ready(w', j, Retry(e, err)) && w'.now == w.now
      && w'.pending[Retry(e, err)] == w.now + Backoff(e.attempt + 1)
      && w'.log[TicketOf(e)].runs == w.log[TicketOf(e)].runs + 1
      && w'.log[TicketOf(e)].delay == w.log[TicketOf(e)].delay + Backoff(e.attempt + 1)
  {
    var acts, r := Failing(j, err), Retry(e, err);
    RunFour(w, acts);
    var w1 := Step(w, acts[0]);
    var w2 := Step(w1, acts[1]);
    FailureIsScheduled(w, w2, j, e, err);
    var w3 := Step(w2, acts[2]);
    assert w3.workers[j] == Release(r.id, []) && r in w3.pending && w3.pending[r] == w.now + Backoff(r.attempt);
  }

  lemma FailureIsScheduled(w: World, w2: World, j: WorkerId, e: Entry, err: int)
    requires InHand(w, j, e) && e.attempt + 1 < MAX_ATTEMPTS
    requires w2 == Step(Step(w, StepWorker(j, Fails, err)), StepWorker(j, Fine, 0))
    ensures var r, t := Retry(e, err), TicketOf(e);
      && j in w2.workers && w2.workers[j] == Requeue(r, w.now + Backoff(r.attempt), []) && TicketOf(r) == t && w2.now == w.now
      && t in w2.log && w2.log[t].runs == w.log[t].runs + 1 && w2.log[t].delay == w.log[t].delay + Backoff(r.attempt)
  {
    var w1 := Step(w, StepWorker(j, Fails, err));
    assert w1.workers[j] == Failed(Retry(e, err), []) && w1.log[TicketOf(e)].delay == w.log[TicketOf(e)].delay;
  }

  /** The last failed attempt buries the entry and frees its id. */
  lemma LastFailureIsBuried(w: World, j: WorkerId, e: Entry, err: int)
    requires InHand(w, j, e) && e.attempt + 1 == MAX_ATTEMPTS
    ensures var w' := Run(w, Failing(j, err));
      && HealthyRun(w, Failing(j, err)) && TicketOf(e) in w'.log && w'.now == w.now
      && Dead(w', TicketOf(e)) && w'.log[TicketOf(e)].runs == w.log[TicketOf(e)].runs + 1
      && j in w'.workers && w'.workers[j] == Batch([]) && e.id !in w'.idem && e.id !in w'.locks
  {
    var acts, r := Failing(j, err), Retry(e, err);
    RunFour(w, acts);
    var w1 := Step(w, acts[0]);
    assert w1.workers[j] == Failed(r, []) && TicketOf(r) == TicketOf(e);
    var w2 := Step(w1, acts[1]);
    assert w2.workers[j] == Buried(r, []);
    var w3 := Step(w2, acts[2]);
    assert w3.workers[j] == Release(r.id, []);
  }

  /** A success ends the operation and frees its id, with either worker. */
  lemma SuccessFinishes(w: World, j: WorkerId, e: Entry)
    requires InHand(w, j, e)
    ensures var w' := Run(w, [StepWorker(j, Fine, 0), StepWorker(j, Fine, 0), StepWorker(j, Fine, 0), StepWorker(j, Fine, 0)]);
      && TicketOf(e) in w'.log && w'.log[TicketOf(e)].place == Ended(Finished)
      && j in w'.workers && w'.workers[j] == Batch([]) && e.id !in w'.idem && e.id !in w'.locks
  {
    var acts := [StepWorker(j, Fine, 0), StepWorker(j, Fine, 0), StepWorker(j, Fine, 0), StepWorker(j, Fine, 0)];
    RunFour(w, acts);
    var w1 := Step(w, acts[0]);
    var w2 := Step(w1, acts[1]);
    assert w2.workers[j] == if j.Gateway? then Release(e.id, []) else Unlock(e.(attempt := e.attempt + 1), []);
  }

  lemma {:induction false} HealthySplits(w: World, first: seq<Action>, second: seq<Action>)
    ensures HealthyRun(w, first + second) <==> HealthyRun(w, first) && HealthyRun(Run(w, first), second)
    decreases |first|
  {
    if first == [] {
      assert first + second == second;
    } else {
      assert (first + second)[1..] == first[1..] + second;
      HealthySplits(Step(w, first[0]), first[1..], second);
    }
  }

  function Failures(w: World, j: WorkerId, e: Entry, err: int): seq<Action>
    requires Ready(w, j, e)
  {
    Listing(w, j, e) + Failing(j, err)
  }

  lemma OneRound(w: World, j: WorkerId, e: Entry, err: int)
    requires Ready(w, j, e)
    ensures Run(w, Failures(w, j, e, err)) == Run(Run(w, Listing(w, j, e)), Failing(j, err))
    ensures HealthyRun(w, Failures(w, j, e, err)) <==> HealthyRun(w, Listing(w, j, e)) && HealthyRun(Run(w, Listing(w, j, e)), Failing(j, err))
  {
    RunSplits(w, Listing(w, j, e), Failing(j, err));
    HealthySplits(w, Listing(w, j, e), Failing(j, err));
  }

  /** From its due time on, an operation that fails every time is dead-lettered after
  exactly the remaining delays, having run once for each attempt left. */
  lemma {:induction false} AlwaysFailingIsBuried(w: World, j: WorkerId, e: Entry, err: int) returns (acts: seq<Action>)
    requires Ready(w, j, e)
    ensures var w' := Run(w, acts); var t := TicketOf(e);
      && HealthyRun(w, acts) && Dead(w', t)
      && w'.log[t].runs == w.log[t].runs + MAX_ATTEMPTS - e.attempt
      && w'.now == w.pending[e] + TotalDelay(MAX_ATTEMPTS - 1) - TotalDelay(e.attempt)
    decreases MAX_ATTEMPTS - e.attempt
  {
    OneRound(w, j, e, err);
    ListingClaims(w, j, e);
    var w1 := Run(w, Listing(w, j, e));
    acts := Failures(w, j, e, err);
    if e.attempt + 1 < MAX_ATTEMPTS {
      FailureIsRetried(w1, j, e, err);
      var w2 := Run(w, acts);
      var rest := AlwaysFailingIsBuried(w2, j, Retry(e, err), err);
      RunSplits(w, acts, rest);
      HealthySplits(w, acts, rest);
      acts := acts + rest;
      assert TotalDelay(e.attempt + 1) == TotalDelay(e.attempt) + Backoff(e.attempt + 1);
    } else {
      LastFailureIsBuried(w1, j, e, err);
    }
  }

  /** A freshly queued operation that always fails is dead-lettered 15 s after it was due,
  having run five times. */
  lemma FifteenSeconds(w: World, j: WorkerId, e: Entry, err: int) returns (acts: seq<Action>)
    requires Ready(w, j, e) && e.attempt == 0
    ensures var w' := Run(w, acts); var t := TicketOf(e);
      && HealthyRun(w, acts) && Dead(w', t)
      && w'.log[t].runs == w.log[t].runs + 5 && w'.now == w.pending[e] + 15_000
  {
    acts := AlwaysFailingIsBuried(w, j, e, err);
    assert Pow2(4) == 16;
  }
}
