/** What one enqueue achieves when nobody disturbs it: it is refused exactly under a live
key, whichever guard it uses. */
module ReconEnqueue {
  import opened Wrappers
  import opened ReconQueue
  import opened ReconTheorems
  import opened ReconUniqueness

  /** An enqueue and its commands, all of which succeed. */
  function Enqueueing(i: nat, x: Id, op: int, atomic: bool): seq<Action> {
    [Enqueue(i, x, op, atomic)] + ([StepEnqueuer(i, Fine)] + ([StepEnqueuer(i, Fine)] + ([StepEnqueuer(i, Fine)] + [])))
  }

  /** Enqueuer i is new, and its id has not been stamped in this millisecond. */
  predicate MayEnqueue(w: World, i: nat, x: Id) {
    i !in w.enqueuers && Ticket(x, w.now) !in w.stamped
  }

  lemma EnqueueingRuns(w: World, i: nat, x: Id, op: int, atomic: bool)
    ensures var next := StepEnqueuer(i, Fine);
      Run(w, Enqueueing(i, x, op, atomic)) == Step(Step(Step(Step(w, Enqueue(i, x, op, atomic)), next), next), next)
  {
    var a, next := Enqueue(i, x, op, atomic), StepEnqueuer(i, Fine);
    var w1 := Step(w, a);
    var w2 := Step(w1, next);
    var w3 := Step(w2, next);
    RunStep(w, a, [next] + ([next] + ([next] + [])));
    RunStep(w1, next, [next] + ([next] + []));
    RunStep(w2, next, [next] + []);
    RunStep(w3, next, []);
  }

  /** A refused enqueue leaves nothing but its stamp. */
  function Refused(w: World, i: nat, x: Id): World {
    Put(w, i, Over).(stamped := w.stamped + {Ticket(x, w.now)})
  }

  /** An accepted one is queued for now, under a key that lasts a day. */
  function Accepted(w: World, i: nat, x: Id, op: int): World {
    var e, until := Entry(x, op, 0, MAX_ATTEMPTS, w.now, None), w.now + IDEM_TTL_MS;
    Refused(w, i, x).(
      pending := w.pending[e := w.now], idem := w.idem[x := until],
      log := w.log[TicketOf(e) := Log(0, 0, 0, until, AtPending(e))])
  }

  lemma UnderLiveKey(w: World, i: nat, x: Id, op: int, atomic: bool)
    requires MayEnqueue(w, i, x) && KeyLive(w, x)
    ensures Run(w, Enqueueing(i, x, op, atomic)) == Refused(w, i, x)
  {
    EnqueueingRuns(w, i, x, op, atomic);
    var next := StepEnqueuer(i, Fine);
    var e := Entry(x, op, 0, MAX_ATTEMPTS, w.now, None);
    var w1 := Step(w, Enqueue(i, x, op, atomic));
    assert w1 == Put(w, i, if atomic then SetKeyNx(e) else CheckKey(e)).(stamped := w.stamped + {TicketOf(e)});
    assert Step(w1, next) == Refused(w, i, x);
    assert Step(Refused(w, i, x), next) == Refused(w, i, x);
  }

  /** The key is set and the entry about to be added. */
  function Keyed(w: World, i: nat, x: Id, op: int): World {
    var e, until := Entry(x, op, 0, MAX_ATTEMPTS, w.now, None), w.now + IDEM_TTL_MS;
    Put(w, i, Add(e)).(
      stamped := w.stamped + {TicketOf(e)}, idem := w.idem[x := until],
      log := w.log[TicketOf(e) := Log(0, 0, 0, until, AtEnqueuer(i))])
  }

  lemma KeyedIsAdded(w: World, i: nat, x: Id, op: int)
    ensures Step(Keyed(w, i, x, op), StepEnqueuer(i, Fine)) == Accepted(w, i, x, op)
  {
    var e, until := Entry(x, op, 0, MAX_ATTEMPTS, w.now, None), w.now + IDEM_TTL_MS;
    assert w.log[TicketOf(e) := Log(0, 0, 0, until, AtEnqueuer(i))][TicketOf(e) := Log(0, 0, 0, until, AtPending(e))]
      == w.log[TicketOf(e) := Log(0, 0, 0, until, AtPending(e))];
    assert Keyed(w, i, x, op).enqueuers[i := Over] == Refused(w, i, x).enqueuers;
  }

  /** The gateway's guard sets the key in one command ... */
  lemma SetInOne(w: World, w1: World, i: nat, x: Id, op: int)
    requires MayEnqueue(w, i, x) && !KeyLive(w, x) && w1 == Step(w, Enqueue(i, x, op, true))
    ensures Step(w1, StepEnqueuer(i, Fine)) == Keyed(w, i, x, op)
  {
    var e := Entry(x, op, 0, MAX_ATTEMPTS, w.now, None);
    assert w1 == Put(w, i, SetKeyNx(e)).(stamped := w.stamped + {TicketOf(e)});
  }

  /** ... the application's in two. */
  lemma SetInTwo(w: World, w1: World, i: nat, x: Id, op: int)
    requires MayEnqueue(w, i, x) && !KeyLive(w, x) && w1 == Step(w, Enqueue(i, x, op, false))
    ensures Step(Step(w1, StepEnqueuer(i, Fine)), StepEnqueuer(i, Fine)) == Keyed(w, i, x, op)
  {
    var e := Entry(x, op, 0, MAX_ATTEMPTS, w.now, None);
    var w2 := Step(w1, StepEnqueuer(i, Fine));
    assert w2 == Put(w, i, SetKey(e)).(stamped := w.stamped + {TicketOf(e)});
  }

  lemma WithoutLiveKey(w: World, i: nat, x: Id, op: int, atomic: bool)
    requires MayEnqueue(w, i, x) && !KeyLive(w, x)
    ensures Run(w, Enqueueing(i, x, op, atomic)) == Accepted(w, i, x, op)
  {
    EnqueueingRuns(w, i, x, op, atomic);
    KeyedIsAdded(w, i, x, op);
    if atomic {
      SetInOne(w, Step(w, Enqueue(i, x, op, true)), i, x, op);
      assert Step(Accepted(w, i, x, op), StepEnqueuer(i, Fine)) == Accepted(w, i, x, op);
      return;
    }
    SetInTwo(w, Step(w, Enqueue(i, x, op, false)), i, x, op);
  }

  /** The application's guard and the gateway's do the same when nobody comes between: the
  enqueue is accepted if and only if the id has no live key.  A refusal leaves queue, keys
  and accounts as they were; an acceptance ends with the entry due at once, under a key
  that lives for a day. */
  lemma AcceptedExactlyWhen(w: World, i: nat, x: Id, op: int, atomic: bool)
    requires MayEnqueue(w, i, x)
    ensures var w', e := Run(w, Enqueueing(i, x, op, atomic)), Entry(x, op, 0, MAX_ATTEMPTS, w.now, None);
      && (KeyLive(w, x) ==> w'.pending == w.pending && w'.idem == w.idem && w'.log == w.log)
      && (!KeyLive(w, x) ==>
            && w'.pending == w.pending[e := w.now] && w'.idem == w.idem[x := w.now + IDEM_TTL_MS]
            && w'.log == w.log[TicketOf(e) := Log(0, 0, 0, w.now + IDEM_TTL_MS, AtPending(e))])
      && w'.locks == w.locks && w'.workers == w.workers && w'.dlq == w.dlq && w'.now == w.now
      && i in w'.enqueuers && w'.enqueuers[i] == Over && KeyLive(w', x)
  {
    if KeyLive(w, x) {
      UnderLiveKey(w, i, x, op, atomic);
    } else {
      WithoutLiveKey(w, i, x, op, atomic);
    }
  }

  /** So a second enqueue of the id within the day, after any pause, is refused. */
  lemma SecondIsRefused(w: World, i: nat, j: nat, x: Id, op: int, again: int, atomic: bool, second: bool, ms: nat)
    requires MayEnqueue(w, i, x) && !KeyLive(w, x) && 0 < ms < IDEM_TTL_MS
    requires j != i && MayEnqueue(w.(now := w.now + ms), j, x)
    ensures var w1 := Run(w, Enqueueing(i, x, op, atomic));
      var w2 := Run(w1, [Tick(ms)] + Enqueueing(j, x, again, second));
      w2.pending == w1.pending && w2.idem == w1.idem && w2.log == w1.log
  {
    var w1 := Run(w, Enqueueing(i, x, op, atomic));
    WithoutLiveKey(w, i, x, op, atomic);
    RunStep(w1, Tick(ms), Enqueueing(j, x, again, second));
    var w1' := Step(w1, Tick(ms));
    assert w1' == w1.(now := w.now + ms) && MayEnqueue(w1', j, x) && KeyLive(w1', x);
    UnderLiveKey(w1', j, x, again, second);
  }
}
