/** The reconciliation queue: enqueuers and workers of both languages on shared Redis keys.

A sorted set of pending entries, expiring locks, idempotency keys, bounded retries
with exponential backoff and a dead-letter queue.  Every enqueuer and worker is a
program counter over atomic Redis commands; locks may vanish at any moment, commands
may fail or lose their reply, and anyone may crash at any step.  A member of a sorted set
is the JSON text of an entry, so two members are equal exactly if their entries are.

The gateway's worker passes over a failed command; the application's worker, a script,
throws: outside its inner `try` that ends the batch, inside it an operation that has been
executed counts as failed and is queued again.
*/
module ReconQueue {
  import opened Wrappers

  const MAX_ATTEMPTS: nat := 5
  const BASE_DELAY_MS: nat := 1000
  const IDEM_TTL_MS: nat := 86_400_000
  const BATCH_SIZE: nat := 10

  /** An operation id such as `revoke:<jti>`; only equality matters. */
  type Id = int

  datatype Entry = Entry(id: Id, op: int, attempt: nat, maxAttempts: nat, createdAt: nat, lastError: Option<int>)

  /** One accepted operation, across all its retries. */
  datatype Ticket = Ticket(id: Id, stamp: nat)

  function TicketOf(e: Entry): Ticket {
    Ticket(e.id, e.createdAt)
  }

  datatype Ending = Finished | DeadLettered(e: Entry) | Lost

  datatype WorkerId = Gateway(n: nat) | Script(n: nat)

  /** A ticket at a worker has still to be settled; at `AtUnlock` it has been executed and
  its key is gone, and only the script's lock is left to delete. */
  datatype Place = AtEnqueuer(i: nat) | AtPending(e: Entry) | AtWorker(j: WorkerId) | AtUnlock(j: WorkerId) | Ended(how: Ending)

  /** What has happened to a ticket so far: how often it was claimed and run, the sum of
  its scheduled delays, the expiry of the idempotency key it set, and where it is now. */
  datatype Log = Log(claims: nat, runs: nat, delay: nat, keyUntil: nat, place: Place)

  datatype Enqueuer =
    | SetKeyNx(e: Entry)                 // gateway: SET NX EX in one command
    | CheckKey(e: Entry)                 // Next.js worker: EXISTS ...
    | SetKey(e: Entry)                   // ... then SETEX
    | Add(e: Entry)                      // accepted, about to ZADD
    | Over

  datatype Worker =
    | Batch(todo: seq<Entry>)            // entries listed and not yet tried; [] is idle
    | Claim(e: Entry, todo: seq<Entry>)  // lock held, about to ZREM
    | Execute(e: Entry, todo: seq<Entry>)
    | Succeeded(e: Entry, todo: seq<Entry>)
    | Unlock(e: Entry, todo: seq<Entry>) // script: key deleted, lock not yet
    | Failed(e: Entry, todo: seq<Entry>)
    | Requeue(e: Entry, score: nat, todo: seq<Entry>)
    | Buried(e: Entry, todo: seq<Entry>)
    | Release(id: Id, todo: seq<Entry>)

  datatype World = World(
    now: nat,
    pending: map<Entry, nat>,
    dlq: map<Entry, nat>,
    idem: map<Id, nat>,
    locks: set<Id>,
    enqueuers: map<nat, Enqueuer>,
    workers: map<WorkerId, Worker>,
    stamped: set<Ticket>,
    log: map<Ticket, Log>)

  const EMPTY := World(0, map[], map[], map[], {}, map[], map[], {}, map[])

  datatype Action =
    | Tick(ms: nat)
    | ExpireLock(id: Id)
    | Enqueue(i: nat, id: Id, op: int, atomic: bool)
    | List(j: WorkerId, batch: seq<Entry>)
    | StepEnqueuer(i: nat, o: Outcome)
    | StepWorker(j: WorkerId, o: Outcome, err: int)
    | CrashEnqueuer(i: nat)
    | CrashWorker(j: WorkerId)

  function Pow2(n: nat): nat {
    if n == 0 then 1 else 2 * Pow2(n - 1)
  }

  /** The delay scheduled after the failure of the given attempt. */
  function Backoff(attempt: nat): nat {
    if attempt == 0 then 0 else BASE_DELAY_MS * Pow2(attempt - 1)
  }

  /** The delays scheduled after the first n failures, in closed form. */
  function TotalDelay(n: nat): int {
    BASE_DELAY_MS * (Pow2(n) - 1)
  }

  predicate KeyLive(w: World, id: Id) {
    id in w.idem && w.now < w.idem[id]
  }

  function Put(w: World, i: nat, q: Enqueuer): World {
    w.(enqueuers := w.enqueuers[i := q])
  }

  function Set(w: World, j: WorkerId, k: Worker): World {
    w.(workers := w.workers[j := k])
  }

  /** Record that a ticket has moved. */
  function Move(w: World, t: Ticket, p: Place): World {
    if t in w.log then w.(log := w.log[t := w.log[t].(place := p)]) else w
  }

  // ---- enqueuers ---------------------------------------------------------

  function Accept(w: World, i: nat, e: Entry, keyUntil: nat): World {
    Put(w, i, Add(e)).(log := w.log[TicketOf(e) := Log(0, 0, 0, keyUntil, AtEnqueuer(i))])
  }

  /** The expiry SET NX gives the key, if it sets one. */
  function NewKey(w: World, id: Id, o: Outcome): nat {
    if Effective(o) && !KeyLive(w, id) then w.now + IDEM_TTL_MS else 0
  }

  function DoEnqueuer(w: World, i: nat, o: Outcome): World
    requires i in w.enqueuers
  {
    match w.enqueuers[i]
    case SetKeyNx(e) =>                  // on an error the gateway goes on without knowing
      if o == Fine && KeyLive(w, e.id) then Put(w, i, Over)
      else
        var until := NewKey(w, e.id, o);
        Accept(w, i, e, until).(idem := if until > 0 then w.idem[e.id := until] else w.idem)
    case CheckKey(e) =>
      if o != Fine || KeyLive(w, e.id) then Put(w, i, Over) else Put(w, i, SetKey(e))
    case SetKey(e) =>
      var w' := if o == Fine then Accept(w, i, e, w.now + IDEM_TTL_MS) else Put(w, i, Over);
      if Effective(o) then w'.(idem := w.idem[e.id := w.now + IDEM_TTL_MS]) else w'
    case Add(e) =>
      if !Effective(o) then Move(Put(w, i, Over), TicketOf(e), Ended(Lost))
      else Move(Put(w, i, Over), TicketOf(e), AtPending(e)).(pending := w.pending[e := w.now])
    case Over => w
  }

  // ---- workers -----------------------------------------------------------

  function DropKey(w: World, id: Id, o: Outcome): World {
    if Effective(o) then w.(idem := w.idem - {id}) else w
  }

  function DropLock(w: World, id: Id, o: Outcome): World {
    if Effective(o) then w.(locks := w.locks - {id}) else w
  }

  /** An error ends a script's batch and a gateway's worker takes the step all the same. */
  function OrStop(j: WorkerId, o: Outcome, next: Worker): Worker {
    if j.Script? && o != Fine then Batch([]) else next
  }

  function DoTry(w: World, j: WorkerId, todo: seq<Entry>, o: Outcome): World
    requires todo != []
  {
    var id := todo[0].id;
    if o == Fine && id !in w.locks then Set(w, j, Claim(todo[0], todo[1..])).(locks := w.locks + {id})
    else
      var w' := Set(w, j, OrStop(j, o, Batch(todo[1..])));
      if o == FailsLate then w'.(locks := w.locks + {id}) else w'
  }

  function DoClaim(w: World, j: WorkerId, e: Entry, todo: seq<Entry>, o: Outcome): World {
    var t := TicketOf(e);
    if o == Fine && e in w.pending then
      var w' := Set(w, j, Execute(e.(attempt := e.attempt + 1), todo)).(pending := w.pending - {e});
      if t in w.log then w'.(log := w.log[t := w.log[t].(claims := w.log[t].claims + 1, place := AtWorker(j))]) else w'
    else
      var w' := Set(w, j, OrStop(j, o, Release(e.id, todo)));
      if o == FailsLate && e in w.pending then Move(w', t, Ended(Lost)).(pending := w.pending - {e}) else w'
  }

  /** The operation ran, whatever it reported. */
  function DoExecute(w: World, j: WorkerId, e: Entry, todo: seq<Entry>, o: Outcome, err: int): World {
    var t := TicketOf(e);
    var w' := Set(w, j, if o == Fine then Succeeded(e, todo) else Failed(e.(lastError := Some(err)), todo));
    if t in w.log then w'.(log := w.log[t := w.log[t].(runs := w.log[t].runs + 1)]) else w'
  }

  function DoSucceeded(w: World, j: WorkerId, e: Entry, todo: seq<Entry>, o: Outcome, err: int): World {
    var w' :=
      if j.Gateway? then Move(Set(w, j, Release(e.id, todo)), TicketOf(e), Ended(Finished))
      else if o == Fine then Move(Set(w, j, Unlock(e, todo)), TicketOf(e), AtUnlock(j))
      else Set(w, j, Failed(e.(lastError := Some(err)), todo));
    DropKey(w', e.id, o)
  }

  function DoUnlock(w: World, j: WorkerId, e: Entry, todo: seq<Entry>, o: Outcome, err: int): World {
    var w' :=
      if o == Fine then Move(Set(w, j, Batch(todo)), TicketOf(e), Ended(Finished))
      else Move(Set(w, j, Failed(e.(lastError := Some(err)), todo)), TicketOf(e), AtWorker(j));
    DropLock(w', e.id, o)
  }

  function DoFailed(w: World, j: WorkerId, e: Entry, todo: seq<Entry>, o: Outcome): World {
    var t := TicketOf(e);
    if e.attempt >= e.maxAttempts then
      var w' := Set(w, j, OrStop(j, o, Buried(e, todo)));
      if Effective(o) then Move(w', t, Ended(DeadLettered(e))).(dlq := w.dlq[e := w.now]) else Move(w', t, Ended(Lost))
    else
      var w' := Set(w, j, Requeue(e, w.now + Backoff(e.attempt), todo));
      if t in w.log then w'.(log := w.log[t := w.log[t].(delay := w.log[t].delay + Backoff(e.attempt))]) else w'
  }

  function DoRequeue(w: World, j: WorkerId, e: Entry, score: nat, todo: seq<Entry>, o: Outcome): World {
    var w' := Set(w, j, OrStop(j, o, Release(e.id, todo)));
    if Effective(o) then Move(w', TicketOf(e), AtPending(e)).(pending := w.pending[e := score])
    else Move(w', TicketOf(e), Ended(Lost))
  }

  function DoWorker(w: World, j: WorkerId, o: Outcome, err: int): World
    requires j in w.workers
  {
    match w.workers[j]
    case Batch(todo) => if todo == [] then w else DoTry(w, j, todo, o)
    case Claim(e, todo) => DoClaim(w, j, e, todo, o)
    case Execute(e, todo) => DoExecute(w, j, e, todo, o, err)
    case Succeeded(e, todo) => DoSucceeded(w, j, e, todo, o, err)
    case Unlock(e, todo) => DoUnlock(w, j, e, todo, o, err)
    case Failed(e, todo) => DoFailed(w, j, e, todo, o)
    case Requeue(e, score, todo) => DoRequeue(w, j, e, score, todo, o)
    case Buried(e, todo) => DropKey(Set(w, j, OrStop(j, o, Release(e.id, todo))), e.id, o)
    case Release(id, todo) => DropLock(Set(w, j, OrStop(j, o, Batch(todo))), id, o)
  }

  /** The entry that is with a worker and nowhere else. */
  function Held(k: Worker): Option<Entry> {
    match k
    case Execute(e, _) => Some(e)
    case Succeeded(e, _) => Some(e)
    case Unlock(e, _) => Some(e)
    case Failed(e, _) => Some(e)
    case Requeue(e, _, _) => Some(e)
    case _ => None
  }

  function Todo(k: Worker): seq<Entry> {
    match k
    case Batch(todo) => todo
    case Claim(e, todo) => [e] + todo
    case Execute(_, todo) => todo
    case Succeeded(_, todo) => todo
    case Unlock(_, todo) => todo
    case Failed(_, todo) => todo
    case Requeue(_, _, todo) => todo
    case Buried(_, todo) => todo
    case Release(_, todo) => todo
  }

  predicate MayList(w: World, batch: seq<Entry>) {
    |batch| <= BATCH_SIZE && forall e | e in batch :: e in w.pending && w.pending[e] <= w.now
  }

  /** An action that is not enabled changes nothing.  An operation is stamped with the
  current millisecond, and no two enqueues of one id carry the same stamp. */
  function Step(w: World, a: Action): World {
    match a
    case Tick(ms) => w.(now := w.now + ms)
    case ExpireLock(id) => w.(locks := w.locks - {id})
    case Enqueue(i, id, op, atomic) =>
      var e := Entry(id, op, 0, MAX_ATTEMPTS, w.now, None);
      if i in w.enqueuers || TicketOf(e) in w.stamped then w
      else Put(w, i, if atomic then SetKeyNx(e) else CheckKey(e)).(stamped := w.stamped + {TicketOf(e)})
    case List(j, batch) =>
      if (j in w.workers && w.workers[j] != Batch([])) || !MayList(w, batch) then w
      else Set(w, j, Batch(batch))
    case StepEnqueuer(i, o) => if i in w.enqueuers then DoEnqueuer(w, i, o) else w
    case StepWorker(j, o, err) => if j in w.workers then DoWorker(w, j, o, err) else w
    case CrashEnqueuer(i) =>
      if i !in w.enqueuers then w
      else
        var w' := if w.enqueuers[i].Over? then w else Put(w, i, Over);
        if w.enqueuers[i].Add? then Move(w', TicketOf(w.enqueuers[i].e), Ended(Lost)) else w'
    case CrashWorker(j) =>
      if j !in w.workers then w
      else
        var w' := Set(w, j, Batch([]));
        var held := Held(w.workers[j]);
        if held.Some? then Move(w', TicketOf(held.value), Ended(Lost)) else w'
  }

  function Run(w: World, acts: seq<Action>): World
    decreases |acts|
  {
    if acts == [] then w else Run(Step(w, acts[0]), acts[1..])
  }

  // ---- invariant ---------------------------------------------------------

  /** Where an accepted operation can be seen. */
  predicate At(w: World, t: Ticket, p: Place) {
    match p
    case AtEnqueuer(i) => i in w.enqueuers && w.enqueuers[i].Add? && TicketOf(w.enqueuers[i].e) == t
    case AtPending(e) => e in w.pending && TicketOf(e) == t
    case AtWorker(j) => InHands(w, j, t) && !w.workers[j].Unlock?
    case AtUnlock(j) => InHands(w, j, t) && w.workers[j].Unlock?
    case Ended(DeadLettered(e)) => e in w.dlq && TicketOf(e) == t
    case Ended(how) => t in w.log && w.log[t].place == Ended(how)
  }

  predicate InHands(w: World, j: WorkerId, t: Ticket) {
    j in w.workers && Held(w.workers[j]).Some? && TicketOf(Held(w.workers[j]).value) == t
  }

  predicate EnqueuerOk(w: World, i: nat, q: Enqueuer) {
    match q
    case SetKeyNx(e) => Unaccepted(w, e)
    case CheckKey(e) => Unaccepted(w, e)
    case SetKey(e) => Unaccepted(w, e)
    case Add(e) =>
      var t := TicketOf(e);
      && t in w.log && w.log[t].place == AtEnqueuer(i) && Waiting(w.log[t], e) && e.attempt == 0 && e.createdAt <= w.now
    case Over => true
  }

  predicate Unaccepted(w: World, e: Entry) {
    TicketOf(e) in w.stamped && TicketOf(e) !in w.log && e.attempt == 0 && e.maxAttempts == MAX_ATTEMPTS && e.createdAt <= w.now
  }

  /** The bookkeeping of an entry that waits for its next attempt. */
  predicate Waiting(l: Log, e: Entry) {
    && e.maxAttempts == MAX_ATTEMPTS && e.attempt < e.maxAttempts
    && l.claims == l.runs == e.attempt && l.delay == TotalDelay(e.attempt)
  }

  /** The bookkeeping of an entry whose current attempt has been claimed. */
  predicate Taken(w: World, l: Log, e: Entry, ran: bool) {
    && e.maxAttempts == MAX_ATTEMPTS && 0 < e.attempt <= e.maxAttempts
    && l.claims == e.attempt && l.runs == (if ran then e.attempt else e.attempt - 1)
    && l.delay == TotalDelay(e.attempt - 1) && e.createdAt + TotalDelay(e.attempt - 1) <= w.now
  }

  predicate PendingOk(w: World, e: Entry)
    requires e in w.pending
  {
    var t := TicketOf(e);
    && t in w.log && w.log[t].place == AtPending(e) && Waiting(w.log[t], e)
    && e.createdAt + TotalDelay(e.attempt) <= w.pending[e]
  }

  /** A listed entry is still due, or its attempt has been claimed since. */
  predicate ListedOk(w: World, e: Entry) {
    var t := TicketOf(e);
    t in w.log && (e.attempt < w.log[t].claims || w.log[t].place.Ended? || (e in w.pending && w.pending[e] <= w.now))
  }

  predicate DeadOk(w: World, e: Entry) {
    TicketOf(e) in w.log && w.log[TicketOf(e)].place == Ended(DeadLettered(e))
  }

  predicate HeldOk(w: World, j: WorkerId, k: Worker) {
    Held(k).Some? ==>
      var e := Held(k).value;
      var t := TicketOf(e);
      && t in w.log && w.log[t].place == (if k.Unlock? then AtUnlock(j) else AtWorker(j))
      && (k.Unlock? ==> j.Script?)
      && match k
         case Execute(_, _) => Taken(w, w.log[t], e, false)
         case Requeue(_, score, _) => Waiting(w.log[t], e) && e.createdAt + TotalDelay(e.attempt) <= score
         case _ => Taken(w, w.log[t], e, true)
  }

  predicate WorkerOk(w: World, j: WorkerId, k: Worker) {
    HeldOk(w, j, k) && forall e | e in Todo(k) :: ListedOk(w, e)
  }

  /** The final account of a ticket. */
  predicate LogOk(w: World, t: Ticket)
    requires t in w.log
  {
    && At(w, t, w.log[t].place) && t in w.stamped
    && w.log[t].runs <= MAX_ATTEMPTS
    && (w.log[t].place.Ended? && w.log[t].place.how.DeadLettered? ==>
      && w.log[t].runs == MAX_ATTEMPTS && w.log[t].delay == TotalDelay(MAX_ATTEMPTS - 1)
      && t.stamp + TotalDelay(MAX_ATTEMPTS - 1) <= w.now)
  }

  predicate Inv(w: World) {
    && (forall i | i in w.enqueuers :: EnqueuerOk(w, i, w.enqueuers[i]))
    && (forall e | e in w.pending :: PendingOk(w, e))
    && (forall e | e in w.dlq :: DeadOk(w, e))
    && (forall j | j in w.workers :: WorkerOk(w, j, w.workers[j]))
    && (forall t | t in w.log :: LogOk(w, t))
    && (forall i, k | i in w.enqueuers && k in w.enqueuers && i != k :: DistinctTickets(w.enqueuers[i], w.enqueuers[k]))
  }

  /** Two enqueuers never carry the same ticket. */
  predicate DistinctTickets(q: Enqueuer, r: Enqueuer) {
    q.Over? || r.Over? || TicketOf(q.e) != TicketOf(r.e)
  }

  // ---- every step keeps the invariant ------------------------------------

  /** The step from w to w' is about ticket t only. */
  ghost predicate AboutOnly(w: World, w': World, t: Ticket) {
    && w.now <= w'.now && w.stamped <= w'.stamped
    && (forall u | u in w.log :: u in w'.log && (u != t ==> w'.log[u] == w.log[u]))
    && (forall u | u in w'.log && u != t :: u in w.log)
    && (forall e | e in w.pending && TicketOf(e) != t :: e in w'.pending && w'.pending[e] == w.pending[e])
    && (forall e | e in w'.pending && TicketOf(e) != t :: e in w.pending)
    && (forall e | e in w.dlq && TicketOf(e) != t :: e in w'.dlq)
    && (forall e | e in w'.dlq && TicketOf(e) != t :: e in w.dlq)
    && (forall e | TicketOf(e) == t && ListedOk(w, e) :: ListedOk(w', e))
  }

  lemma ListedFrame(w: World, w': World, t: Ticket, e: Entry)
    requires AboutOnly(w, w', t) && ListedOk(w, e)
    ensures ListedOk(w', e)
  {
  }

  lemma WorkerFrame(w: World, w': World, t: Ticket, j: WorkerId)
    requires AboutOnly(w, w', t) && j in w.workers && WorkerOk(w, j, w.workers[j])
    requires Held(w.workers[j]).Some? ==> TicketOf(Held(w.workers[j]).value) != t
    ensures WorkerOk(w', j, w.workers[j])
  {
    forall e | e in Todo(w.workers[j])
      ensures ListedOk(w', e)
    {
      ListedFrame(w, w', t, e);
    }
  }

  /** All tickets but t are where they were. */
  lemma LogFrame(w: World, w': World, t: Ticket, u: Ticket)
    requires AboutOnly(w, w', t) && u in w.log && u != t && LogOk(w, u)
    requires w'.workers.Keys >= w.workers.Keys && w'.enqueuers.Keys >= w.enqueuers.Keys
    requires forall j | j in w.workers && w'.workers[j] != w.workers[j] :: !InHands(w, j, u)
    requires forall i | i in w.enqueuers && w'.enqueuers[i] != w.enqueuers[i] :: !At(w, u, AtEnqueuer(i))
    ensures LogOk(w', u)
  {
  }

  predicate TodoShrinks(k: Worker, k': Worker) {
    Todo(k') == [] || Todo(k') == Todo(k) || (Todo(k) != [] && Todo(k') == Todo(k)[1..])
  }

  /** Worker j moves and nobody else does. */
  predicate MovesAlone(w: World, w': World, j: WorkerId) {
    w'.enqueuers == w.enqueuers && j in w'.workers && w'.workers == w.workers[j := w'.workers[j]]
  }

  /** ... listing nothing new. */
  predicate ListsLess(w: World, w': World, j: WorkerId) {
    j in w.workers && j in w'.workers ==> TodoShrinks(w.workers[j], w'.workers[j])
  }

  lemma TryMovesAlone(w: World, w': World, j: WorkerId, todo: seq<Entry>, o: Outcome)
    requires todo != [] && w' == DoTry(w, j, todo, o)
    requires todo != []
    ensures MovesAlone(w, w', j)
  {
    if o == Fine && todo[0].id !in w.locks {
      return;
    }
  }

  lemma TryListsLess(w: World, j: WorkerId, todo: seq<Entry>, o: Outcome)
    requires j in w.workers && todo != [] && Todo(w.workers[j]) == todo
    ensures ListsLess(w, DoTry(w, j, todo, o), j)
  {
    assert [todo[0]] + todo[1..] == todo;
  }

  lemma ClaimMovesAlone(w: World, w': World, j: WorkerId, e: Entry, todo: seq<Entry>, o: Outcome)
    requires w' == DoClaim(w, j, e, todo, o)
    ensures MovesAlone(w, w', j)
  {
    if o == Fine && e in w.pending {
      return;
    }
  }

  lemma ClaimListsLess(w: World, j: WorkerId, e: Entry, todo: seq<Entry>, o: Outcome)
    requires j in w.workers && w.workers[j] == Claim(e, todo)
    ensures ListsLess(w, DoClaim(w, j, e, todo, o), j)
  {
    assert ([e] + todo)[1..] == todo;
  }

  lemma ExecuteMovesAlone(w: World, j: WorkerId, e: Entry, todo: seq<Entry>, o: Outcome, err: int)
    ensures MovesAlone(w, DoExecute(w, j, e, todo, o, err), j)
    ensures j in w.workers && Todo(w.workers[j]) == todo ==> ListsLess(w, DoExecute(w, j, e, todo, o, err), j)
  {
  }

  lemma SucceededMovesAlone(w: World, j: WorkerId, e: Entry, todo: seq<Entry>, o: Outcome, err: int)
    ensures MovesAlone(w, DoSucceeded(w, j, e, todo, o, err), j)
    ensures j in w.workers && Todo(w.workers[j]) == todo ==> ListsLess(w, DoSucceeded(w, j, e, todo, o, err), j)
  {
  }

  lemma UnlockMovesAlone(w: World, j: WorkerId, e: Entry, todo: seq<Entry>, o: Outcome, err: int)
    ensures MovesAlone(w, DoUnlock(w, j, e, todo, o, err), j)
    ensures j in w.workers && Todo(w.workers[j]) == todo ==> ListsLess(w, DoUnlock(w, j, e, todo, o, err), j)
  {
  }

  lemma FailedMovesAlone(w: World, w': World, j: WorkerId, e: Entry, todo: seq<Entry>, o: Outcome)
    requires w' == DoFailed(w, j, e, todo, o)
    ensures MovesAlone(w, w', j)
  {
    if e.attempt >= e.maxAttempts {
      return;
    }
  }

  lemma FailedListsLess(w: World, w': World, j: WorkerId, e: Entry, todo: seq<Entry>, o: Outcome)
    requires w' == DoFailed(w, j, e, todo, o)
    requires j in w.workers && Todo(w.workers[j]) == todo
    ensures ListsLess(w, w', j)
  {
    if e.attempt >= e.maxAttempts {
      return;
    }
  }

  lemma RequeueMovesAlone(w: World, j: WorkerId, e: Entry, score: nat, todo: seq<Entry>, o: Outcome)
    ensures MovesAlone(w, DoRequeue(w, j, e, score, todo, o), j)
    ensures j in w.workers && Todo(w.workers[j]) == todo ==> ListsLess(w, DoRequeue(w, j, e, score, todo, o), j)
  {
  }

  lemma WorkerMovesAlone(w: World, j: WorkerId, o: Outcome, err: int)
    requires j in w.workers && w.workers[j] != Batch([])
    ensures MovesAlone(w, DoWorker(w, j, o, err), j)
  {
    match w.workers[j] {
      case Batch(todo) => TryMovesAlone(w, DoWorker(w, j, o, err), j, todo, o);
      case Claim(e, todo) => ClaimMovesAlone(w, DoWorker(w, j, o, err), j, e, todo, o);
      case Execute(e, todo) => ExecuteMovesAlone(w, j, e, todo, o, err);
      case Succeeded(e, todo) => SucceededMovesAlone(w, j, e, todo, o, err);
      case Unlock(e, todo) => UnlockMovesAlone(w, j, e, todo, o, err);
      case Failed(e, todo) => FailedMovesAlone(w, DoWorker(w, j, o, err), j, e, todo, o);
      case Requeue(e, score, todo) => RequeueMovesAlone(w, j, e, score, todo, o);
      case Buried(_, _) =>
      case Release(_, _) =>
    }
  }

  lemma WorkerListsLess(w: World, j: WorkerId, o: Outcome, err: int)
    requires j in w.workers && w.workers[j] != Batch([])
    ensures ListsLess(w, DoWorker(w, j, o, err), j)
  {
    match w.workers[j] {
      case Batch(todo) => TryListsLess(w, j, todo, o);
      case Claim(e, todo) => ClaimListsLess(w, j, e, todo, o);
      case Execute(e, todo) => ExecuteMovesAlone(w, j, e, todo, o, err);
      case Succeeded(e, todo) => SucceededMovesAlone(w, j, e, todo, o, err);
      case Unlock(e, todo) => UnlockMovesAlone(w, j, e, todo, o, err);
      case Failed(e, todo) => FailedListsLess(w, DoWorker(w, j, o, err), j, e, todo, o);
      case Requeue(e, score, todo) => RequeueMovesAlone(w, j, e, score, todo, o);
      case Buried(_, _) =>
      case Release(_, _) =>
    }
  }

  lemma OwnTodoStays(w: World, w': World, j: WorkerId, k: Worker, t: Ticket)
    requires AboutOnly(w, w', t) && j in w.workers && WorkerOk(w, j, w.workers[j])
    requires TodoShrinks(w.workers[j], k) && HeldOk(w', j, k)
    ensures WorkerOk(w', j, k)
  {
    forall e | e in Todo(k)
      ensures ListedOk(w', e)
    {
      assert e in Todo(w.workers[j]);
      ListedFrame(w, w', t, e);
    }
  }

  /** The worker's step concerns the ticket it has or is about to give up. */
  predicate OwnTicket(w: World, j: WorkerId, t: Ticket) {
    t in w.log && j in w.workers && (InHands(w, j, t) || (w.log[t].place.AtPending? && Held(w.workers[j]) == None))
  }

  lemma WorkersAfter(w: World, w': World, j: WorkerId, k: Worker, t: Ticket)
    requires Inv(w) && AboutOnly(w, w', t) && OwnTicket(w, j, t)
    requires w'.workers == w.workers[j := k] && TodoShrinks(w.workers[j], k) && HeldOk(w', j, k)
    ensures forall i | i in w'.workers :: WorkerOk(w', i, w'.workers[i])
  {
    forall i | i in w'.workers
      ensures WorkerOk(w', i, w'.workers[i])
    {
      assert WorkerOk(w, i, w.workers[i]);
      if i != j {
        assert WorkerOk(w, j, w.workers[j]);
        WorkerFrame(w, w', t, i);
      } else {
        OwnTodoStays(w, w', j, k, t);
      }
    }
  }

  lemma LogAfter(w: World, w': World, j: WorkerId, k: Worker, t: Ticket)
    requires Inv(w) && AboutOnly(w, w', t) && OwnTicket(w, j, t)
    requires w'.enqueuers == w.enqueuers && w'.workers == w.workers[j := k] && LogOk(w', t)
    ensures forall u | u in w'.log :: LogOk(w', u)
  {
    assert WorkerOk(w, j, w.workers[j]);
    forall u | u in w'.log
      ensures LogOk(w', u)
    {
      if u != t {
        LogFrame(w, w', t, u);
      }
    }
  }

  lemma EnqueuersAfter(w: World, w': World, j: WorkerId, t: Ticket)
    requires Inv(w) && AboutOnly(w, w', t) && OwnTicket(w, j, t) && w'.enqueuers == w.enqueuers
    ensures forall i | i in w'.enqueuers :: EnqueuerOk(w', i, w'.enqueuers[i])
  {
    assert WorkerOk(w, j, w.workers[j]);
    forall i | i in w.enqueuers
      ensures EnqueuerOk(w', i, w'.enqueuers[i])
    {
      assert EnqueuerOk(w, i, w.enqueuers[i]);
    }
  }

  lemma QueuesAfter(w: World, w': World, t: Ticket)
    requires Inv(w) && AboutOnly(w, w', t)
    requires forall e | e in w'.pending && TicketOf(e) == t :: PendingOk(w', e)
    requires forall e | e in w'.dlq && TicketOf(e) == t :: DeadOk(w', e)
    ensures forall e | e in w'.pending :: PendingOk(w', e)
    ensures forall e | e in w'.dlq :: DeadOk(w', e)
  {
    forall e | e in w'.pending ensures PendingOk(w', e) {
      assert TicketOf(e) != t ==> PendingOk(w, e);
    }
    forall e | e in w'.dlq ensures DeadOk(w', e) {
      assert TicketOf(e) != t ==> DeadOk(w, e);
    }
  }

  lemma WorkerStep(w: World, w': World, j: WorkerId, k: Worker, t: Ticket)
    requires Inv(w) && AboutOnly(w, w', t) && OwnTicket(w, j, t)
    requires w'.enqueuers == w.enqueuers && w'.workers == w.workers[j := k]
    requires TodoShrinks(w.workers[j], k) && HeldOk(w', j, k) && LogOk(w', t)
    requires forall e | e in w'.pending && TicketOf(e) == t :: PendingOk(w', e)
    requires forall e | e in w'.dlq && TicketOf(e) == t :: DeadOk(w', e)
    ensures Inv(w')
  {
    WorkersAfter(w, w', j, k, t);
    LogAfter(w, w', j, k, t);
    EnqueuersAfter(w, w', j, t);
    QueuesAfter(w, w', t);
  }

  lemma OtherEnqueuers(w: World, w': World, i: nat, q: Enqueuer, t: Ticket)
    requires Inv(w) && AboutOnly(w, w', t) && i in w.enqueuers && !w.enqueuers[i].Over? && t == TicketOf(w.enqueuers[i].e)
    requires w'.enqueuers == w.enqueuers[i := q] && (q.Over? || TicketOf(q.e) == t)
    ensures forall n | n in w'.enqueuers && n != i ::
      EnqueuerOk(w', n, w'.enqueuers[n]) && DistinctTickets(w'.enqueuers[n], q) && DistinctTickets(q, w'.enqueuers[n])
  {
    forall n | n in w'.enqueuers && n != i
      ensures EnqueuerOk(w', n, w'.enqueuers[n])
      ensures DistinctTickets(w'.enqueuers[n], q) && DistinctTickets(q, w'.enqueuers[n])
    {
      assert EnqueuerOk(w, n, w.enqueuers[n]);
      assert DistinctTickets(w.enqueuers[n], w.enqueuers[i]) && DistinctTickets(w.enqueuers[i], w.enqueuers[n]);
    }
  }

  lemma WorkersStay(w: World, w': World, i: nat, t: Ticket)
    requires Inv(w) && AboutOnly(w, w', t) && i in w.enqueuers && !w.enqueuers[i].Over? && t == TicketOf(w.enqueuers[i].e)
    requires w'.workers == w.workers
    ensures forall j | j in w'.workers :: WorkerOk(w', j, w'.workers[j])
  {
    assert EnqueuerOk(w, i, w.enqueuers[i]);
    forall j | j in w'.workers
      ensures WorkerOk(w', j, w'.workers[j])
    {
      assert WorkerOk(w, j, w.workers[j]);
      WorkerFrame(w, w', t, j);
    }
  }

  lemma LogStays(w: World, w': World, i: nat, q: Enqueuer, t: Ticket)
    requires Inv(w) && AboutOnly(w, w', t) && i in w.enqueuers && !w.enqueuers[i].Over? && t == TicketOf(w.enqueuers[i].e)
    requires w'.workers == w.workers && w'.enqueuers == w.enqueuers[i := q] && (t in w'.log ==> LogOk(w', t))
    ensures forall u | u in w'.log :: LogOk(w', u)
  {
    forall u | u in w'.log
      ensures LogOk(w', u)
    {
      if u != t {
        LogFrame(w, w', t, u);
      }
    }
  }

  lemma EnqueuerStep(w: World, w': World, i: nat, q: Enqueuer, t: Ticket)
    requires Inv(w) && AboutOnly(w, w', t) && i in w.enqueuers && !w.enqueuers[i].Over? && t == TicketOf(w.enqueuers[i].e)
    requires w'.workers == w.workers && w'.enqueuers == w.enqueuers[i := q]
    requires q.Over? || TicketOf(q.e) == t
    requires EnqueuerOk(w', i, q) && (t in w'.log ==> LogOk(w', t))
    requires forall e | e in w'.pending && TicketOf(e) == t :: PendingOk(w', e)
    requires forall e | e in w'.dlq && TicketOf(e) == t :: DeadOk(w', e)
    ensures Inv(w')
  {
    WorkersStay(w, w', i, t);
    LogStays(w, w', i, q, t);
    OtherEnqueuers(w, w', i, q, t);
    QueuesAfter(w, w', t);
  }

  ghost predicate EnqueuedLocally(w: World, w': World, i: nat, t: Ticket) {
    && AboutOnly(w, w', t) && i in w'.enqueuers && EnqueuerOk(w', i, w'.enqueuers[i])
    && (t in w'.log ==> LogOk(w', t))
    && (forall e | e in w'.pending && TicketOf(e) == t :: PendingOk(w', e))
    && (forall e | e in w'.dlq && TicketOf(e) == t :: DeadOk(w', e))
  }

  predicate AcceptingHere(w: World, i: nat, t: Ticket) {
    && i in w.enqueuers && !w.enqueuers[i].Over? && !w.enqueuers[i].Add?
    && EnqueuerOk(w, i, w.enqueuers[i]) && t == TicketOf(w.enqueuers[i].e)
    && (forall e | e in w.pending :: TicketOf(e) != t) && (forall e | e in w.dlq :: TicketOf(e) != t)
  }

  lemma AcceptedIsLocal(w: World, w': World, i: nat, keyUntil: nat, t: Ticket)
    requires AcceptingHere(w, i, t) && w' == Accept(w, i, w.enqueuers[i].e, keyUntil).(idem := w'.idem)
    ensures EnqueuedLocally(w, w', i, t)
  {
  }

  lemma RefusedIsLocal(w: World, w': World, i: nat, q: Enqueuer, t: Ticket)
    requires AcceptingHere(w, i, t) && (q == Over || q == SetKey(w.enqueuers[i].e)) && w' == Put(w, i, q).(idem := w'.idem)
    ensures EnqueuedLocally(w, w', i, t)
  {
  }

  /** An accepting enqueuer moves alone and keeps to its ticket. */
  predicate AcceptsAlone(w: World, w': World, i: nat, t: Ticket) {
    && w'.workers == w.workers && i in w'.enqueuers && w'.enqueuers == w.enqueuers[i := w'.enqueuers[i]]
    && (w'.enqueuers[i].Over? || TicketOf(w'.enqueuers[i].e) == t)
  }

  lemma SetKeyNxIsLocal(w: World, w': World, i: nat, o: Outcome, t: Ticket)
    requires AcceptingHere(w, i, t) && w.enqueuers[i].SetKeyNx? && w' == DoEnqueuer(w, i, o)
    ensures EnqueuedLocally(w, w', i, t) && AcceptsAlone(w, w', i, t)
  {
    var e := w.enqueuers[i].e;
    if o == Fine && KeyLive(w, e.id) {
      RefusedIsLocal(w, w', i, Over, t);
      return;
    }
    AcceptedIsLocal(w, w', i, NewKey(w, e.id, o), t);
  }

  lemma CheckKeyIsLocal(w: World, w': World, i: nat, o: Outcome, t: Ticket)
    requires AcceptingHere(w, i, t) && w.enqueuers[i].CheckKey? && w' == DoEnqueuer(w, i, o)
    ensures EnqueuedLocally(w, w', i, t) && AcceptsAlone(w, w', i, t)
  {
    var q := if o == Fine && !KeyLive(w, w.enqueuers[i].e.id) then SetKey(w.enqueuers[i].e) else Over;
    assert w' == Put(w, i, q);
    RefusedIsLocal(w, w', i, q, t);
  }

  lemma SetKeyIsLocal(w: World, w': World, i: nat, o: Outcome, t: Ticket)
    requires AcceptingHere(w, i, t) && w.enqueuers[i].SetKey? && w' == DoEnqueuer(w, i, o)
    ensures EnqueuedLocally(w, w', i, t) && AcceptsAlone(w, w', i, t)
  {
    if o == Fine {
      AcceptedIsLocal(w, w', i, w.now + IDEM_TTL_MS, t);
      return;
    }
    RefusedIsLocal(w, w', i, Over, t);
  }

  lemma AcceptIsLocal(w: World, w': World, i: nat, o: Outcome, t: Ticket)
    requires AcceptingHere(w, i, t) && w' == DoEnqueuer(w, i, o)
    ensures EnqueuedLocally(w, w', i, t) && AcceptsAlone(w, w', i, t)
  {
    match w.enqueuers[i] {
      case SetKeyNx(_) => SetKeyNxIsLocal(w, w', i, o, t);
      case CheckKey(_) => CheckKeyIsLocal(w, w', i, o, t);
      case SetKey(_) => SetKeyIsLocal(w, w', i, o, t);
    }
  }

  lemma CrashedIsLocal(w: World, i: nat, t: Ticket)
    requires i in w.enqueuers && !w.enqueuers[i].Over? && EnqueuerOk(w, i, w.enqueuers[i]) && t == TicketOf(w.enqueuers[i].e)
    requires t in w.log ==> LogOk(w, t)
    requires (forall e | e in w.pending :: TicketOf(e) != t) && (forall e | e in w.dlq :: TicketOf(e) != t)
    ensures EnqueuedLocally(w, Step(w, CrashEnqueuer(i)), i, t)
  {
    if w.enqueuers[i].Add? {
      return;
    }
  }

  lemma AddIsLocal(w: World, i: nat, o: Outcome, t: Ticket)
    requires i in w.enqueuers && w.enqueuers[i].Add? && t == TicketOf(w.enqueuers[i].e)
    requires EnqueuerOk(w, i, w.enqueuers[i]) && LogOk(w, t)
    requires (forall e | e in w.pending :: TicketOf(e) != t) && (forall e | e in w.dlq :: TicketOf(e) != t)
    ensures EnqueuedLocally(w, DoEnqueuer(w, i, o), i, t)
  {
  }

  lemma NotPendingYet(w: World, i: nat)
    requires Inv(w) && i in w.enqueuers && !w.enqueuers[i].Over?
    ensures forall e | e in w.pending :: TicketOf(e) != TicketOf(w.enqueuers[i].e)
    ensures forall e | e in w.dlq :: TicketOf(e) != TicketOf(w.enqueuers[i].e)
  {
    assert EnqueuerOk(w, i, w.enqueuers[i]);
    forall e | e in w.pending ensures TicketOf(e) != TicketOf(w.enqueuers[i].e) {
      assert PendingOk(w, e);
    }
    forall e | e in w.dlq ensures TicketOf(e) != TicketOf(w.enqueuers[i].e) {
      assert DeadOk(w, e);
    }
  }

  lemma AddKeepsInv(w: World, i: nat, o: Outcome)
    requires Inv(w) && i in w.enqueuers && w.enqueuers[i].Add?
    ensures Inv(DoEnqueuer(w, i, o))
  {
    var t := TicketOf(w.enqueuers[i].e);
    assert EnqueuerOk(w, i, w.enqueuers[i]) && LogOk(w, t);
    NotPendingYet(w, i);
    AddIsLocal(w, i, o, t);
    EnqueuerStep(w, DoEnqueuer(w, i, o), i, DoEnqueuer(w, i, o).enqueuers[i], t);
  }

  lemma AcceptKeepsInv(w: World, i: nat, o: Outcome)
    requires Inv(w) && i in w.enqueuers && !w.enqueuers[i].Over? && !w.enqueuers[i].Add?
    ensures Inv(DoEnqueuer(w, i, o))
  {
    var t, w' := TicketOf(w.enqueuers[i].e), DoEnqueuer(w, i, o);
    assert EnqueuerOk(w, i, w.enqueuers[i]);
    NotPendingYet(w, i);
    AcceptIsLocal(w, w', i, o, t);
    AcceptedKeepsInv(w, w', i, t);
  }

  lemma AcceptedKeepsInv(w: World, w': World, i: nat, t: Ticket)
    requires Inv(w) && i in w.enqueuers && !w.enqueuers[i].Over? && t == TicketOf(w.enqueuers[i].e)
    requires EnqueuedLocally(w, w', i, t) && AcceptsAlone(w, w', i, t)
    ensures Inv(w')
  {
    EnqueuerStep(w, w', i, w'.enqueuers[i], t);
  }

  lemma EnqueuerKeepsInv(w: World, i: nat, o: Outcome)
    requires Inv(w) && i in w.enqueuers
    ensures Inv(DoEnqueuer(w, i, o))
  {
    if w.enqueuers[i].Add? {
      AddKeepsInv(w, i, o);
    } else if !w.enqueuers[i].Over? {
      AcceptKeepsInv(w, i, o);
    }
  }

  /** A worker step that touches no ticket. */
  lemma QuietWorkers(w: World, w': World, j: WorkerId, k: Worker)
    requires Inv(w) && w' == w.(workers := w.workers[j := k], locks := w'.locks, idem := w'.idem)
    requires Held(k) == None && forall e | e in Todo(k) :: ListedOk(w, e)
    ensures forall i | i in w'.workers :: WorkerOk(w', i, w'.workers[i])
  {
    forall i | i in w'.workers
      ensures WorkerOk(w', i, w'.workers[i])
    {
      assert i in w.workers ==> WorkerOk(w, i, w.workers[i]);
      assert forall e :: ListedOk(w, e) ==> ListedOk(w', e);
    }
  }

  lemma QuietWorkerStep(w: World, w': World, j: WorkerId, k: Worker)
    requires Inv(w) && w' == w.(workers := w.workers[j := k], locks := w'.locks, idem := w'.idem)
    requires Held(k) == None && (j in w.workers ==> Held(w.workers[j]) == None)
    requires forall e | e in Todo(k) :: ListedOk(w, e)
    ensures Inv(w')
  {
    QuietWorkers(w, w', j, k);
    forall u | u in w'.log
      ensures LogOk(w', u)
    {
      assert LogOk(w, u);
    }
    assert forall e | e in w.pending :: PendingOk(w, e) ==> PendingOk(w', e);
    assert forall i | i in w.enqueuers :: EnqueuerOk(w, i, w.enqueuers[i]) ==> EnqueuerOk(w', i, w.enqueuers[i]);
  }

  /** A ticket has at most one pending entry, and none while it is elsewhere. */
  lemma PendingIsPlace(w: World, t: Ticket, d: Entry)
    requires Inv(w) && t in w.log && d in w.pending && TicketOf(d) == t
    ensures w.log[t].place == AtPending(d)
  {
    assert PendingOk(w, d);
  }

  lemma ClaimKeepsInv(w: World, j: WorkerId, o: Outcome, err: int)
    requires Inv(w) && j in w.workers && w.workers[j].Claim? && o == Fine && w.workers[j].e in w.pending
    ensures Inv(DoWorker(w, j, o, err))
  {
    var w' := DoWorker(w, j, o, err);
    var e := w.workers[j].e;
    var t := TicketOf(e);
    assert PendingOk(w, e) && LogOk(w, t);
    assert WorkerOk(w, j, w.workers[j]) && e in Todo(w.workers[j]) && ListedOk(w, e);
    forall d | d in w.pending && TicketOf(d) == t
      ensures d == e
    {
      PendingIsPlace(w, t, d);
    }
    ClaimIsLocal(w, w', j, e, t);
    WorkerStep(w, w', j, w'.workers[j], t);
  }

  /** ZREM took the entry and lost its reply: nobody has it. */
  lemma LostClaimKeepsInv(w: World, j: WorkerId, err: int)
    requires Inv(w) && j in w.workers && w.workers[j].Claim? && w.workers[j].e in w.pending
    ensures Inv(DoWorker(w, j, FailsLate, err))
  {
    var w', e := DoWorker(w, j, FailsLate, err), w.workers[j].e;
    var t := TicketOf(e);
    assert PendingOk(w, e) && LogOk(w, t);
    forall d | d in w.pending && TicketOf(d) == t
      ensures d == e
    {
      PendingIsPlace(w, t, d);
    }
    NotDeadYet(w, t);
    LostClaimIsLocal(w, w', j, e, t);
    WorkerMovesAlone(w, j, FailsLate, err);
    WorkerListsLess(w, j, FailsLate, err);
    WorkerStep(w, w', j, w'.workers[j], t);
  }

  lemma LostClaimIsLocal(w: World, w': World, j: WorkerId, e: Entry, t: Ticket)
    requires j in w.workers && w.workers[j].Claim? && w.workers[j].e == e && t == TicketOf(e)
    requires e in w.pending && PendingOk(w, e) && LogOk(w, t)
    requires (forall d | d in w.pending && TicketOf(d) == t :: d == e) && (forall d | d in w.dlq :: TicketOf(d) != t)
    requires w' == DoClaim(w, j, e, w.workers[j].todo, FailsLate)
    ensures AboutOnly(w, w', t) && j in w'.workers && HeldOk(w', j, w'.workers[j]) && LogOk(w', t)
  {
  }

  lemma NotDeadYet(w: World, t: Ticket)
    requires Inv(w) && t in w.log && !w.log[t].place.Ended?
    ensures forall e | e in w.dlq :: TicketOf(e) != t
  {
    forall e | e in w.dlq ensures TicketOf(e) != t {
      assert DeadOk(w, e);
    }
  }

  lemma ClaimIsLocal(w: World, w': World, j: WorkerId, e: Entry, t: Ticket)
    requires j in w.workers && w.workers[j].Claim? && w.workers[j].e == e && t == TicketOf(e)
    requires e in w.pending && PendingOk(w, e) && w.pending[e] <= w.now && LogOk(w, t)
    requires forall d | d in w.pending && TicketOf(d) == t :: d == e
    requires w' == DoWorker(w, j, Fine, 0)
    ensures AboutOnly(w, w', t) && HeldOk(w', j, w'.workers[j]) && LogOk(w', t)
  {
  }

  lemma HeldIsHere(w: World, j: WorkerId, t: Ticket)
    requires Inv(w) && InHands(w, j, t)
    ensures HeldHere(w, j, t)
  {
    assert WorkerOk(w, j, w.workers[j]) && LogOk(w, t);
    forall d | d in w.pending
      ensures TicketOf(d) != t
    {
      assert PendingOk(w, d);
    }
    NotDeadYet(w, t);
  }

  lemma HeldKeepsInv(w: World, j: WorkerId, o: Outcome, err: int)
    requires Inv(w) && j in w.workers && Held(w.workers[j]).Some?
    ensures Inv(DoWorker(w, j, o, err))
  {
    var t := TicketOf(Held(w.workers[j]).value);
    HeldIsHere(w, j, t);
    var w' := DoWorker(w, j, o, err);
    HeldIsAbout(w, w', j, o, err, t);
    HeldSettles(w, w', j, o, err, t);
    WorkerMovesAlone(w, j, o, err);
    WorkerListsLess(w, j, o, err);
    WorkerStep(w, w', j, w'.workers[j], t);
  }

  lemma DelayAdds(attempt: nat)
    requires attempt > 0
    ensures TotalDelay(attempt - 1) + Backoff(attempt) == TotalDelay(attempt)
  {
  }

  /** What the local lemmas below share: the ticket is with worker j and not pending. */
  predicate HeldHere(w: World, j: WorkerId, t: Ticket) {
    && j in w.workers && Held(w.workers[j]).Some? && t == TicketOf(Held(w.workers[j]).value)
    && HeldOk(w, j, w.workers[j]) && LogOk(w, t)
    && (forall d | d in w.pending :: TicketOf(d) != t) && (forall d | d in w.dlq :: TicketOf(d) != t)
  }

  /** The ticket is accounted for after the step of worker j. */
  ghost predicate Settled(w': World, j: WorkerId, t: Ticket) {
    && j in w'.workers && HeldOk(w', j, w'.workers[j]) && t in w'.log && LogOk(w', t)
    && (forall e | e in w'.pending && TicketOf(e) == t :: PendingOk(w', e))
    && (forall e | e in w'.dlq && TicketOf(e) == t :: DeadOk(w', e))
  }

  lemma ExecuteIsAbout(w: World, w': World, j: WorkerId, o: Outcome, err: int, t: Ticket)
    requires HeldHere(w, j, t) && w.workers[j].Execute?
    requires w' == DoExecute(w, j, w.workers[j].e, w.workers[j].todo, o, err)
    ensures AboutOnly(w, w', t)
  {
  }

  lemma ExecuteSettles(w: World, w': World, j: WorkerId, o: Outcome, err: int, t: Ticket)
    requires HeldHere(w, j, t) && w.workers[j].Execute?
    requires w' == DoExecute(w, j, w.workers[j].e, w.workers[j].todo, o, err)
    ensures Settled(w', j, t)
  {
  }

  lemma SucceededIsAbout(w: World, w': World, j: WorkerId, o: Outcome, err: int, t: Ticket)
    requires HeldHere(w, j, t) && w.workers[j].Succeeded?
    requires w' == DoSucceeded(w, j, w.workers[j].e, w.workers[j].todo, o, err)
    ensures AboutOnly(w, w', t)
  {
    assert w'.pending == w.pending && w'.dlq == w.dlq && w'.now == w.now;
    if j.Gateway? {
      return;
    }
    if o == Fine {
      return;
    }
  }

  lemma SucceededSettles(w: World, w': World, j: WorkerId, o: Outcome, err: int, t: Ticket)
    requires HeldHere(w, j, t) && w.workers[j].Succeeded?
    requires w' == DoSucceeded(w, j, w.workers[j].e, w.workers[j].todo, o, err)
    ensures Settled(w', j, t)
  {
    if j.Gateway? {
      return;
    }
    if o == Fine {
      return;
    }
  }

  lemma UnlockIsAbout(w: World, w': World, j: WorkerId, o: Outcome, err: int, t: Ticket)
    requires HeldHere(w, j, t) && w.workers[j].Unlock?
    requires w' == DoUnlock(w, j, w.workers[j].e, w.workers[j].todo, o, err)
    ensures AboutOnly(w, w', t)
  {
    if o == Fine {
      return;
    }
  }

  lemma UnlockSettles(w: World, w': World, j: WorkerId, o: Outcome, err: int, t: Ticket)
    requires HeldHere(w, j, t) && w.workers[j].Unlock?
    requires w' == DoUnlock(w, j, w.workers[j].e, w.workers[j].todo, o, err)
    ensures Settled(w', j, t)
  {
    if o == Fine {
      return;
    }
  }

  lemma LastFailureIsAbout(w: World, w': World, j: WorkerId, o: Outcome, err: int, t: Ticket)
    requires HeldHere(w, j, t) && w.workers[j].Failed? && w.workers[j].e.attempt >= w.workers[j].e.maxAttempts
    requires w' == DoFailed(w, j, w.workers[j].e, w.workers[j].todo, o)
    ensures AboutOnly(w, w', t)
  {
    if Effective(o) {
      return;
    }
  }

  lemma LastFailureSettles(w: World, w': World, j: WorkerId, o: Outcome, err: int, t: Ticket)
    requires HeldHere(w, j, t) && w.workers[j].Failed? && w.workers[j].e.attempt >= w.workers[j].e.maxAttempts
    requires w' == DoFailed(w, j, w.workers[j].e, w.workers[j].todo, o)
    ensures Settled(w', j, t)
  {
    if Effective(o) {
      return;
    }
  }

  lemma RetriedFailureIsAbout(w: World, w': World, j: WorkerId, o: Outcome, err: int, t: Ticket)
    requires HeldHere(w, j, t) && w.workers[j].Failed? && w.workers[j].e.attempt < w.workers[j].e.maxAttempts
    requires w' == DoFailed(w, j, w.workers[j].e, w.workers[j].todo, o)
    ensures AboutOnly(w, w', t)
  {
    assert Taken(w, w.log[t], w.workers[j].e, true);
    DelayAdds(w.workers[j].e.attempt);
  }

  lemma RetriedFailureSettles(w: World, w': World, j: WorkerId, o: Outcome, err: int, t: Ticket)
    requires HeldHere(w, j, t) && w.workers[j].Failed? && w.workers[j].e.attempt < w.workers[j].e.maxAttempts
    requires w' == DoFailed(w, j, w.workers[j].e, w.workers[j].todo, o)
    ensures Settled(w', j, t)
  {
    assert Taken(w, w.log[t], w.workers[j].e, true);
    DelayAdds(w.workers[j].e.attempt);
  }

  lemma RequeueIsAbout(w: World, w': World, j: WorkerId, o: Outcome, err: int, t: Ticket)
    requires HeldHere(w, j, t) && w.workers[j].Requeue?
    requires w' == DoRequeue(w, j, w.workers[j].e, w.workers[j].score, w.workers[j].todo, o)
    ensures AboutOnly(w, w', t)
  {
    if Effective(o) {
      return;
    }
  }

  lemma RequeueSettles(w: World, w': World, j: WorkerId, o: Outcome, err: int, t: Ticket)
    requires HeldHere(w, j, t) && w.workers[j].Requeue?
    requires w' == DoRequeue(w, j, w.workers[j].e, w.workers[j].score, w.workers[j].todo, o)
    ensures Settled(w', j, t)
  {
    if Effective(o) {
      return;
    }
  }

  lemma HeldIsAbout(w: World, w': World, j: WorkerId, o: Outcome, err: int, t: Ticket)
    requires HeldHere(w, j, t) && w' == DoWorker(w, j, o, err)
    ensures AboutOnly(w, w', t)
  {
    match w.workers[j] {
      case Execute(_, _) => ExecuteIsAbout(w, w', j, o, err, t);
      case Succeeded(_, _) => SucceededIsAbout(w, w', j, o, err, t);
      case Unlock(_, _) => UnlockIsAbout(w, w', j, o, err, t);
      case Failed(e, _) =>
        if e.attempt >= e.maxAttempts {
          LastFailureIsAbout(w, w', j, o, err, t);
        } else {
          RetriedFailureIsAbout(w, w', j, o, err, t);
        }
      case Requeue(_, _, _) => RequeueIsAbout(w, w', j, o, err, t);
    }
  }

  lemma HeldSettles(w: World, w': World, j: WorkerId, o: Outcome, err: int, t: Ticket)
    requires HeldHere(w, j, t) && w' == DoWorker(w, j, o, err)
    ensures Settled(w', j, t)
  {
    match w.workers[j] {
      case Execute(_, _) => ExecuteSettles(w, w', j, o, err, t);
      case Succeeded(_, _) => SucceededSettles(w, w', j, o, err, t);
      case Unlock(_, _) => UnlockSettles(w, w', j, o, err, t);
      case Failed(e, _) =>
        if e.attempt >= e.maxAttempts {
          LastFailureSettles(w, w', j, o, err, t);
        } else {
          RetriedFailureSettles(w, w', j, o, err, t);
        }
      case Requeue(_, _, _) => RequeueSettles(w, w', j, o, err, t);
    }
  }

  /** Only the worker, the locks and the keys change, and the worker holds nothing. */
  predicate QuietMove(w: World, w': World, j: WorkerId) {
    && j in w'.workers && w' == w.(workers := w.workers[j := w'.workers[j]], locks := w'.locks, idem := w'.idem)
    && Held(w'.workers[j]) == None
  }

  lemma LockingIsQuiet(w: World, w': World, j: WorkerId, todo: seq<Entry>)
    requires todo != [] && todo[0].id !in w.locks && w' == DoTry(w, j, todo, Fine)
    ensures QuietMove(w, w', j)
  {
    assert w'.workers == w.workers[j := Claim(todo[0], todo[1..])];
  }

  lemma PassingIsQuiet(w: World, w': World, j: WorkerId, todo: seq<Entry>, o: Outcome)
    requires todo != [] && (o != Fine || todo[0].id in w.locks) && w' == DoTry(w, j, todo, o)
    ensures QuietMove(w, w', j)
  {
    assert w'.workers == w.workers[j := OrStop(j, o, Batch(todo[1..]))];
    if o == FailsLate {
      return;
    }
  }

  lemma TryIsQuiet(w: World, w': World, j: WorkerId, todo: seq<Entry>, o: Outcome)
    requires todo != [] && w' == DoTry(w, j, todo, o)
    ensures QuietMove(w, w', j)
  {
    if o == Fine && todo[0].id !in w.locks {
      LockingIsQuiet(w, w', j, todo);
    } else {
      PassingIsQuiet(w, w', j, todo, o);
    }
  }

  lemma ClaimIsQuiet(w: World, w': World, j: WorkerId, e: Entry, todo: seq<Entry>, o: Outcome)
    requires (o == Fails || e !in w.pending) && w' == DoClaim(w, j, e, todo, o)
    ensures QuietMove(w, w', j)
  {
  }

  lemma QuietChanges(w: World, w': World, j: WorkerId, o: Outcome, err: int)
    requires j in w.workers && Held(w.workers[j]) == None && w.workers[j] != Batch([]) && w' == DoWorker(w, j, o, err)
    requires w.workers[j].Claim? ==> o == Fails || w.workers[j].e !in w.pending
    ensures QuietMove(w, w', j)
  {
    match w.workers[j] {
      case Batch(todo) => TryIsQuiet(w, w', j, todo, o);
      case Claim(e, todo) => ClaimIsQuiet(w, w', j, e, todo, o);
      case Buried(_, _) => return;
      case Release(_, _) => return;
    }
  }

  lemma QuietKeepsInv(w: World, j: WorkerId, o: Outcome, err: int)
    requires Inv(w) && j in w.workers && Held(w.workers[j]) == None
    requires w.workers[j] != Batch([]) && (w.workers[j].Claim? ==> o == Fails || w.workers[j].e !in w.pending)
    ensures Inv(DoWorker(w, j, o, err))
  {
    var w' := DoWorker(w, j, o, err);
    assert WorkerOk(w, j, w.workers[j]);
    QuietChanges(w, w', j, o, err);
    WorkerListsLess(w, j, o, err);
    assert forall e | e in Todo(w'.workers[j]) :: e in Todo(w.workers[j]);
    QuietWorkerStep(w, w', j, w'.workers[j]);
  }

  lemma WorkerKeepsInv(w: World, j: WorkerId, o: Outcome, err: int)
    requires Inv(w) && j in w.workers
    ensures Inv(DoWorker(w, j, o, err))
  {
    var k := w.workers[j];
    if Held(k).Some? {
      HeldKeepsInv(w, j, o, err);
    } else if k.Claim? && o != Fails && k.e in w.pending {
      if o == Fine {
        ClaimKeepsInv(w, j, o, err);
      } else {
        LostClaimKeepsInv(w, j, err);
      }
    } else if k != Batch([]) {
      QuietKeepsInv(w, j, o, err);
    }
  }

  lemma ListKeepsInv(w: World, j: WorkerId, batch: seq<Entry>)
    requires Inv(w) && (j in w.workers ==> w.workers[j] == Batch([])) && MayList(w, batch)
    ensures Inv(Set(w, j, Batch(batch)))
  {
    forall e | e in batch
      ensures ListedOk(w, e)
    {
      assert PendingOk(w, e);
    }
    QuietWorkerStep(w, Set(w, j, Batch(batch)), j, Batch(batch));
  }

  lemma CrashIsLocal(w: World, j: WorkerId, t: Ticket)
    requires HeldHere(w, j, t)
    ensures AboutOnly(w, Step(w, CrashWorker(j)), t) && Settled(Step(w, CrashWorker(j)), j, t)
  {
  }

  lemma CrashOfHolderKeepsInv(w: World, w': World, j: WorkerId, t: Ticket)
    requires Inv(w) && InHands(w, j, t) && w' == Step(w, CrashWorker(j))
    ensures Inv(w')
  {
    HeldIsHere(w, j, t);
    CrashIsLocal(w, j, t);
    assert w'.workers == w.workers[j := Batch([])] && w'.enqueuers == w.enqueuers;
    WorkerStep(w, w', j, Batch([]), t);
  }

  lemma CrashWorkerKeepsInv(w: World, j: WorkerId)
    requires Inv(w) && j in w.workers
    ensures Inv(Step(w, CrashWorker(j)))
  {
    if Held(w.workers[j]).Some? {
      CrashOfHolderKeepsInv(w, Step(w, CrashWorker(j)), j, TicketOf(Held(w.workers[j]).value));
      return;
    }
    QuietWorkerStep(w, Step(w, CrashWorker(j)), j, Batch([]));
  }

  lemma CrashedAlone(w: World, w': World, i: nat, t: Ticket)
    requires i in w.enqueuers && !w.enqueuers[i].Over? && w' == Step(w, CrashEnqueuer(i))
    ensures AcceptsAlone(w, w', i, t)
  {
    if w.enqueuers[i].Add? {
      return;
    }
  }

  lemma CrashEnqueuerKeepsInv(w: World, i: nat)
    requires Inv(w) && i in w.enqueuers && !w.enqueuers[i].Over?
    ensures Inv(Step(w, CrashEnqueuer(i)))
  {
    var w' := Step(w, CrashEnqueuer(i));
    var q := w.enqueuers[i];
    var t := TicketOf(q.e);
    assert EnqueuerOk(w, i, q);
    NotPendingYet(w, i);
    assert t in w.log ==> LogOk(w, t);
    CrashedIsLocal(w, i, t);
    CrashedAlone(w, w', i, t);
    AcceptedKeepsInv(w, w', i, t);
  }

  lemma EnqueueFrame(w: World, w': World, i: nat, q: Enqueuer)
    requires Inv(w) && i !in w.enqueuers && !q.Over? && w' == Put(w, i, q).(stamped := w.stamped + {TicketOf(q.e)})
    ensures forall u | u in w.log :: LogOk(w', u)
    ensures forall j | j in w.workers :: WorkerOk(w', j, w.workers[j])
    ensures forall e | e in w.pending :: PendingOk(w', e)
  {
    forall u | u in w.log ensures LogOk(w', u) { assert LogOk(w, u); }
    forall j | j in w.workers ensures WorkerOk(w', j, w.workers[j]) { assert WorkerOk(w, j, w.workers[j]); }
    forall e | e in w.pending ensures PendingOk(w', e) { assert PendingOk(w, e); }
  }

  lemma EnqueueKeepsInv(w: World, i: nat, q: Enqueuer)
    requires Inv(w) && i !in w.enqueuers && (q.SetKeyNx? || q.CheckKey?)
    requires q.e.attempt == 0 && q.e.maxAttempts == MAX_ATTEMPTS && q.e.createdAt == w.now && TicketOf(q.e) !in w.stamped
    ensures Inv(Put(w, i, q).(stamped := w.stamped + {TicketOf(q.e)}))
  {
    var w' := Put(w, i, q).(stamped := w.stamped + {TicketOf(q.e)});
    EnqueueFrame(w, w', i, q);
    forall n | n in w.enqueuers
      ensures EnqueuerOk(w', n, w.enqueuers[n]) && DistinctTickets(w.enqueuers[n], q)
    {
      assert EnqueuerOk(w, n, w.enqueuers[n]);
      if w.enqueuers[n].Add? {
        assert LogOk(w, TicketOf(w.enqueuers[n].e));
      }
    }
  }

  lemma ClockKeepsInv(w: World, a: Action)
    requires Inv(w) && (a.Tick? || a.ExpireLock?)
    ensures Inv(Step(w, a))
  {
    var w' := Step(w, a);
    forall u | u in w.log ensures LogOk(w', u) { assert LogOk(w, u); }
    forall j | j in w.workers ensures WorkerOk(w', j, w.workers[j]) { assert WorkerOk(w, j, w.workers[j]); }
    forall e | e in w.pending ensures PendingOk(w', e) { assert PendingOk(w, e); }
    forall i | i in w.enqueuers ensures EnqueuerOk(w', i, w.enqueuers[i]) { assert EnqueuerOk(w, i, w.enqueuers[i]); }
  }

  lemma StepKeepsInv(w: World, a: Action)
    requires Inv(w)
    ensures Inv(Step(w, a))
  {
    match a
    case Tick(_) => ClockKeepsInv(w, a);
    case ExpireLock(_) => ClockKeepsInv(w, a);
    case Enqueue(i, _, _, _) => if Step(w, a) != w { EnqueueKeepsInv(w, i, Step(w, a).enqueuers[i]); }
    case CrashEnqueuer(i) => if i in w.enqueuers && !w.enqueuers[i].Over? { CrashEnqueuerKeepsInv(w, i); }
    case List(j, batch) => if Step(w, a) != w { ListKeepsInv(w, j, batch); }
    case StepEnqueuer(i, o) => if i in w.enqueuers { EnqueuerKeepsInv(w, i, o); }
    case StepWorker(j, o, err) => if j in w.workers { WorkerKeepsInv(w, j, o, err); }
    case CrashWorker(j) => if j in w.workers { CrashWorkerKeepsInv(w, j); }
  }

  lemma {:induction false} RunKeepsInv(w: World, acts: seq<Action>)
    requires Inv(w)
    ensures Inv(Run(w, acts))
    decreases |acts|
  {
    if acts != [] {
      StepKeepsInv(w, acts[0]);
      RunKeepsInv(Step(w, acts[0]), acts[1..]);
    }
  }
}
