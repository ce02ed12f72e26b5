/** The JWKS cache: one Redis entry with a soft and a hard age, and a refresh mutex with
a second look at the cache behind it.

Key lookups, forced refreshes, the background refreshes that stale lookups spawn and
warm-ups interleave at every Redis command, fetch and lock operation.  The endpoint
answers as it likes, the entry may be lost, commands fail and callers are cancelled.
*/
module Jwks {
  import opened Wrappers

  type Id = int
  type Kid = int

  /** `usable` stands for an RSA signing key for RS256, `material` for what it decodes to. */
  datatype Jwk = Jwk(kid: Kid, usable: bool, material: Option<int>)

  datatype Payload = Payload(fetchedAt: nat, keys: seq<Jwk>)

  datatype Entry = Entry(payload: Payload, until: nat)

  /** `at` is when the caller last looked into the cache before it got its key. */
  datatype Result = Got(material: int, from: Payload, at: nat) | Refreshed | NoKey | Failed

  /** A lookup that misses goes on to the lock and looks again; then it fetches and writes. */
  datatype Stage = First | Waiting | Second | Fetching(looked: nat) | Writing(payload: Payload, looked: nat) | Done(result: Result)

  datatype Kind = Getter(kid: Kid) | Forcer | Warmup

  datatype Proc = Proc(kind: Kind, stage: Stage)

  datatype Fetch = Fetch(payload: Payload, cause: Kind)

  datatype Limits = Limits(hard: nat, soft: nat)

  datatype World = World(now: nat, cache: Option<Entry>, lock: Option<Id>, procs: map<Id, Proc>, log: seq<Fetch>)

  datatype Action =
    | StartGetter(id: Id, kid: Option<Kid>)      // None: a blank key id
    | StartForcer(id: Id)
    | StartWarmup(id: Id)
    | Look(id: Id, ok: bool, spawn: Id)          // GET, with the id of a background refresh
    | Acquire(id: Id)
    | FetchSet(id: Id, response: Option<seq<Jwk>>)
    | Write(id: Id, ok: bool)                    // SET EX
    | Cancel(id: Id)
    | Lose
    | Tick(secs: nat)

  const START := World(0, None, None, map[], [])

  /** The first usable key with this id decides, even when it does not decode. */
  function Decoded(keys: seq<Jwk>, kid: Kid): Option<int>
    decreases |keys|
  {
    if keys == [] then None
    else if keys[0].kid == kid && keys[0].usable then keys[0].material
    else Decoded(keys[1..], kid)
  }

  function Put(w: World, id: Id, stage: Stage): World
    requires id in w.procs
  {
    w.(procs := w.procs[id := w.procs[id].(stage := stage)])
  }

  function Released(w: World, id: Id): World {
    if w.lock == Some(id) then w.(lock := None) else w
  }

  function Finished(w: World, id: Id, result: Result): World
    requires id in w.procs
  {
    Released(Put(w, id, Done(result)), id)
  }

  function Age(w: World, p: Payload): nat {
    if w.now > p.fetchedAt then w.now - p.fetchedAt else 0
  }

  /** What a lookup reads: neither an entry Redis has expired nor one past the hard age. */
  function Cached(l: Limits, w: World): Option<Payload> {
    if w.cache.Some? && w.now < w.cache.value.until && Age(w, w.cache.value.payload) <= l.hard
    then Some(w.cache.value.payload) else None
  }

  /** The key a lookup finds. */
  function Hit(l: Limits, w: World, kid: Kid): Option<int> {
    if Cached(l, w).Some? then Decoded(Cached(l, w).value.keys, kid) else None
  }

  function LookStep(l: Limits, w: World, id: Id, ok: bool, spawn: Id): World
    requires id in w.procs && w.procs[id].kind.Getter?
  {
    if !ok then Finished(w, id, Failed)
    else
      var kid := w.procs[id].kind.kid;
      var stale := Cached(l, w).Some? && Age(w, Cached(l, w).value) > l.soft;
      var w1 := if stale && spawn !in w.procs then w.(procs := w.procs[spawn := Proc(Forcer, Waiting)]) else w;
      if Hit(l, w, kid).Some? then Finished(w1, id, Got(Hit(l, w, kid).value, Cached(l, w).value, w.now))
      else Put(w1, id, if w.procs[id].stage.First? then Waiting else Fetching(w.now))
  }

  function FetchStep(w: World, id: Id, response: Option<seq<Jwk>>): World
    requires id in w.procs && w.procs[id].stage.Fetching?
  {
    if response.None? || response.value == [] then Finished(w, id, Failed)
    else
      var p := Payload(w.now, response.value);
      Put(w, id, Writing(p, w.procs[id].stage.looked)).(log := w.log + [Fetch(p, w.procs[id].kind)])
  }

  function WriteStep(l: Limits, w: World, id: Id, ok: bool): World
    requires id in w.procs && w.procs[id].stage.Writing?
  {
    if !ok then Finished(w, id, Failed)
    else
      var p := w.procs[id].stage.payload;
      var w1 := w.(cache := Some(Entry(p, w.now + l.hard)));
      match w.procs[id].kind
      case Getter(kid) =>
        var key := Decoded(p.keys, kid);
        Finished(w1, id, if key.Some? then Got(key.value, p, w.procs[id].stage.looked) else NoKey)
      case _ => Finished(w1, id, Refreshed)
  }

  function Step(l: Limits, w: World, a: Action): World {
    match a
    case StartGetter(id, kid) =>
      if id in w.procs || kid.None? then w else w.(procs := w.procs[id := Proc(Getter(kid.value), First)])
    case StartForcer(id) => if id in w.procs then w else w.(procs := w.procs[id := Proc(Forcer, Waiting)])
    case StartWarmup(id) => if id in w.procs then w else w.(procs := w.procs[id := Proc(Warmup, Fetching(w.now))])
    case Look(id, ok, spawn) =>
      if id in w.procs && w.procs[id].kind.Getter? && (w.procs[id].stage.First? || w.procs[id].stage.Second?)
      then LookStep(l, w, id, ok, spawn) else w
    case Acquire(id) =>
      if id in w.procs && w.procs[id].stage.Waiting? && w.lock.None?
      then Put(w, id, if w.procs[id].kind.Getter? then Second else Fetching(w.now)).(lock := Some(id)) else w
    case FetchSet(id, response) => if id in w.procs && w.procs[id].stage.Fetching? then FetchStep(w, id, response) else w
    case Write(id, ok) => if id in w.procs && w.procs[id].stage.Writing? then WriteStep(l, w, id, ok) else w
    case Cancel(id) => if id in w.procs && !w.procs[id].stage.Done? then Finished(w, id, Failed) else w
    case Lose => w.(cache := None)
    case Tick(secs) => w.(now := w.now + secs)
  }

  function Run(l: Limits, w: World, acts: seq<Action>): World
    decreases |acts|
  {
    if acts == [] then w else Run(l, Step(l, w, acts[0]), acts[1..])
  }

  // ---- what is returned was fetched, and not too long ago ----------------

  ghost predicate Logged(w: World, p: Payload) {
    exists i | 0 <= i < |w.log| :: w.log[i].payload == p
  }

  ghost predicate ProcSound(l: Limits, w: World, p: Proc) {
    && (p.stage.Fetching? ==> p.stage.looked <= w.now)
    && (p.stage.Writing? ==> Logged(w, p.stage.payload) && p.stage.looked <= p.stage.payload.fetchedAt)
    && (p.stage.Done? && p.stage.result.Got? ==>
      var o := p.stage.result;
      && Logged(w, o.from) && p.kind.Getter? && Decoded(o.from.keys, p.kind.kid) == Some(o.material)
      && o.at <= o.from.fetchedAt + l.hard && o.at <= w.now)
  }

  ghost predicate Sound(l: Limits, w: World) {
    && (forall i | 0 <= i < |w.log| :: w.log[i].payload.fetchedAt <= w.now)
    && (w.cache.Some? ==> Logged(w, w.cache.value.payload))
    && (forall id | id in w.procs :: ProcSound(l, w, w.procs[id]))
  }

  lemma LogAndTimeGrow(l: Limits, w: World, a: Action)
    ensures w.log <= Step(l, w, a).log && w.now <= Step(l, w, a).now
    ensures forall p | Logged(w, p) :: Logged(Step(l, w, a), p)
    ensures Step(l, w, a).log == w.log || (a.FetchSet? && a.response.Some? && a.id in w.procs
      && Step(l, w, a).log == w.log + [Fetch(Payload(w.now, a.response.value), w.procs[a.id].kind)])
  {
    var w' := Step(l, w, a);
    forall p | Logged(w, p) ensures Logged(w', p) {
      var i :| 0 <= i < |w.log| && w.log[i].payload == p;
      assert w'.log[i].payload == p;
    }
  }

  /** A step that takes nothing away leaves a caller as sound as it was. */
  lemma SoundStays(l: Limits, w: World, w': World, p: Proc)
    requires ProcSound(l, w, p) && w.now <= w'.now && forall q | Logged(w, q) :: Logged(w', q)
    ensures ProcSound(l, w', p)
  {
  }

  predicate Acts(a: Action, id: Id) {
    (a.Look? || a.Acquire? || a.FetchSet? || a.Write? || a.Cancel?) && a.id == id
  }

  lemma OthersStay(l: Limits, w: World, a: Action, id: Id)
    requires !Acts(a, id)
    ensures id in w.procs ==> id in Step(l, w, a).procs && Step(l, w, a).procs[id] == w.procs[id]
    ensures id !in w.procs && id in Step(l, w, a).procs ==>
      !Step(l, w, a).procs[id].stage.Writing? && !Step(l, w, a).procs[id].stage.Done?
  {
  }

  lemma WriteStepSound(l: Limits, w: World, w': World, a: Action, id: Id)
    requires Sound(l, w) && a.Write? && a.id == id && id in w.procs && w' == Step(l, w, a)
    requires forall q | Logged(w, q) :: Logged(w', q)
    ensures id in w'.procs && ProcSound(l, w', w'.procs[id])
  {
    assert ProcSound(l, w, w.procs[id]);
    SoundStays(l, w, w', w.procs[id]);
  }

  lemma LookStepSound(l: Limits, w: World, w': World, a: Action, id: Id)
    requires Sound(l, w) && a.Look? && a.id == id && id in w.procs && w' == Step(l, w, a)
    requires forall q | Logged(w, q) :: Logged(w', q)
    ensures id in w'.procs && ProcSound(l, w', w'.procs[id])
  {
    SoundStays(l, w, w', w.procs[id]);
  }

  lemma OwnStepSound(l: Limits, w: World, a: Action, id: Id)
    requires Sound(l, w) && Acts(a, id) && id in w.procs
    ensures id in Step(l, w, a).procs && ProcSound(l, Step(l, w, a), Step(l, w, a).procs[id])
  {
    var w' := Step(l, w, a);
    LogAndTimeGrow(l, w, a);
    if a.Look? {
      LookStepSound(l, w, w', a, id);
    } else if a.Write? {
      WriteStepSound(l, w, w', a, id);
    } else {
      SoundStays(l, w, w', w.procs[id]);
      if w'.log != w.log {
        assert w'.log[|w.log|].payload == Payload(w.now, a.response.value);
      }
    }
  }

  lemma StepKeepsSound(l: Limits, w: World, a: Action)
    requires Sound(l, w)
    ensures Sound(l, Step(l, w, a))
  {
    var w' := Step(l, w, a);
    LogAndTimeGrow(l, w, a);
    forall id | id in w'.procs ensures ProcSound(l, w', w'.procs[id]) {
      if Acts(a, id) && id in w.procs {
        OwnStepSound(l, w, a, id);
      } else {
        OthersStay(l, w, a, id);
        if id in w.procs {
          SoundStays(l, w, w', w.procs[id]);
        }
      }
    }
  }

  lemma {:induction false} RunKeepsSound(l: Limits, w: World, acts: seq<Action>)
    requires Sound(l, w)
    ensures Sound(l, Run(l, w, acts))
    decreases |acts|
  {
    if acts != [] {
      StepKeepsSound(l, w, acts[0]);
      RunKeepsSound(l, Step(l, w, acts[0]), acts[1..]);
    }
  }

  /** Every key returned, on every interleaving, is the one for that id in a set fetched from
  the endpoint after the caller's last look into the cache or at most the hard age before. */
  lemma KeysAreFresh(l: Limits, acts: seq<Action>, id: Id)
    ensures var w := Run(l, START, acts);
      id in w.procs && w.procs[id].stage.Done? && w.procs[id].stage.result.Got? ==>
        var o := w.procs[id].stage.result;
        && w.procs[id].kind.Getter? && Decoded(o.from.keys, w.procs[id].kind.kid) == Some(o.material)
        && (exists i | 0 <= i < |w.log| :: w.log[i].payload == o.from)
        && o.at <= o.from.fetchedAt + l.hard && o.at <= w.now
  {
    RunKeepsSound(l, START, acts);
    var w := Run(l, START, acts);
    assert id in w.procs ==> ProcSound(l, w, w.procs[id]);
  }

  // ---- callers that miss together fetch once -----------------------------

  function FetchesFor(log: seq<Fetch>, kid: Kid): nat
    decreases |log|
  {
    if log == [] then 0
    else FetchesFor(log[..|log| - 1], kid) + if log[|log| - 1].cause == Getter(kid) then 1 else 0
  }

  predicate Serves(keys: seq<Jwk>, kid: Kid) {
    Decoded(keys, kid).Some?
  }

  /** A set that has the key and stays fresh for the hard age after `since`. */
  predicate Good(p: Payload, kid: Kid, since: nat) {
    Serves(p.keys, kid) && p.fetchedAt >= since
  }

  /** The endpoint serves the key, writes succeed, nothing is lost or cancelled. */
  predicate Smooth(acts: seq<Action>, kid: Kid) {
    forall k | 0 <= k < |acts| ::
      && !acts[k].Cancel? && !acts[k].Lose?
      && (acts[k].Look? ==> acts[k].ok) && (acts[k].Write? ==> acts[k].ok)
      && (acts[k].FetchSet? ==> acts[k].response.Some? && Serves(acts[k].response.value, kid))
  }

  predicate HoldsLock(p: Proc) {
    match p.kind
    case Getter(_) => p.stage.Second? || p.stage.Fetching? || p.stage.Writing?
    case Forcer => p.stage.Fetching? || p.stage.Writing?
    case Warmup => false
  }

  /** The lock is held by the one caller whose stage says so; a warm-up never asks for it. */
  ghost predicate LockSound(w: World) {
    && (w.lock.Some? ==> w.lock.value in w.procs && HoldsLock(w.procs[w.lock.value]))
    && (forall id | id in w.procs && HoldsLock(w.procs[id]) :: w.lock == Some(id))
    && (forall id | id in w.procs && w.procs[id].kind.Warmup? :: !w.procs[id].stage.Waiting?)
  }

  predicate CacheGood(l: Limits, w: World, kid: Kid, since: nat) {
    w.cache.Some? && Good(w.cache.value.payload, kid, since) && w.cache.value.until >= since + l.hard
  }

  predicate Fetcher(w: World, kid: Kid) {
    w.lock.Some? && w.lock.value in w.procs && w.procs[w.lock.value].kind == Getter(kid)
      && (w.procs[w.lock.value].stage.Fetching? || w.procs[w.lock.value].stage.Writing?)
  }

  /** About to fetch. */
  predicate Pending(w: World, kid: Kid) {
    Fetcher(w, kid) && w.procs[w.lock.value].stage.Fetching?
  }

  ghost predicate Held(w: World, kid: Kid, since: nat) {
    forall id | id in w.procs && w.procs[id].stage.Writing? :: Good(w.procs[id].stage.payload, kid, since)
  }

  /** The fetches for this key since there were n, with the one decided on. */
  function Spent(w: World, kid: Kid, n: nat): int {
    FetchesFor(w.log, kid) - n + if Pending(w, kid) then 1 else 0
  }

  predicate Covered(l: Limits, w: World, kid: Kid, since: nat, n: nat) {
    0 <= Spent(w, kid, n) <= 1 && (Spent(w, kid, n) == 1 ==> CacheGood(l, w, kid, since) || Fetcher(w, kid))
  }

  /** Of the fetches since there were n, at most one belongs to lookups of this key; once
  it has been decided on, the cache has the key or its fetcher still holds the lock. */
  ghost predicate OneFetch(l: Limits, w: World, kid: Kid, since: nat, n: nat) {
    LockSound(w) && Held(w, kid, since) && Covered(l, w, kid, since, n)
  }

  lemma CountLast(log: seq<Fetch>, f: Fetch, kid: Kid)
    ensures FetchesFor(log + [f], kid) == FetchesFor(log, kid) + if f.cause == Getter(kid) then 1 else 0
  {
    assert (log + [f])[..|log|] == log;
  }

  lemma LookKeepsLock(l: Limits, w: World, w': World, a: Action)
    requires LockSound(w) && a.Look? && w' == Step(l, w, a)
    ensures LockSound(w')
  {
  }

  lemma WriteKeepsLock(l: Limits, w: World, w': World, a: Action)
    requires LockSound(w) && a.Write? && w' == Step(l, w, a)
    ensures LockSound(w')
  {
  }

  lemma OtherKeepsLock(l: Limits, w: World, w': World, a: Action)
    requires LockSound(w) && !a.Look? && !a.Write? && w' == Step(l, w, a)
    ensures LockSound(w')
  {
    match a {
      case FetchSet(_, _) => return;
      case Acquire(_) => return;
      case Cancel(_) => return;
      case _ => return;
    }
  }

  lemma StepKeepsLock(l: Limits, w: World, a: Action)
    requires LockSound(w)
    ensures LockSound(Step(l, w, a))
  {
    match a {
      case Look(_, _, _) => LookKeepsLock(l, w, Step(l, w, a), a);
      case Write(_, _) => WriteKeepsLock(l, w, Step(l, w, a), a);
      case _ => OtherKeepsLock(l, w, Step(l, w, a), a);
    }
  }

  lemma StepKeepsHeld(l: Limits, w: World, a: Action, kid: Kid, since: nat)
    requires Held(w, kid, since) && Smooth([a], kid) && w.now >= since
    ensures Held(Step(l, w, a), kid, since)
  {
    assert [a][0] == a;
  }

  /** While time is short of the hard age, a good cache is a hit. */
  lemma GoodIsHit(l: Limits, w: World, kid: Kid, since: nat)
    requires CacheGood(l, w, kid, since) && since <= w.now < since + l.hard
    ensures Hit(l, w, kid).Some?
  {
  }

  lemma LookKeepsCovered(l: Limits, w: World, a: Action, kid: Kid, since: nat, n: nat)
    requires LockSound(w) && Covered(l, w, kid, since, n) && since <= w.now < since + l.hard && a.Look? && a.ok
    ensures Covered(l, Step(l, w, a), kid, since, n)
  {
    if CacheGood(l, w, kid, since) {
      GoodIsHit(l, w, kid, since);
    }
  }

  lemma FetchKeepsCovered(l: Limits, w: World, w': World, a: Action, kid: Kid, since: nat, n: nat)
    requires LockSound(w) && Covered(l, w, kid, since, n) && a.FetchSet?
    requires a.response.Some? && Serves(a.response.value, kid) && w' == Step(l, w, a)
    ensures Covered(l, w', kid, since, n)
  {
    if a.id in w.procs && w.procs[a.id].stage.Fetching? {
      FetchSpends(l, w, w', a, kid, n);
      assert w'.cache == w.cache;
      assert Fetcher(w', kid) <==> Fetcher(w, kid);
    }
  }

  /** A fetch counts what was decided on. */
  lemma FetchSpends(l: Limits, w: World, w': World, a: Action, kid: Kid, n: nat)
    requires LockSound(w) && a.FetchSet? && a.id in w.procs && w.procs[a.id].stage.Fetching?
    requires a.response.Some? && Serves(a.response.value, kid) && w' == Step(l, w, a)
    ensures Spent(w', kid, n) == Spent(w, kid, n)
  {
    CountLast(w.log, Fetch(Payload(w.now, a.response.value), w.procs[a.id].kind), kid);
    if w.procs[a.id].kind == Getter(kid) {
      assert Pending(w, kid) && !Pending(w', kid);
      return;
    }
    assert Pending(w', kid) <==> Pending(w, kid);
  }

  lemma WriteKeepsCovered(l: Limits, w: World, a: Action, kid: Kid, since: nat, n: nat)
    requires LockSound(w) && Held(w, kid, since) && Covered(l, w, kid, since, n) && a.Write? && a.ok && w.now >= since
    ensures Covered(l, Step(l, w, a), kid, since, n)
  {
  }

  lemma StepKeepsOneFetch(l: Limits, w: World, a: Action, kid: Kid, since: nat, n: nat)
    requires OneFetch(l, w, kid, since, n) && Smooth([a], kid) && since <= w.now < since + l.hard
    ensures OneFetch(l, Step(l, w, a), kid, since, n)
  {
    assert [a][0] == a;
    StepKeepsLock(l, w, a);
    StepKeepsHeld(l, w, a, kid, since);
    match a {
      case FetchSet(_, _) => FetchKeepsCovered(l, w, Step(l, w, a), a, kid, since, n);
      case Look(_, _, _) => LookKeepsCovered(l, w, a, kid, since, n);
      case Write(_, _) => WriteKeepsCovered(l, w, a, kid, since, n);
      case _ =>
    }
  }

  lemma {:induction false} RunKeepsOneFetch(l: Limits, w: World, acts: seq<Action>, kid: Kid, since: nat, n: nat)
    requires OneFetch(l, w, kid, since, n) && Smooth(acts, kid) && since <= w.now && Run(l, w, acts).now < since + l.hard
    ensures OneFetch(l, Run(l, w, acts), kid, since, n)
    decreases |acts|
  {
    if acts != [] {
      TimeGrows(l, w, acts);
      var a := acts[0];
      assert Smooth([a], kid) by { assert [a][0] == a; }
      assert Smooth(acts[1..], kid);
      StepKeepsOneFetch(l, w, a, kid, since, n);
      LogAndTimeGrow(l, w, a);
      RunKeepsOneFetch(l, Step(l, w, a), acts[1..], kid, since, n);
    }
  }

  lemma {:induction false} TimeGrows(l: Limits, w: World, acts: seq<Action>)
    ensures w.now <= Run(l, w, acts).now
    decreases |acts|
  {
    if acts != [] {
      LogAndTimeGrow(l, w, acts[0]);
      TimeGrows(l, Step(l, w, acts[0]), acts[1..]);
    }
  }

  lemma {:induction false} RunKeepsLock(l: Limits, w: World, acts: seq<Action>)
    requires LockSound(w)
    ensures LockSound(Run(l, w, acts))
    decreases |acts|
  {
    if acts != [] {
      StepKeepsLock(l, w, acts[0]);
      RunKeepsLock(l, Step(l, w, acts[0]), acts[1..]);
    }
  }

  /** Any number of callers missing on one key: from any reachable moment at which none of
  them is past its second look and no fetched set without the key is on its way, and for
  less than the hard age, they cause at most one fetch between them, whatever forced,
  background and warm-up refreshes and lookups of other keys happen beside them. */
  lemma OneFetchForAll(l: Limits, before: seq<Action>, acts: seq<Action>, kid: Kid, since: nat)
    requires var w := Run(l, START, before);
      && Smooth(acts, kid) && since <= w.now && Run(l, w, acts).now < since + l.hard
      && Held(w, kid, since) && (forall id | id in w.procs && w.procs[id].kind == Getter(kid) :: !w.procs[id].stage.Fetching? && !w.procs[id].stage.Writing?)
    ensures var w := Run(l, START, before);
      FetchesFor(Run(l, w, acts).log, kid) <= FetchesFor(w.log, kid) + 1
  {
    var w := Run(l, START, before);
    RunKeepsLock(l, START, before);
    RunKeepsOneFetch(l, w, acts, kid, since, FetchesFor(w.log, kid));
  }

  // ---- a lookup left to itself -------------------------------------------

  /** Look, take the lock, look again, fetch, write. */
  function Alone(id: Id, kid: Kid, response: Option<seq<Jwk>>, spawn: Id): seq<Action> {
    [StartGetter(id, Some(kid))] + ([Look(id, true, spawn)] + ([Acquire(id)] + ([Look(id, true, spawn)] + ([FetchSet(id, response)] + ([Write(id, true)] + [])))))
  }

  lemma RunStep(l: Limits, w: World, a: Action, rest: seq<Action>)
    ensures Run(l, w, [a] + rest) == Run(l, Step(l, w, a), rest)
  {
    assert ([a] + rest)[1..] == rest;
  }

  lemma AloneRuns(l: Limits, w: World, id: Id, kid: Kid, response: Option<seq<Jwk>>, spawn: Id)
    ensures Run(l, w, Alone(id, kid, response, spawn)) ==
      Step(l, Step(l, Step(l, Step(l, Step(l, Step(l, w, StartGetter(id, Some(kid))), Look(id, true, spawn)), Acquire(id)), Look(id, true, spawn)), FetchSet(id, response)), Write(id, true))
  {
    var look, fetch, write := Look(id, true, spawn), FetchSet(id, response), Write(id, true);
    var w1 := Step(l, w, StartGetter(id, Some(kid)));
    var w2 := Step(l, w1, look);
    var w3 := Step(l, w2, Acquire(id));
    var w4 := Step(l, w3, look);
    RunStep(l, w, StartGetter(id, Some(kid)), [look] + ([Acquire(id)] + ([look] + ([fetch] + ([write] + [])))));
    RunStep(l, w1, look, [Acquire(id)] + ([look] + ([fetch] + ([write] + []))));
    RunStep(l, w2, Acquire(id), [look] + ([fetch] + ([write] + [])));
    RunStep(l, w3, look, [fetch] + ([write] + []));
    RunStep(l, w4, fetch, [write] + []);
    RunStep(l, Step(l, w4, fetch), write, []);
  }

  /** The cached set answers at once; past its soft age it is refreshed in the background. */
  lemma HitAnswers(l: Limits, w: World, w1: World, id: Id, kid: Kid, spawn: Id)
    requires id !in w.procs && w1 == Step(l, w, StartGetter(id, Some(kid))) && Hit(l, w, kid).Some? && w.lock.None? && spawn != id
    ensures var w2 := Step(l, w1, Look(id, true, spawn));
      && id in w2.procs && w2.procs[id].stage == Done(Got(Hit(l, w, kid).value, w.cache.value.payload, w.now))
      && w2.cache == w.cache && w2.log == w.log && w2.lock == None
      && (spawn !in w.procs ==> (spawn in w2.procs <==> w.now > w.cache.value.payload.fetchedAt + l.soft))
  {
  }

  /** A miss looks twice, the second time behind the lock. */
  lemma MissReachesFetch(l: Limits, w: World, w1: World, w2: World, w3: World, w4: World, id: Id, kid: Kid, spawn: Id)
    requires id !in w.procs && Hit(l, w, kid).None? && w.lock.None? && spawn != id
    requires w1 == Step(l, w, StartGetter(id, Some(kid))) && w2 == Step(l, w1, Look(id, true, spawn))
    requires w3 == Step(l, w2, Acquire(id)) && w4 == Step(l, w3, Look(id, true, spawn))
    ensures id in w4.procs && w4.procs[id] == Proc(Getter(kid), Fetching(w.now)) && w4.lock == Some(id)
    ensures w4.cache == w.cache && w4.log == w.log && w4.now == w.now
  {
    assert w2.procs[id] == Proc(Getter(kid), Waiting) && w2.cache == w.cache && w2.now == w.now && w2.lock == None && w2.log == w.log;
    assert w3.procs[id] == Proc(Getter(kid), Second) && w3.cache == w.cache && w3.now == w.now && w3.lock == Some(id) && w3.log == w.log;
    assert Hit(l, w3, kid) == None;
  }

  lemma FetchAnswers(l: Limits, w4: World, id: Id, kid: Kid, keys: seq<Jwk>)
    requires id in w4.procs && w4.procs[id] == Proc(Getter(kid), Fetching(w4.now)) && w4.lock == Some(id) && keys != []
    ensures var w' := Step(l, Step(l, w4, FetchSet(id, Some(keys))), Write(id, true));
      && id in w'.procs && w'.lock == None
      && w'.procs[id].stage == Done(if Decoded(keys, kid).Some? then Got(Decoded(keys, kid).value, Payload(w4.now, keys), w4.now) else NoKey)
      && w'.cache == Some(Entry(Payload(w4.now, keys), w4.now + l.hard))
      && w'.log == w4.log + [Fetch(Payload(w4.now, keys), Getter(kid))]
  {
    var w5 := Step(l, w4, FetchSet(id, Some(keys)));
    assert w5.procs[id] == Proc(Getter(kid), Writing(Payload(w4.now, keys), w4.now)) && w5.now == w4.now && w5.lock == Some(id);
  }

  /** A lookup left alone answers from a cached set within the hard age that has its key;
  only without one does it fetch, answers from what it fetched, and caches that.  A hit
  past the soft age also starts a refresh in the background.  An endpoint that gives
  nothing fails the lookup and leaves the cache alone. */
  lemma LookupAnswers(l: Limits, w: World, id: Id, kid: Kid, response: Option<seq<Jwk>>, spawn: Id)
    requires id !in w.procs && w.lock.None? && spawn != id
    ensures var w' := Run(l, w, Alone(id, kid, response, spawn));
      && id in w'.procs && w'.procs[id].stage.Done? && w'.lock == None
      && var r := w'.procs[id].stage.result;
         if Hit(l, w, kid).Some? then
           && r == Got(Hit(l, w, kid).value, w.cache.value.payload, w.now) && w'.cache == w.cache && w'.log == w.log
           && (spawn !in w.procs ==> (spawn in w'.procs <==> w.now > w.cache.value.payload.fetchedAt + l.soft))
         else if response.None? || response.value == [] then
           r == Failed && w'.cache == w.cache && w'.log == w.log
         else
           var fetched := Payload(w.now, response.value);
           && r == (if Decoded(response.value, kid).Some? then Got(Decoded(response.value, kid).value, fetched, w.now) else NoKey)
           && w'.cache == Some(Entry(fetched, w.now + l.hard))
           && w'.log == w.log + [Fetch(fetched, Getter(kid))]
  {
    var look := Look(id, true, spawn);
    var w1 := Step(l, w, StartGetter(id, Some(kid)));
    var w2 := Step(l, w1, look);
    AloneRuns(l, w, id, kid, response, spawn);
    if Hit(l, w, kid).Some? {
      HitAnswers(l, w, w1, id, kid, spawn);
      assert Step(l, w2, Acquire(id)) == w2 && Step(l, w2, look) == w2;
      return;
    }
    var w3 := Step(l, w2, Acquire(id));
    var w4 := Step(l, w3, look);
    MissReachesFetch(l, w, w1, w2, w3, w4, id, kid, spawn);
    if response.None? || response.value == [] {
      return;
    }
    FetchAnswers(l, w4, id, kid, response.value);
  }
}
