/** Session versions: how a logout keeps a delayed `session_sync` from creating the
session again.

A version key only rises through INCR (logout) and through `setSessionVersion`, which
reads the key and writes a greater value.  A worker executing a sync reads the version in
one step and creates the session in a later one.
*/
module SessionVersions {
  type Sid = int
  type Id = int

  datatype SyncStage = Unread | Matched | Skipped | Created

  datatype Sync = Sync(sid: Sid, expected: nat, stage: SyncStage)

  /** `setSessionVersion` between its read and its write. */
  datatype Setter = Setter(sid: Sid, version: nat, current: nat)

  datatype World = World(versions: map<Sid, nat>, syncs: map<Id, Sync>, setters: map<Id, Setter>)

  datatype Action =
    | Bump(sid: Sid)                           // INCR and EXPIRE at logout
    | SetVersion(sid: Sid, version: nat)       // setSessionVersion as one step
    | BeginSet(id: Id, sid: Sid, version: nat) // ... as a read
    | FinishSet(id: Id)                        // ... and a write
    | StartSync(id: Id, sid: Sid, expected: nat)
    | ReadVersion(id: Id)
    | CreateSession(id: Id)
    | ExpireKey(sid: Sid)

  const START := World(map[], map[], map[])

  function Version(w: World, sid: Sid): nat {
    if sid in w.versions then w.versions[sid] else 0
  }

  function Step(w: World, a: Action): World {
    match a
    case Bump(sid) => w.(versions := w.versions[sid := Version(w, sid) + 1])
    case SetVersion(sid, v) => if v > Version(w, sid) then w.(versions := w.versions[sid := v]) else w
    case BeginSet(id, sid, v) => w.(setters := w.setters[id := Setter(sid, v, Version(w, sid))])
    case FinishSet(id) =>
      if id !in w.setters then w
      else
        var p := w.setters[id];
        var w1 := w.(setters := w.setters - {id});
        if p.version > p.current then w1.(versions := w.versions[p.sid := p.version]) else w1
    case StartSync(id, sid, expected) => if id in w.syncs then w else w.(syncs := w.syncs[id := Sync(sid, expected, Unread)])
    case ReadVersion(id) =>
      if id !in w.syncs || w.syncs[id].stage != Unread then w
      else
        var p := w.syncs[id];
        w.(syncs := w.syncs[id := p.(stage := if Version(w, p.sid) == p.expected then Matched else Skipped)])
    case CreateSession(id) =>
      if id !in w.syncs || w.syncs[id].stage != Matched then w
      else w.(syncs := w.syncs[id := w.syncs[id].(stage := Created)])
    case ExpireKey(sid) => w.(versions := w.versions - {sid})
  }

  function Run(w: World, acts: seq<Action>): World
    decreases |acts|
  {
    if acts == [] then w else Run(Step(w, acts[0]), acts[1..])
  }

  /** `setSessionVersion` is one step and no version key expires. */
  predicate Calm(acts: seq<Action>) {
    forall k | 0 <= k < |acts| :: !acts[k].FinishSet? && !acts[k].ExpireKey?
  }

  /** On calm runs no version ever goes down. */
  lemma {:induction false} VersionsRise(w: World, acts: seq<Action>, sid: Sid)
    requires Calm(acts)
    ensures Version(w, sid) <= Version(Run(w, acts), sid)
    decreases |acts|
  {
    if acts != [] {
      assert Calm(acts[1..]);
      VersionsRise(Step(w, acts[0]), acts[1..], sid);
    }
  }

  /** Enqueueing, or executing, a logout with a target version leaves the key at least there. */
  lemma TargetReached(w: World, sid: Sid, target: nat)
    ensures Version(Step(w, SetVersion(sid, target)), sid) >= target
    ensures Version(Step(w, SetVersion(sid, target)), sid) == target || Version(w, sid) > target
  {
  }

  /** The sync has not read yet, or read a version that was not its own. */
  predicate Harmless(w: World, id: Id) {
    id in w.syncs ==> w.syncs[id].stage in {Unread, Skipped}
  }

  predicate ForSession(w: World, id: Id, sid: Sid, below: nat) {
    id in w.syncs ==> w.syncs[id].sid == sid && w.syncs[id].expected < below
  }

  lemma {:induction false} LateSyncStaysHarmless(w: World, acts: seq<Action>, id: Id, sid: Sid, target: nat)
    requires Calm(acts) && Version(w, sid) >= target && Harmless(w, id)
    requires ForSession(w, id, sid, target) && id in w.syncs
    ensures Harmless(Run(w, acts), id) && id in Run(w, acts).syncs
    decreases |acts|
  {
    if acts != [] {
      assert Calm(acts[1..]);
      VersionsRise(w, [acts[0]], sid);
      assert Run(w, [acts[0]]) == Step(w, acts[0]) by { assert [acts[0]][1..] == []; }
      LateSyncStaysHarmless(Step(w, acts[0]), acts[1..], id, sid, target);
    }
  }

  lemma {:induction false} RunSplit(w: World, a: seq<Action>, b: seq<Action>)
    ensures Run(w, a + b) == Run(Run(w, a), b)
    decreases |a|
  {
    if a == [] {
      assert a + b == b;
    } else {
      assert (a + b)[1..] == a[1..] + b;
      RunSplit(Step(w, a[0]), a[1..], b);
    }
  }

  predicate CreatedIn(w: World, acts: seq<Action>, id: Id) {
    id in Run(w, acts).syncs && Run(w, acts).syncs[id].stage == Created
  }

  /** When a logout with a higher target is enqueued, a sync that has not created its session
  still will in some calm continuation if and only if it has already read its version and
  found it to be its own: checking is not creating. */
  lemma SyncCreatesExactlyWhen(w: World, id: Id, sid: Sid, target: nat)
    requires id in w.syncs && ForSession(w, id, sid, target) && w.syncs[id].stage != Created
    ensures (exists acts | Calm(acts) :: CreatedIn(Step(w, SetVersion(sid, target)), acts, id)) <==> w.syncs[id].stage == Matched
  {
    var w1 := Step(w, SetVersion(sid, target));
    if w.syncs[id].stage == Matched {
      var acts := [CreateSession(id)];
      assert Run(w1, acts) == Step(w1, acts[0]) by { assert acts[1..] == []; }
      assert Calm(acts) && CreatedIn(w1, acts, id);
    } else {
      TargetReached(w, sid, target);
      forall acts | Calm(acts) ensures !CreatedIn(w1, acts, id) {
        LateSyncStaysHarmless(w1, acts, id, sid, target);
      }
    }
  }

  /** So a sync that has not read its version by then creates nothing, in any calm run. */
  lemma LogoutStopsSync(before: seq<Action>, after: seq<Action>, id: Id, sid: Sid, target: nat)
    requires Calm(after)
    requires var w := Run(START, before); id in w.syncs && ForSession(w, id, sid, target) && w.syncs[id].stage == Unread
    ensures !CreatedIn(START, before + [SetVersion(sid, target)] + after, id)
  {
    var w := Run(START, before);
    RunSplit(START, before, [SetVersion(sid, target)]);
    RunSplit(START, before + [SetVersion(sid, target)], after);
    assert Run(w, [SetVersion(sid, target)]) == Step(w, SetVersion(sid, target)) by { assert [SetVersion(sid, target)][1..] == []; }
    SyncCreatesExactlyWhen(w, id, sid, target);
    assert !CreatedIn(Step(w, SetVersion(sid, target)), after, id);
  }

  /** The same for a sync started only after the logout. */
  lemma {:induction false} LogoutStopsLaterSync(w: World, acts: seq<Action>, id: Id, sid: Sid, target: nat, expected: nat)
    requires Calm(acts) && Version(w, sid) >= target > expected && id !in w.syncs
    ensures var w' := Run(Step(w, StartSync(id, sid, expected)), acts);
      id in w'.syncs && w'.syncs[id].stage != Created
  {
    LateSyncStaysHarmless(Step(w, StartSync(id, sid, expected)), acts, id, sid, target);
  }

  // ---- each hypothesis is needed -----------------------------------------

  /** A sync is matched, before any logout, exactly when it reads the version it expects. */
  lemma MatchesExactlyWhen(w: World, id: Id)
    requires id in w.syncs && w.syncs[id].stage == Unread
    ensures Step(w, ReadVersion(id)).syncs[id].stage == Matched <==> Version(w, w.syncs[id].sid) == w.syncs[id].expected
  {
  }

  /** A write lowers the version exactly when another one overtook it after its read. */
  lemma FinishLowersExactlyWhen(w: World, id: Id)
    requires id in w.setters
    ensures var p := w.setters[id];
      Version(Step(w, FinishSet(id)), p.sid) < Version(w, p.sid) <==> p.current < p.version < Version(w, p.sid)
  {
  }

  /** Two overlapping calls lower the version from b to a. */
  lemma OverlappingSetsLower(sid: Sid, a: nat, b: nat)
    requires 0 < a < b
    ensures Version(Run(START, [BeginSet(1, sid, a), BeginSet(2, sid, b), FinishSet(2), FinishSet(1)]), sid) == a
    ensures Version(Step(Step(Step(START, BeginSet(1, sid, a)), BeginSet(2, sid, b)), FinishSet(2)), sid) == b
  {
    RunFour(START, [BeginSet(1, sid, a), BeginSet(2, sid, b), FinishSet(2), FinishSet(1)]);
  }

  lemma RunFour(w: World, acts: seq<Action>)
    requires |acts| == 4
    ensures Run(w, acts) == Step(Step(Step(Step(w, acts[0]), acts[1]), acts[2]), acts[3])
  {
    var rest1, rest2, rest3 := acts[1..], acts[2..], acts[3..];
    assert rest1[1..] == rest2 && rest2[1..] == rest3 && rest3[1..] == [];
    assert Run(Step(Step(Step(w, acts[0]), acts[1]), acts[2]), rest3) == Step(Step(Step(Step(w, acts[0]), acts[1]), acts[2]), acts[3]);
    assert Run(Step(Step(w, acts[0]), acts[1]), rest2) == Run(Step(Step(Step(w, acts[0]), acts[1]), acts[2]), rest3);
    assert Run(Step(w, acts[0]), rest1) == Run(Step(Step(w, acts[0]), acts[1]), rest2);
  }
}
