/** What one call on refresh tokens achieves when nobody disturbs it: the cascade
after a replay, a revocation, a validation. */
module RefreshCascade {
  import opened Wrappers
  import opened RefreshTable
  import opened RefreshChains
  import opened RefreshRotation
  import opened RefreshTheorems

  // ---- every row belongs to somebody -------------------------------------

  predicate Named(w: World) {
    && (forall h | h in w.rows :: w.rows[h].user != NO_NAME)
    && (forall id | id in w.calls && w.calls[id].IssueCall? :: w.calls[id].user != NO_NAME)
  }

  lemma CommitKeepsNamed(w: World, w': World, id: nat, c: Call, o: Outcome, pick: Hash)
    requires LocalOk(w, c) && Linked(w.rows) && Named(w) && c.RotateCall? && c.rotate.Commit? && o != Fails
    requires w' == StepRotate(w, id, c, o, pick)
    ensures Named(w')
  {
    CommittedCall(w, w', id, c, o, pick);
    CommitRows(w, c);
    forall h | h in w'.rows
      ensures w'.rows[h].user != NO_NAME
    {
      assert h in w.rows || h == c.succ;
    }
  }

  lemma SweepKeepsNamed(w: World, w': World, id: nat, c: Call, o: Outcome, pick: Hash)
    requires LocalOk(w, c) && Linked(w.rows) && Named(w) && c.RotateCall? && c.rotate.Sweep? && c.rotate.todo == {} && o != Fails
    requires w' == StepRotate(w, id, c, o, pick)
    ensures Named(w')
  {
    SweepRows(w, c);
  }

  lemma QuietKeepsNamed(w: World, w': World, id: nat, c: Call)
    requires Named(w) && w'.rows == w.rows && (w' == w || (id in w'.calls && w'.calls == w.calls[id := c] && !c.IssueCall?))
    ensures Named(w')
  {
  }

  lemma RotationKeepsNamed(w: World, w': World, id: nat, c: Call, o: Outcome, pick: Hash)
    requires Inv(w) && Named(w) && id in w.calls && w.calls[id] == c && c.RotateCall?
    requires w' == StepRotate(w, id, c, o, pick)
    ensures Named(w')
  {
    InvGivesLocal(w, id);
    if Quiet(c, o) {
      QuietIsLocal(w, id, c, o, pick);
      QuietKeepsNamed(w, w', id, if w' == w then c else w'.calls[id]);
      return;
    }
    if c.rotate.Commit? {
      CommitKeepsNamed(w, w', id, c, o, pick);
      return;
    }
    SweepKeepsNamed(w, w', id, c, o, pick);
  }

  lemma IssueKeepsNamed(w: World, w': World, id: nat, c: Call, o: Outcome)
    requires Named(w) && id in w.calls && w.calls[id] == c && c.IssueCall? && w' == StepIssue(w, id, c, o)
    ensures Named(w')
  {
    if w' == w {
      return;
    }
    assert w'.calls[id].IssueCall? && w'.calls[id].user == c.user;
    assert w'.calls == w.calls[id := w'.calls[id]];
    assert w'.rows == w.rows || w'.rows == Inserted(w.rows, c.h, Fresh(c.user, c.device, c.expiresAt));
  }

  lemma RevokeKeepsNamed(w: World, w': World, id: nat, c: Call, o: Outcome)
    requires Named(w) && id in w.calls && w.calls[id] == c && c.RevokeCall? && w' == StepRevoke(w, id, c, o)
    ensures Named(w')
  {
    RevokeMovesAlone(w, w', id, c, o);
    assert w'.rows == w.rows || w'.rows == Revoked(w.rows, c.h);
  }

  lemma StepKeepsNamed(w: World, a: Action)
    requires Inv(w) && Named(w)
    ensures Named(Step(w, a))
  {
    if a.Advance? && a.id in w.calls {
      var c, w' := w.calls[a.id], Step(w, a);
      match c {
        case RotateCall(_, _, _, _) => RotationKeepsNamed(w, w', a.id, c, a.outcome, a.pick);
        case IssueCall(_, _, _, _, _) => IssueKeepsNamed(w, w', a.id, c, a.outcome);
        case RevokeCall(_, _) => RevokeKeepsNamed(w, w', a.id, c, a.outcome);
        case ValidateCall(_, _) => ValidateMovesAlone(w, w', a.id, c, a.outcome);
      }
    }
  }

  lemma {:induction false} RunKeepsNamed(w: World, acts: seq<Action>)
    requires Inv(w) && Named(w)
    ensures Named(Run(w, acts))
    decreases |acts|
  {
    if acts != [] {
      StepKeepsInv(w, acts[0]);
      StepKeepsNamed(w, acts[0]);
      RunKeepsNamed(Step(w, acts[0]), acts[1..]);
    }
  }

  // ---- the cascade completes ---------------------------------------------

  function RowsOf(rows: Rows, user: Name): set<Hash> {
    set h | h in rows && rows[h].user == user
  }

  function LiveRowsOf(rows: Rows, user: Name): set<Hash> {
    set h | h in rows && rows[h].user == user && !rows[h].revoked
  }

  /** `order` goes through the set, each element once. */
  predicate Lists(order: seq<Hash>, hs: set<Hash>)
    decreases |order|
  {
    if order == [] then hs == {} else order[0] in hs && Lists(order[1..], hs - {order[0]})
  }

  lemma {:induction false} SomeOrder(hs: set<Hash>) returns (order: seq<Hash>)
    ensures Lists(order, hs)
    decreases |hs|
  {
    if h :| h in hs {
      var rest := SomeOrder(hs - {h});
      order := [h] + rest;
      return;
    }
    assert forall h :: h in hs <==> h in {};
    order := [];
  }

  /** The call takes up the rows one by one. */
  function Picks(id: nat, order: seq<Hash>): seq<Action>
    decreases |order|
  {
    if order == [] then [] else [Advance(id, Fine, order[0])] + Picks(id, order[1..])
  }

  /** The steps of the cascade: read the rows, mark them, commit, give the lock back. */
  function CascadeSteps(id: nat, order: seq<Hash>): seq<Action> {
    [Advance(id, Fine, 0)] + Picks(id, order) + [Advance(id, Fine, 0), Advance(id, Fine, 0)]
  }

  function Marked(rows: Rows, hs: set<Hash>): Rows {
    map h | h in hs && h in rows :: rows[h].(revoked := true)
  }

  predicate Free(w: World, id: nat, hs: set<Hash>) {
    forall h | h in hs :: !Locked(w, id, h)
  }

  lemma PickStep(base: World, id: nat, c: Call, seen: set<Hash>, todo: set<Hash>, staged: Rows, h: Hash)
    requires c.RotateCall? && h in todo && h in base.rows && !base.rows[h].revoked && !Locked(base, id, h)
    ensures Step(Goto(base, id, c.(rotate := Sweep(seen, todo, staged))), Advance(id, Fine, h))
      == Goto(base, id, c.(rotate := Sweep(seen, todo - {h}, staged[h := base.rows[h].(revoked := true)])))
  {
    OwnMoveLocksNothing(base, id, c.(rotate := Sweep(seen, todo, staged)), h);
  }

  lemma {:induction false} SweepCompletes(base: World, id: nat, c: Call, seen: set<Hash>, todo: set<Hash>, staged: Rows, order: seq<Hash>)
    requires c.RotateCall? && Lists(order, todo) && Free(base, id, todo)
    requires forall h | h in todo :: h in base.rows && !base.rows[h].revoked
    ensures Run(Goto(base, id, c.(rotate := Sweep(seen, todo, staged))), Picks(id, order))
      == Goto(base, id, c.(rotate := Sweep(seen, {}, staged + Marked(base.rows, todo))))
    decreases |order|
  {
    if order == [] {
      assert staged + Marked(base.rows, todo) == staged;
      return;
    }
    var h := order[0];
    var staged' := staged[h := base.rows[h].(revoked := true)];
    PickStep(base, id, c, seen, todo, staged, h);
    SweepCompletes(base, id, c, seen, todo - {h}, staged', order[1..]);
    assert staged + Marked(base.rows, todo) == staged' + Marked(base.rows, todo - {h});
  }

  lemma CascadeBegins(w: World, w1: World, id: nat, c: Call, user: Name)
    requires id in w.calls && w.calls[id] == c && c.RotateCall? && c.rotate == Cascade(user) && user != NO_NAME
    requires w1 == Step(w, Advance(id, Fine, 0))
    ensures w1 == Goto(w, id, c.(rotate := Sweep(RowsOf(w.rows, user), LiveRowsOf(w.rows, user), map[])))
  {
    assert LiveRowsOf(w.rows, user) == set h | h in RowsOf(w.rows, user) && !w.rows[h].revoked;
  }

  lemma CascadeEnds(w: World, id: nat, c: Call, user: Name)
    requires c.RotateCall?
    ensures Run(Goto(w, id, c.(rotate := Sweep(RowsOf(w.rows, user), {}, map[] + Marked(w.rows, LiveRowsOf(w.rows, user))))),
                [Advance(id, Fine, 0), Advance(id, Fine, 0)])
      == Goto(w, id, c.(rotate := Returned(Replay(RowsOf(w.rows, user))))).(
           rows := RevokedFor(w.rows, user), locks := w.locks - {c.prior})
  {
    var next, seen, staged := Advance(id, Fine, 0), RowsOf(w.rows, user), map[] + Marked(w.rows, LiveRowsOf(w.rows, user));
    assert w.rows + staged == RevokedFor(w.rows, user);
    var w2 := Goto(w, id, c.(rotate := Sweep(seen, {}, staged)));
    var w3 := Goto(w, id, c.(rotate := Unlock(Replay(seen)))).(rows := RevokedFor(w.rows, user));
    assert Step(w2, next) == w3;
    var w4 := Goto(w, id, c.(rotate := Returned(Replay(seen)))).(rows := RevokedFor(w.rows, user), locks := w.locks - {c.prior});
    assert Step(w3, next) == w4;
    assert Run(w4, []) == w4;
    assert Run(w3, [next]) == w4;
    assert [next, next][1..] == [next];
  }

  /** A cascade left alone completes, in whatever order it takes the rows: every row
  of the user is revoked, every other row is as it was, the lock is free, and the
  call reports exactly the rows of that user. */
  lemma CascadeCompletes(w: World, id: nat, user: Name, order: seq<Hash>)
    requires id in w.calls && w.calls[id].RotateCall? && w.calls[id].rotate == Cascade(user) && user != NO_NAME
    requires Lists(order, LiveRowsOf(w.rows, user)) && Free(w, id, LiveRowsOf(w.rows, user))
    ensures var c := w.calls[id];
      Run(w, CascadeSteps(id, order))
        == Goto(w, id, c.(rotate := Returned(Replay(RowsOf(w.rows, user))))).(
             rows := RevokedFor(w.rows, user), locks := w.locks - {c.prior})
  {
    var c, next := w.calls[id], Advance(id, Fine, 0);
    var w1 := Step(w, next);
    CascadeBegins(w, w1, id, c, user);
    SweepCompletes(w, id, c, RowsOf(w.rows, user), LiveRowsOf(w.rows, user), map[], order);
    CascadeEnds(w, id, c, user);
    RunSplits(w, [next] + Picks(id, order), [next, next]);
    assert ([next] + Picks(id, order))[1..] == Picks(id, order);
  }

  function Steps(id: nat, n: nat): seq<Action> {
    if n == 0 then [] else Steps(id, n - 1) + [Advance(id, Fine, 0)]
  }

  lemma {:induction false} SoloIsRun(w: World, id: nat, n: nat)
    ensures Run(w, Steps(id, n)) == Solo(w, id, n)
    decreases n
  {
    if n > 0 {
      SoloIsRun(w, id, n - 1);
      RunSplits(w, Steps(id, n - 1), [Advance(id, Fine, 0)]);
      assert Run(Solo(w, id, n), []) == Solo(w, id, n);
    }
  }

  /** A spent token presented again while the cache still shows it as usable: left
  alone, the call revokes every row of the token's user and no other row, reports
  them, and gives the lock back. */
  lemma ReplayRevokesEverything(past: seq<Action>, id: nat, order: seq<Hash>, n: nat)
    requires var w := Run(EMPTY, past);
      && ReadyToRotate(w, id) && w.calls[id].prior in w.rows && !GateOpen(w.rows, w.calls[id].prior, w.now)
      && w.calls[id].prior in w.cache && Usable(w.cache[w.calls[id].prior], w.now)
      && !Locked(w, id, w.calls[id].prior)
      && Lists(order, LiveRowsOf(w.rows, w.rows[w.calls[id].prior].user))
      && Free(w, id, LiveRowsOf(w.rows, w.rows[w.calls[id].prior].user))
    requires n == 4
    ensures var w := Run(EMPTY, past); var c := w.calls[id]; var user := w.rows[c.prior].user;
      Run(w, Steps(id, n) + CascadeSteps(id, order))
        == Goto(w, id, c.(rotate := Returned(Replay(RowsOf(w.rows, user))))).(rows := RevokedFor(w.rows, user))
  {
    var w := Run(EMPTY, past);
    EmptyInv();
    RunKeepsInv(EMPTY, past);
    RunKeepsNamed(EMPTY, past);
    ReplayFrom(w, id, order, n, w.rows[w.calls[id].prior].user);
  }

  lemma ReplayFrom(w: World, id: nat, order: seq<Hash>, n: nat, user: Name)
    requires CacheOk(w.rows, w.cache) && Named(w)
    requires ReadyToRotate(w, id) && w.calls[id].prior in w.rows && !GateOpen(w.rows, w.calls[id].prior, w.now)
    requires w.calls[id].prior in w.cache && Usable(w.cache[w.calls[id].prior], w.now)
    requires !Locked(w, id, w.calls[id].prior)
    requires user == w.rows[w.calls[id].prior].user
    requires Lists(order, LiveRowsOf(w.rows, user)) && Free(w, id, LiveRowsOf(w.rows, user))
    requires n == 4
    ensures var c := w.calls[id];
      Run(w, Steps(id, n) + CascadeSteps(id, order))
        == Goto(w, id, c.(rotate := Returned(Replay(RowsOf(w.rows, user))))).(rows := RevokedFor(w.rows, user))
  {
    var c := w.calls[id];
    var base := w.(locks := w.locks + {c.prior});
    var mid := Goto(base, id, c.(rotate := Cascade(user)));
    ReplayCascadesIffCacheIsStale(w, id);
    SoloIsRun(w, id, n);
    RunSplits(w, Steps(id, n), CascadeSteps(id, order));
    forall h | h in LiveRowsOf(w.rows, user)
      ensures !Locked(mid, id, h)
    {
      assert !Locked(w, id, h);
      assert Locked(base, id, h) == Locked(w, id, h);
      OwnMoveLocksNothing(base, id, c.(rotate := Cascade(user)), h);
    }
    CascadeCompletes(mid, id, user, order);
    assert mid.locks - {c.prior} == w.locks;
  }

  // ---- revocation and validation -----------------------------------------

  lemma RevocationRuns(w: World, id: nat, c: Call, n: nat)
    requires id in w.calls && w.calls[id] == c && c.RevokeCall? && c.revoke.DbRevoke? && !Locked(w, id, c.h) && n == 3
    ensures Solo(w, id, n) == Goto(w, id, c.(revoke := RevokeDone)).(
      rows := Revoked(w.rows, c.h), cache := if c.h in w.cache then w.cache[c.h := w.cache[c.h].(revoked := true)] else w.cache)
  {
    var w1 := Goto(w, id, c.(revoke := CacheRead)).(rows := Revoked(w.rows, c.h));
    assert Solo(w, id, n - 2) == w1 by { assert Solo(w, id, n - 3) == w; }
    if c.h in w.cache {
      assert Solo(w, id, n - 1) == w1.(calls := w.calls[id := c.(revoke := CacheMark(w.cache[c.h]))]);
      return;
    }
    assert Solo(w, id, n - 1) == w1.(calls := w.calls[id := c.(revoke := RevokeDone)]);
  }

  /** A revocation left alone marks the row, and the cached record if there is one;
  every other row and record is as it was. */
  lemma RevocationRevokes(w: World, id: nat, n: nat)
    requires id in w.calls && w.calls[id].RevokeCall? && w.calls[id].revoke.DbRevoke? && !Locked(w, id, w.calls[id].h)
    requires n == 3
    ensures var v, h := Run(w, Steps(id, n)), w.calls[id].h;
      && v.calls == w.calls[id := w.calls[id].(revoke := RevokeDone)]
      && v.rows.Keys == w.rows.Keys && (h in v.rows ==> v.rows[h] == w.rows[h].(revoked := true))
      && v.cache.Keys == w.cache.Keys && (h in v.cache ==> v.cache[h] == w.cache[h].(revoked := true))
      && (forall g | g in w.rows && g != h :: v.rows[g] == w.rows[g])
      && (forall g | g in w.cache && g != h :: v.cache[g] == w.cache[g])
      && v.now == w.now && v.locks == w.locks
  {
    SoloIsRun(w, id, n);
    RevocationRuns(w, id, w.calls[id], n);
  }

  /** A validation left alone accepts exactly if the record it goes by -- the cached
  one, or the row when none is cached -- is there, unrevoked and unexpired, and it
  answers that record; a row it accepts is cached, and nothing else changes. */
  lemma ValidationAccepts(w: World, id: nat, n: nat)
    requires id in w.calls && w.calls[id].ValidateCall? && w.calls[id].validate.CacheGet?
    requires n == 3
    ensures var h := w.calls[id].h;
      var cached, stored := h in w.cache, h in w.rows && !w.rows[h].revoked && w.rows[h].expiresAt > w.now;
      Run(w, Steps(id, n)) == Goto(w, id, w.calls[id].(validate := Validated(
           if cached then
             if !w.cache[h].revoked && w.cache[h].expiresAt > w.now then Some(w.cache[h]) else None
           else if stored then Some(w.rows[h]) else None))).(
           cache := if !cached && stored then w.cache[h := w.rows[h]] else w.cache)
  {
    var c := w.calls[id];
    SoloIsRun(w, id, n);
    assert Solo(w, id, n - 3) == w;
    if c.h in w.cache {
      assert Solo(w, id, n - 1) == Solo(w, id, n - 2);
      return;
    }
    assert Solo(w, id, n - 2) == Goto(w, id, c.(validate := DbGet));
    if c.h in w.rows && Usable(w.rows[c.h], w.now) {
      assert Solo(w, id, n - 1) == Goto(w, id, c.(validate := Rehydrate(w.rows[c.h])));
      return;
    }
    assert Solo(w, id, n - 1) == Goto(w, id, c.(validate := Validated(None)));
  }

  /** An issue left alone stores a fresh record in the table, unless the id has one, and
  in the cache. */
  lemma IssueStores(w: World, id: nat, n: nat)
    requires id in w.calls && w.calls[id].IssueCall? && w.calls[id].issue.DbInsert? && !Locked(w, id, w.calls[id].h)
    requires n == 2
    ensures var c := w.calls[id]; var t := Token(c.user, c.device, c.expiresAt, false, None);
      Run(w, Steps(id, n)) == Goto(w, id, c.(issue := Issued)).(
        rows := if c.h in w.rows then w.rows else w.rows[c.h := t], cache := w.cache[c.h := t])
  {
    var c := w.calls[id];
    SoloIsRun(w, id, n);
    assert Solo(w, id, n - 2) == w;
    assert Solo(w, id, n - 1) == Goto(w, id, c.(issue := CacheWrite)).(rows := Inserted(w.rows, c.h, Fresh(c.user, c.device, c.expiresAt)));
  }

  /** After a revocation left alone, a validation left alone refuses the token. */
  lemma RevokedIsRefused(w: World, id: nat, j: nat, n: nat)
    requires id in w.calls && w.calls[id].RevokeCall? && w.calls[id].revoke.DbRevoke? && !Locked(w, id, w.calls[id].h)
    requires j in w.calls && w.calls[j].ValidateCall? && w.calls[j].validate.CacheGet? && w.calls[j].h == w.calls[id].h
    requires n == 3
    ensures var v := Run(w, Steps(id, n) + Steps(j, n)); j in v.calls && v.calls[j] == w.calls[j].(validate := Validated(None))
  {
    RevocationRevokes(w, id, n);
    RunSplits(w, Steps(id, n), Steps(j, n));
    ValidationAccepts(Run(w, Steps(id, n)), j, n);
  }
}
