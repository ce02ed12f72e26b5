/** Rotation chains: the graph that the `rotated_to` pointers draw on the table. */
module RefreshChains {
  import opened Wrappers
  import opened RefreshTable

  predicate Points(rows: Rows, h: Hash) {
    h in rows && rows[h].rotatedTo.Some?
  }

  function Target(rows: Rows, h: Hash): Hash
    requires Points(rows, h)
  {
    rows[h].rotatedTo.value
  }

  /** A ranking that every pointer climbs. */
  ghost predicate Ranks(rows: Rows, rank: map<Hash, int>) {
    && rank.Keys == rows.Keys
    && forall h | Points(rows, h) :: Target(rows, h) in rank && rank[h] < rank[Target(rows, h)]
  }

  /** The local shape from which the global shape of the chains follows. */
  ghost predicate Linked(rows: Rows) {
    && (forall h | Points(rows, h) ::
      rows[h].revoked && Target(rows, h) in rows && SameOwner(rows[h], rows[Target(rows, h)]))
    && (forall g, h | Points(rows, g) && Points(rows, h) && Target(rows, g) == Target(rows, h) :: g == h)
    && (exists rank :: Ranks(rows, rank))
  }

  /** The row reached by following k pointers, if the chain is that long. */
  function Hop(rows: Rows, h: Hash, k: nat): Option<Hash>
    decreases k
  {
    if h !in rows then None
    else if k == 0 then Some(h)
    else if Points(rows, h) then Hop(rows, Target(rows, h), k - 1)
    else None
  }

  // ---- the statements keep the shape -------------------------------------

  lemma InsertKeepsLinked(rows: Rows, h: Hash, t: Token)
    requires Linked(rows) && t.rotatedTo == None
    ensures Linked(Inserted(rows, h, t))
  {
    if h !in rows {
      var rows' := rows[h := t];
      var rank :| Ranks(rows, rank);
      assert forall g | Points(rows', g) :: Points(rows, g) && Target(rows', g) == Target(rows, g);
      assert Ranks(rows', rank[h := 0]);
    }
  }

  /** Setting `revoked` on any rows, pointers untouched. */
  lemma RevokeKeepsLinked(rows: Rows, rows': Rows)
    requires Linked(rows) && rows'.Keys == rows.Keys
    requires forall h | h in rows :: rows'[h] == rows[h] || rows'[h] == rows[h].(revoked := true)
    ensures Linked(rows')
  {
    var rank :| Ranks(rows, rank);
    assert forall h :: Points(rows', h) <==> Points(rows, h);
    assert forall h | Points(rows, h) :: Target(rows', h) == Target(rows, h);
    assert Ranks(rows', rank);
  }

  /** A committed rotation appends one fresh row to the chain of the old one. */
  lemma RotateKeepsLinked(rows: Rows, prior: Hash, succ: Hash, t: Token)
    requires Linked(rows)
    requires prior in rows && !rows[prior].revoked && succ !in rows
    requires t.rotatedTo == None && SameOwner(t, rows[prior])
    ensures Linked(rows[prior := Spent(rows[prior], succ)][succ := t])
  {
    var rows' := rows[prior := Spent(rows[prior], succ)][succ := t];
    var rank :| Ranks(rows, rank);
    assert forall h | Points(rows', h) :: h == prior || (Points(rows, h) && Target(rows', h) == Target(rows, h));
    assert Ranks(rows', rank[succ := rank[prior] + 1]);
  }

  // ---- what the shape means ----------------------------------------------

  lemma {:induction false} HopStays(rows: Rows, h: Hash, k: nat)
    requires Linked(rows) && Hop(rows, h, k).Some?
    ensures Hop(rows, h, k).value in rows
    ensures SameOwner(rows[h], rows[Hop(rows, h, k).value])
    ensures k > 0 ==> rows[h].revoked
    decreases k
  {
    if k > 0 {
      HopStays(rows, Target(rows, h), k - 1);
    }
  }

  lemma {:induction false} HopClimbs(rows: Rows, rank: map<Hash, int>, h: Hash, k: nat)
    requires Ranks(rows, rank) && Hop(rows, h, k).Some?
    ensures Hop(rows, h, k).value in rank && rank[h] + k <= rank[Hop(rows, h, k).value]
    decreases k
  {
    if k > 0 {
      HopClimbs(rows, rank, Target(rows, h), k - 1);
    }
  }

  lemma {:induction false} HopSplits(rows: Rows, h: Hash, i: nat, j: nat)
    requires Hop(rows, h, i).Some?
    ensures Hop(rows, h, i + j) == Hop(rows, Hop(rows, h, i).value, j)
    decreases i
  {
    if i > 0 {
      HopSplits(rows, Target(rows, h), i - 1, j);
    }
  }

  /** No chain comes back to a row it has left. */
  lemma NoCycle(rows: Rows, h: Hash, k: nat)
    requires Linked(rows) && k > 0
    ensures Hop(rows, h, k) != Some(h)
  {
    if Hop(rows, h, k).Some? {
      var rank :| Ranks(rows, rank);
      HopClimbs(rows, rank, h, k);
    }
  }

  lemma {:induction false} HopBack(rows: Rows, a: Hash, b: Hash, i: nat, j: nat)
    requires Linked(rows) && i <= j
    requires Hop(rows, a, i).Some? && Hop(rows, a, i) == Hop(rows, b, j)
    ensures Hop(rows, b, j - i) == Some(a)
    decreases i
  {
    if i > 0 {
      HopPrefix(rows, a, i - 1, i);
      HopPrefix(rows, b, j - 1, j);
      HopSplits(rows, a, i - 1, 1);
      HopSplits(rows, b, j - 1, 1);
      var x, y := Hop(rows, a, i - 1).value, Hop(rows, b, j - 1).value;
      assert Hop(rows, x, 1) == Hop(rows, y, 1);
      assert Points(rows, x) && Points(rows, y) && Target(rows, x) == Target(rows, y);
      HopBack(rows, a, b, i - 1, j - 1);
    }
  }

  lemma {:induction false} HopPrefix(rows: Rows, h: Hash, i: nat, j: nat)
    requires i <= j && Hop(rows, h, j).Some?
    ensures Hop(rows, h, i).Some?
    decreases i
  {
    if i > 0 {
      HopPrefix(rows, Target(rows, h), i - 1, j - 1);
    }
  }

  /** Two chains that share a row are one chain: one start lies on the other's chain. */
  lemma ChainsDisjoint(rows: Rows, a: Hash, b: Hash, i: nat, j: nat)
    requires Linked(rows)
    requires Hop(rows, a, i).Some? && Hop(rows, a, i) == Hop(rows, b, j)
    ensures if i <= j then Hop(rows, b, j - i) == Some(a) else Hop(rows, a, i - j) == Some(b)
  {
    if i <= j {
      HopBack(rows, a, b, i, j);
    } else {
      HopBack(rows, b, a, j, i);
    }
  }

  /** A chain has at most one unrevoked row, and it is its last one. */
  lemma AtMostOneLive(rows: Rows, h: Hash, i: nat, j: nat)
    requires Linked(rows) && i <= j
    requires Hop(rows, h, i).Some? && Hop(rows, h, j).Some?
    requires Hop(rows, h, i).value in rows && !rows[Hop(rows, h, i).value].revoked
    ensures i == j
  {
    if i < j {
      HopSplits(rows, h, i, j - i);
    }
  }
}
