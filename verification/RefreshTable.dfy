/** The `auth_refresh_tokens` table and the four statements the gateway runs on it.

The functions say what each statement does to the committed rows; the class
carries them out in place.  Rows are never deleted (the periodic cleanup is not
part of this model).
*/
module RefreshTable {
  import opened Wrappers

  /** SHA-256 of a raw token id; taken to be injective, so a token is its hash.
  Hashes and names are only ever compared, so numbers stand for them. */
  type Hash = int

  /** User and device ids; NO_NAME is the empty string. */
  type Name = int
  const NO_NAME: Name := 0

  /** A row of the table.  The cached record has the same fields. */
  datatype Token = Token(user: Name, device: Name, expiresAt: nat, revoked: bool, rotatedTo: Option<Hash>)

  type Rows = map<Hash, Token>

  function Fresh(user: Name, device: Name, expiresAt: nat): Token {
    Token(user, device, expiresAt, false, None)
  }

  /** What the UPDATE of a rotation makes of the old row. */
  function Spent(t: Token, successor: Hash): Token {
    t.(revoked := true, rotatedTo := Some(successor))
  }

  /** The WHERE clause that gates a rotation. */
  predicate GateOpen(rows: Rows, prior: Hash, now: nat) {
    prior in rows && !rows[prior].revoked && rows[prior].expiresAt > now
  }

  /** INSERT ... ON CONFLICT DO NOTHING. */
  function Inserted(rows: Rows, h: Hash, t: Token): Rows {
    if h in rows then rows else rows[h := t]
  }

  /** UPDATE ... SET revoked = TRUE WHERE token_hash = h AND revoked = FALSE. */
  function Revoked(rows: Rows, h: Hash): Rows {
    if h in rows && !rows[h].revoked then rows[h := rows[h].(revoked := true)] else rows
  }

  /** UPDATE ... SET revoked = TRUE WHERE user_id = user AND revoked = FALSE. */
  function RevokedFor(rows: Rows, user: Name): Rows {
    map h | h in rows ::
      if rows[h].user == user && !rows[h].revoked then rows[h].(revoked := true) else rows[h]
  }

  predicate SameOwner(a: Token, b: Token) {
    a.user == b.user && a.device == b.device
  }

  /** How the committed table may develop: rows stay, identities stay, and a
  revoked row is frozen for good -- so `revoked` never returns to false and
  `rotated_to` is written at most once, together with `revoked`. */
  ghost predicate Evolves(rows: Rows, rows': Rows) {
    forall h | h in rows ::
      && h in rows'
      && SameOwner(rows[h], rows'[h])
      && rows[h].expiresAt == rows'[h].expiresAt
      && (rows[h].revoked ==> rows'[h] == rows[h])
      && (!rows'[h].revoked ==> rows'[h] == rows[h])
  }

  lemma EvolvesTransitive(a: Rows, b: Rows, c: Rows)
    requires Evolves(a, b) && Evolves(b, c)
    ensures Evolves(a, c)
  {
    forall h | h in a
      ensures h in c && SameOwner(a[h], c[h]) && a[h].expiresAt == c[h].expiresAt
      ensures a[h].revoked ==> c[h] == a[h]
      ensures !c[h].revoked ==> c[h] == a[h]
    {
      assert h in b;
    }
  }

  /** The table as the DB client object drives it, one statement or transaction at a time. */
  class RefreshTokens {
    var rows: Rows

    constructor ()
      ensures rows == map[]
    {
      rows := map[];
    }

    method InsertRefreshToken(h: Hash, user: Name, device: Name, expiresAt: nat)
      modifies this
      ensures rows == Inserted(old(rows), h, Fresh(user, device, expiresAt))
      ensures Evolves(old(rows), rows)
    {
      if h !in rows {
        rows := rows[h := Fresh(user, device, expiresAt)];
      }
    }

    /** UPDATE and INSERT in one transaction; the gate is evaluated on the committed row. */
    method RotateRefreshTokenTx(prior: Hash, successor: Hash, user: Name, device: Name,
                                expiresAt: nat, now: nat) returns (r: Option<Token>)
      modifies this
      ensures r.Some? <==> GateOpen(old(rows), prior, now)
      ensures r.None? ==> rows == old(rows)
      ensures r.Some? ==>
        && r.value == Fresh(user, device, expiresAt)
        && rows == Inserted(old(rows)[prior := Spent(old(rows)[prior], successor)], successor, r.value)
        && !GateOpen(rows, prior, now)
      ensures Evolves(old(rows), rows)
    {
      if !(prior in rows && !rows[prior].revoked && rows[prior].expiresAt > now) {
        return None;
      }
      rows := rows[prior := rows[prior].(revoked := true, rotatedTo := Some(successor))];
      if successor !in rows {
        rows := rows[successor := Token(user, device, expiresAt, false, None)];
      }
      r := Some(Token(user, device, expiresAt, false, None));
    }

    method RevokeRefreshToken(h: Hash)
      modifies this
      ensures rows == Revoked(old(rows), h)
      ensures Evolves(old(rows), rows)
    {
      if h in rows && !rows[h].revoked {
        rows := rows[h := rows[h].(revoked := true)];
      }
    }

    method RevokeAllForUser(user: Name) returns (affected: nat)
      modifies this
      ensures rows == RevokedFor(old(rows), user)
      ensures affected == |set h | h in old(rows) && old(rows)[h].user == user && !old(rows)[h].revoked|
      ensures forall h | h in rows && rows[h].user == user :: rows[h].revoked
      ensures Evolves(old(rows), rows)
    {
      var hit := set h | h in rows && rows[h].user == user && !rows[h].revoked;
      rows := map h | h in rows :: if h in hit then rows[h].(revoked := true) else rows[h];
      affected := |hit|;
    }
  }
}
