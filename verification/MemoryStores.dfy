/** The in-memory repositories, mutated in place, each method proved equal to the table
    function that the protocol machine uses. */
module MemoryStores {
  import opened Base
  import opened AuthzRequest
  import opened Tables

  class MemoryClients {
    var rows: map<string, Client>

    constructor ()
      ensures rows == map[]
    {
      rows := map[];
    }

    method FindById(clientId: string) returns (r: Option<Client>)
      ensures r == if clientId in rows then Some(rows[clientId]) else None
    {
      r := if clientId in rows then Some(rows[clientId]) else None;
    }

    method Upsert(rec: Client)
      modifies this
      ensures rows == old(rows)[rec.clientId := rec]
    {
      rows := rows[rec.clientId := rec];
    }
  }

  class MemoryParRequests {
    var rows: map<string, ParRow>

    constructor ()
      ensures rows == map[]
    {
      rows := map[];
    }

    method Insert(uri: string, rec: ParRow)
      modifies this
      ensures rows == old(rows)[uri := rec.(consumedAt := None)]
    {
      rows := rows[uri := rec.(consumedAt := None)];
    }

    method Peek(uri: string, now: int) returns (r: Option<ParRow>)
      ensures r == PeekPar(rows, uri, now)
    {
      if uri !in rows || rows[uri].consumedAt.Some? || rows[uri].expiresAt <= now {
        return None;
      }
      return Some(rows[uri]);
    }

    /** At most one call ever gets the row. */
    method Consume(uri: string, now: int) returns (r: Option<ParRow>)
      modifies this
      ensures r == PeekPar(old(rows), uri, now) && rows == ConsumePar(old(rows), uri, now)
      ensures r.Some? ==> forall later: int :: PeekPar(rows, uri, later).None?
    {
      if uri !in rows || rows[uri].consumedAt.Some? || rows[uri].expiresAt <= now {
        return None;
      }
      r := Some(rows[uri]);
      rows := rows[uri := rows[uri].(consumedAt := Some(now))];
    }
  }

  class MemoryGrants {
    var rows: map<string, GrantRow>

    constructor ()
      ensures rows == map[]
    {
      rows := map[];
    }

    method Insert(id: string, rec: GrantRow)
      modifies this
      ensures rows == old(rows)[id := rec]
    {
      rows := rows[id := rec];
    }

    method Find(id: string) returns (r: Option<GrantRow>)
      ensures r == if id in rows then Some(rows[id]) else None
    {
      r := if id in rows then Some(rows[id]) else None;
    }

    method Revoke(id: string, at: int)
      modifies this
      ensures rows == RevokeGrant(old(rows), id, at)
    {
      if id in rows && rows[id].revokedAt.None? {
        rows := rows[id := rows[id].(revokedAt := Some(at))];
      }
    }
  }

  class MemoryAuthorizationCodes {
    var rows: map<string, CodeRow>

    constructor ()
      ensures rows == map[]
    {
      rows := map[];
    }

    method Insert(hash: string, rec: CodeRow)
      modifies this
      ensures rows == old(rows)[hash := rec.(consumedAt := None)]
    {
      rows := rows[hash := rec.(consumedAt := None)];
    }

    /** A consumed code is reported even past its expiry; once redeemed it is
        reported at every later presentation. */
    method Redeem(hash: string, now: int) returns (r: Redemption)
      modifies this
      ensures r == RedeemResult(old(rows), hash, now) && rows == RedeemRows(old(rows), hash, now)
      ensures r.Redeemed? || r.Replayed? ==> forall later: int :: RedeemResult(rows, hash, later).Replayed?
    {
      if hash !in rows {
        return Invalid;
      }
      if rows[hash].consumedAt.Some? {
        return Replayed(rows[hash]);
      }
      if rows[hash].expiresAt <= now {
        return Invalid;
      }
      r := Redeemed(rows[hash]);
      rows := rows[hash := rows[hash].(consumedAt := Some(now))];
    }
  }

  class MemoryAccessTokens {
    var rows: map<string, AccessRow>

    constructor ()
      ensures rows == map[]
    {
      rows := map[];
    }

    method Insert(jti: string, rec: AccessRow)
      modifies this
      ensures rows == old(rows)[jti := rec]
    {
      rows := rows[jti := rec];
    }

    method FindByJti(jti: string) returns (r: Option<AccessRow>)
      ensures r == if jti in rows then Some(rows[jti]) else None
    {
      r := if jti in rows then Some(rows[jti]) else None;
    }

    method Revoke(jti: string, at: int)
      modifies this
      ensures rows == RevokeAccess(old(rows), jti, at)
    {
      if jti in rows && rows[jti].revokedAt.None? {
        rows := rows[jti := rows[jti].(revokedAt := Some(at))];
      }
    }

    method RevokeByGrant(grantId: string, at: int)
      modifies this
      ensures rows == RevokeAccessOf(old(rows), grantId, at)
    {
      var todo := rows.Keys;
      while todo != {}
        invariant todo <= old(rows).Keys && rows.Keys == old(rows).Keys
        invariant forall k | k in rows ::
          rows[k] == if k in todo then old(rows)[k] else RevokeAccessOf(old(rows), grantId, at)[k]
        decreases todo
      {
        var jti :| jti in todo;
        if rows[jti].grantId == grantId && rows[jti].revokedAt.None? {
          rows := rows[jti := rows[jti].(revokedAt := Some(at))];
        }
        todo := todo - {jti};
      }
    }
  }

  class MemoryRefreshTokens {
    var rows: map<string, RefreshRow>

    constructor ()
      ensures rows == map[]
    {
      rows := map[];
    }

    method Insert(hash: string, rec: RefreshRow)
      modifies this
      ensures rows == old(rows)[hash := rec]
    {
      rows := rows[hash := rec];
    }

    method FindByHash(hash: string) returns (r: Option<RefreshRow>)
      ensures r == if hash in rows then Some(rows[hash]) else None
    {
      r := if hash in rows then Some(rows[hash]) else None;
    }

    method Revoke(hash: string, at: int)
      modifies this
      ensures rows == RevokeRefresh(old(rows), hash, at)
    {
      if hash in rows && rows[hash].revokedAt.None? {
        rows := rows[hash := rows[hash].(revokedAt := Some(at))];
      }
    }

    method RevokeByGrant(grantId: string, at: int)
      modifies this
      ensures rows == RevokeRefreshOf(old(rows), grantId, at)
    {
      var todo := rows.Keys;
      while todo != {}
        invariant todo <= old(rows).Keys && rows.Keys == old(rows).Keys
        invariant forall k | k in rows ::
          rows[k] == if k in todo then old(rows)[k] else RevokeRefreshOf(old(rows), grantId, at)[k]
        decreases todo
      {
        var hash :| hash in todo;
        if rows[hash].grantId == grantId && rows[hash].revokedAt.None? {
          rows := rows[hash := rows[hash].(revokedAt := Some(at))];
        }
        todo := todo - {hash};
      }
    }
  }

  // ------------------------------------------------------------ interactions

  type Interactions = map<string, InteractionRow>

  /** The table and the one that no row is ever swept from, at a clock that has
      reached `clock`: they differ in rows that had expired by then. */
  ghost predicate Forgets(rows: Interactions, reference: Interactions, clock: int) {
    && (forall id | id in rows :: id in reference && rows[id] == reference[id])
    && (forall id | id in reference && id !in rows :: reference[id].expiresAt <= clock)
  }


  /** Sweeping cannot be seen by `find`, nor by `complete` and `setSubject`, while
      the clock does not run backwards. */
  lemma ForgettingIsInvisible(rows: Interactions, reference: Interactions, clock: int, id: string, now: int)
    requires Forgets(rows, reference, clock) && clock <= now
    ensures FindInteraction(rows, id, now) == FindInteraction(reference, id, now)
  {
  }

  const INTERACTION_SWEEP_SIZE := 1024

  class MemoryInteractions {
    var rows: Interactions
    /** The same calls on a table that keeps every row. */
    ghost var reference: Interactions
    /** The latest clock reading that a call was given. */
    ghost var clock: int

    ghost predicate Valid()
      reads this
    {
      Forgets(rows, reference, clock)
    }

    constructor ()
      ensures Valid() && rows == map[] && reference == map[] && clock == 0
    {
      rows := map[];
      reference := map[];
      clock := 0;
    }

    method Sweep(now: int)
      modifies this`rows
      ensures rows == map k | k in old(rows) && old(rows)[k].expiresAt > now :: old(rows)[k]
    {
      var todo := rows.Keys;
      while todo != {}
        invariant todo <= old(rows).Keys
        invariant rows == map k | k in old(rows) && (k in todo || old(rows)[k].expiresAt > now) :: old(rows)[k]
        decreases todo
      {
        var id :| id in todo;
        if rows[id].expiresAt <= now {
          rows := rows - {id};
        }
        todo := todo - {id};
      }
    }

    method Insert(id: string, rec: InteractionRow)
      requires Valid()
      modifies this
      ensures Valid()
      ensures reference == old(reference)[id := rec.(completedAt := None)]
      ensures clock == Max(old(clock), rec.createdAt)
      ensures id in rows && rows[id] == rec.(completedAt := None)
      ensures |old(rows)| < INTERACTION_SWEEP_SIZE ==> rows == old(rows)[id := rec.(completedAt := None)]
      ensures |old(rows)| >= INTERACTION_SWEEP_SIZE ==>
                forall k | k in rows && k != id :: k in old(rows) && rows[k].expiresAt > rec.createdAt
    {
      if |rows| >= INTERACTION_SWEEP_SIZE {
        Sweep(rec.createdAt);
      }
      clock := Max(clock, rec.createdAt);
      rows := rows[id := rec.(completedAt := None)];
      reference := reference[id := rec.(completedAt := None)];
    }

    method Find(id: string, now: int) returns (r: Option<InteractionRow>)
      requires Valid()
      modifies this`clock
      ensures Valid() && clock == Max(old(clock), now)
      ensures old(clock) <= now ==> r == FindInteraction(reference, id, now)
    {
      if id !in rows || rows[id].completedAt.Some? || rows[id].expiresAt <= now {
        r := None;
      } else {
        r := Some(rows[id]);
      }
      if clock <= now {
        ForgettingIsInvisible(rows, reference, clock, id, now);
      }
      clock := Max(clock, now);
    }

    method SetSubject(id: string, subject: string, authTime: int, acr: Option<string>, amr: Option<seq<string>>)
      requires Valid()
      modifies this
      ensures Valid() && clock == old(clock)
      ensures reference == BindSubject(old(reference), id, subject, authTime, acr, amr)
    {
      if id in rows && rows[id].completedAt.None? {
        rows := rows[id := rows[id].(subject := Some(subject), authTime := Some(authTime), acr := acr, amr := amr)];
      }
      reference := BindSubject(reference, id, subject, authTime, acr, amr);
    }

    method Complete(id: string, now: int) returns (r: Option<InteractionRow>)
      requires Valid()
      modifies this
      ensures Valid() && clock == Max(old(clock), now)
      ensures reference == CompleteInteraction(old(reference), id, now)
      ensures old(clock) <= now ==> r == FindInteraction(old(reference), id, now)
    {
      if clock <= now {
        ForgettingIsInvisible(rows, reference, clock, id, now);
      }
      if id !in rows || rows[id].completedAt.Some? || rows[id].expiresAt <= now {
        r := None;
      } else {
        r := Some(rows[id]);
        rows := rows[id := rows[id].(completedAt := Some(now))];
      }
      reference := CompleteInteraction(reference, id, now);
      clock := Max(clock, now);
    }
  }

  /** The PostgreSQL table: an insert may first delete any of the expired rows. */
  class PgInteractions {
    var table: Interactions
    ghost var reference: Interactions
    ghost var clock: int

    ghost predicate Valid()
      reads this
    {
      Forgets(table, reference, clock)
    }

    constructor ()
      ensures Valid() && table == map[] && reference == map[] && clock == 0
    {
      table := map[];
      reference := map[];
      clock := 0;
    }

    /** `reap` is the outcome of the 2% draw, `victims` the database's choice. */
    method Insert(id: string, rec: InteractionRow, reap: bool, victims: set<string>)
      requires Valid()
      requires forall k | k in victims :: k in table && table[k].expiresAt <= rec.createdAt
      requires |victims| <= 1000
      modifies this
      ensures Valid()
      ensures reference == old(reference)[id := rec.(completedAt := None)]
      ensures clock == Max(old(clock), rec.createdAt)
    {
      if reap {
        table := table - victims;
      }
      clock := Max(clock, rec.createdAt);
      table := table[id := rec.(completedAt := None)];
      reference := reference[id := rec.(completedAt := None)];
    }

    method Find(id: string, now: int) returns (r: Option<InteractionRow>)
      requires Valid()
      modifies this`clock
      ensures Valid() && clock == Max(old(clock), now)
      ensures old(clock) <= now ==> r == FindInteraction(reference, id, now)
    {
      r := if id in table && table[id].completedAt.None? && table[id].expiresAt > now then Some(table[id]) else None;
      if clock <= now {
        ForgettingIsInvisible(table, reference, clock, id, now);
      }
      clock := Max(clock, now);
    }

    method SetSubject(id: string, subject: string, authTime: int, acr: Option<string>, amr: Option<seq<string>>)
      requires Valid()
      modifies this
      ensures Valid() && clock == old(clock)
      ensures reference == BindSubject(old(reference), id, subject, authTime, acr, amr)
    {
      table := BindSubject(table, id, subject, authTime, acr, amr);
      reference := BindSubject(reference, id, subject, authTime, acr, amr);
    }

    method Complete(id: string, now: int) returns (r: Option<InteractionRow>)
      requires Valid()
      modifies this
      ensures Valid() && clock == Max(old(clock), now)
      ensures reference == CompleteInteraction(old(reference), id, now)
      ensures old(clock) <= now ==> r == FindInteraction(old(reference), id, now)
    {
      if clock <= now {
        ForgettingIsInvisible(table, reference, clock, id, now);
      }
      if id in table && table[id].completedAt.None? && table[id].expiresAt > now {
        r := Some(table[id]);
        table := table[id := table[id].(completedAt := Some(now))];
      } else {
        r := None;
      }
      reference := CompleteInteraction(reference, id, now);
      clock := Max(clock, now);
    }
  }
}
