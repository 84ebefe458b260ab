/** The rows of the protocol state and what each storage call does to them. */
module Tables {
  import opened Base
  import opened AuthzRequest

  datatype ParRow = ParRow(
    clientId: string, params: Params, dpopJkt: Option<string>, expiresAt: int, consumedAt: Option<int>)

  datatype GrantRow = GrantRow(
    clientId: string, subject: string, scope: string, authTime: int, createdAt: int, revokedAt: Option<int>)

  datatype CodeRow = CodeRow(
    grantId: string, clientId: string, redirectUri: string, codeChallenge: string, dpopJkt: Option<string>,
    nonce: Option<string>, expiresAt: int, consumedAt: Option<int>)

  datatype AccessRow = AccessRow(
    grantId: string, clientId: string, subject: string, scope: string, cnfJkt: Option<string>,
    expiresAt: int, revokedAt: Option<int>)

  datatype RefreshRow = RefreshRow(
    grantId: string, clientId: string, scope: string, expiresAt: int, revokedAt: Option<int>)

  datatype InteractionRow = InteractionRow(
    clientId: string, requestUri: string, subject: Option<string>, authTime: Option<int>,
    acr: Option<string>, amr: Option<seq<string>>, createdAt: int, expiresAt: int, completedAt: Option<int>)

  /** Codes and refresh tokens are keyed by the hash of their value. */
  datatype Db = Db(
    clients: map<string, Client>, par: map<string, ParRow>, grants: map<string, GrantRow>,
    codes: map<string, CodeRow>, access: map<string, AccessRow>, refresh: map<string, RefreshRow>,
    interactions: map<string, InteractionRow>)

  // ------------------------------------------------------------- one table

  /** The unconsumed, unexpired pushed request, if it is one. */
  function PeekPar(rows: map<string, ParRow>, uri: string, now: int): Option<ParRow> {
    if uri in rows && rows[uri].consumedAt.None? && rows[uri].expiresAt > now then Some(rows[uri]) else None
  }

  function ConsumePar(rows: map<string, ParRow>, uri: string, now: int): map<string, ParRow> {
    if PeekPar(rows, uri, now).Some? then rows[uri := rows[uri].(consumedAt := Some(now))] else rows
  }

  datatype Redemption = Redeemed(row: CodeRow) | Replayed(row: CodeRow) | Invalid

  function RedeemResult(rows: map<string, CodeRow>, hash: string, now: int): Redemption {
    if hash !in rows then Invalid
    else if rows[hash].consumedAt.Some? then Replayed(rows[hash])
    else if rows[hash].expiresAt <= now then Invalid
    else Redeemed(rows[hash])
  }

  function RedeemRows(rows: map<string, CodeRow>, hash: string, now: int): map<string, CodeRow> {
    if RedeemResult(rows, hash, now).Redeemed? then rows[hash := rows[hash].(consumedAt := Some(now))] else rows
  }

  function RevokeGrant(rows: map<string, GrantRow>, id: string, at: int): map<string, GrantRow> {
    if id in rows && rows[id].revokedAt.None? then rows[id := rows[id].(revokedAt := Some(at))] else rows
  }

  function RevokeAccess(rows: map<string, AccessRow>, jti: string, at: int): map<string, AccessRow> {
    if jti in rows && rows[jti].revokedAt.None? then rows[jti := rows[jti].(revokedAt := Some(at))] else rows
  }

  function RevokeAccessOf(rows: map<string, AccessRow>, grantId: string, at: int): map<string, AccessRow> {
    map k | k in rows ::
      if rows[k].grantId == grantId && rows[k].revokedAt.None? then rows[k].(revokedAt := Some(at)) else rows[k]
  }

  function RevokeRefresh(rows: map<string, RefreshRow>, hash: string, at: int): map<string, RefreshRow> {
    if hash in rows && rows[hash].revokedAt.None? then rows[hash := rows[hash].(revokedAt := Some(at))] else rows
  }

  function RevokeRefreshOf(rows: map<string, RefreshRow>, grantId: string, at: int): map<string, RefreshRow> {
    map k | k in rows ::
      if rows[k].grantId == grantId && rows[k].revokedAt.None? then rows[k].(revokedAt := Some(at)) else rows[k]
  }

  /** The open, unexpired interaction, if it is one. */
  function FindInteraction(rows: map<string, InteractionRow>, id: string, now: int): Option<InteractionRow> {
    if id in rows && rows[id].completedAt.None? && rows[id].expiresAt > now then Some(rows[id]) else None
  }

  function BindSubject(rows: map<string, InteractionRow>, id: string, subject: string, authTime: int,
                       acr: Option<string>, amr: Option<seq<string>>): map<string, InteractionRow> {
    if id in rows && rows[id].completedAt.None?
    then rows[id := rows[id].(subject := Some(subject), authTime := Some(authTime), acr := acr, amr := amr)]
    else rows
  }

  function CompleteInteraction(rows: map<string, InteractionRow>, id: string, now: int): map<string, InteractionRow> {
    if FindInteraction(rows, id, now).Some? then rows[id := rows[id].(completedAt := Some(now))] else rows
  }

  // ---------------------------------------------------------- one statement

  /** One storage call that changes something. */
  datatype Write =
    | Nothing
    | PutClient(client: Client)
    | PutPar(uri: string, par: ParRow)
    | TakePar(uri: string, now: int)
    | PutGrant(id: string, grant: GrantRow)
    | DropGrant(id: string, now: int)
    | PutCode(hash: string, code: CodeRow)
    | TakeCode(hash: string, now: int)
    | PutAccess(jti: string, access: AccessRow)
    | DropAccess(jti: string, now: int)
    | DropAccessOf(id: string, now: int)
    | PutRefresh(hash: string, refresh: RefreshRow)
    | DropRefresh(hash: string, now: int)
    | DropRefreshOf(id: string, now: int)
    | PutInteraction(id: string, interaction: InteractionRow)
    | Bind(id: string, subject: string, authTime: int, acr: Option<string>, amr: Option<seq<string>>)
    | Complete(id: string, now: int)

  function Apply(db: Db, w: Write): Db {
    match w
    case Nothing => db
    case PutClient(c) => db.(clients := db.clients[c.clientId := c])
    case PutPar(uri, row) => db.(par := db.par[uri := row])
    case TakePar(uri, now) => db.(par := ConsumePar(db.par, uri, now))
    case PutGrant(id, row) => db.(grants := db.grants[id := row])
    case DropGrant(id, now) => db.(grants := RevokeGrant(db.grants, id, now))
    case PutCode(hash, row) => db.(codes := db.codes[hash := row])
    case TakeCode(hash, now) => db.(codes := RedeemRows(db.codes, hash, now))
    case PutAccess(jti, row) => db.(access := db.access[jti := row])
    case DropAccess(jti, now) => db.(access := RevokeAccess(db.access, jti, now))
    case DropAccessOf(id, now) => db.(access := RevokeAccessOf(db.access, id, now))
    case PutRefresh(hash, row) => db.(refresh := db.refresh[hash := row])
    case DropRefresh(hash, now) => db.(refresh := RevokeRefresh(db.refresh, hash, now))
    case DropRefreshOf(id, now) => db.(refresh := RevokeRefreshOf(db.refresh, id, now))
    case PutInteraction(id, row) => db.(interactions := db.interactions[id := row])
    case Bind(id, subject, authTime, acr, amr) =>
      db.(interactions := BindSubject(db.interactions, id, subject, authTime, acr, amr))
    case Complete(id, now) => db.(interactions := CompleteInteraction(db.interactions, id, now))
  }

  /** Insertions go under identifiers that are not in use: they are random. */
  predicate Fresh(db: Db, w: Write) {
    match w
    case PutPar(uri, _) => uri !in db.par
    case PutGrant(id, _) => id !in db.grants
    case PutCode(hash, _) => hash !in db.codes
    case PutAccess(jti, _) => jti !in db.access
    case PutRefresh(hash, _) => hash !in db.refresh
    case PutInteraction(id, _) => id !in db.interactions
    case _ => true
  }

  // -------------------------------------------- what a statement does, row by row

  /** Rows of one table: one may come in under a new key, and the others stay. */
  ghost predicate OneMore<R>(rows: map<string, R>, after: map<string, R>, key: string, row: R) {
    after.Keys == rows.Keys + {key} && after[key] == row && forall k | k in rows && k != key :: after[k] == rows[k]
  }

  /** A mark is made on the rows it is for and that do not have one yet; nothing else changes. */
  ghost predicate Marked<R(!new)>(rows: map<string, R>, after: map<string, R>, isFor: (string, R) -> bool,
                                  mark: R -> R) {
    after.Keys == rows.Keys && forall k | k in rows :: after[k] == if isFor(k, rows[k]) then mark(rows[k]) else rows[k]
  }

  /** Access tokens: one is put in, or the unrevoked one that is named, or the unrevoked
      ones of a grant, are revoked. */
  lemma AccessExactly(db: Db, w: Write)
    ensures var rows, after := db.access, Apply(db, w).access;
            match w
            case PutAccess(jti, row) => OneMore(rows, after, jti, row)
            case DropAccess(jti, now) =>
              Marked(rows, after, (k, r: AccessRow) => k == jti && r.revokedAt.None?,
                     (r: AccessRow) => r.(revokedAt := Some(now)))
            case DropAccessOf(g, now) =>
              Marked(rows, after, (k, r: AccessRow) => r.grantId == g && r.revokedAt.None?,
                     (r: AccessRow) => r.(revokedAt := Some(now)))
            case _ => after == rows
  {
  }

  lemma RefreshExactly(db: Db, w: Write)
    ensures var rows, after := db.refresh, Apply(db, w).refresh;
            match w
            case PutRefresh(hash, row) => OneMore(rows, after, hash, row)
            case DropRefresh(hash, now) =>
              Marked(rows, after, (k, r: RefreshRow) => k == hash && r.revokedAt.None?,
                     (r: RefreshRow) => r.(revokedAt := Some(now)))
            case DropRefreshOf(g, now) =>
              Marked(rows, after, (k, r: RefreshRow) => r.grantId == g && r.revokedAt.None?,
                     (r: RefreshRow) => r.(revokedAt := Some(now)))
            case _ => after == rows
  {
  }

  lemma GrantsExactly(db: Db, w: Write)
    ensures var rows, after := db.grants, Apply(db, w).grants;
            match w
            case PutGrant(id, row) => OneMore(rows, after, id, row)
            case DropGrant(id, now) =>
              Marked(rows, after, (k, r: GrantRow) => k == id && r.revokedAt.None?,
                     (r: GrantRow) => r.(revokedAt := Some(now)))
            case _ => after == rows
  {
  }

  /** Pushed requests and codes are taken while they are unused and unexpired. */
  lemma ParExactly(db: Db, w: Write)
    ensures var rows, after := db.par, Apply(db, w).par;
            match w
            case PutPar(uri, row) => OneMore(rows, after, uri, row)
            case TakePar(uri, now) =>
              Marked(rows, after, (k, r: ParRow) => k == uri && r.consumedAt.None? && now < r.expiresAt,
                     (r: ParRow) => r.(consumedAt := Some(now)))
            case _ => after == rows
  {
  }

  lemma CodesExactly(db: Db, w: Write)
    ensures var rows, after := db.codes, Apply(db, w).codes;
            match w
            case PutCode(hash, row) => OneMore(rows, after, hash, row)
            case TakeCode(hash, now) =>
              Marked(rows, after, (k, r: CodeRow) => k == hash && r.consumedAt.None? && now < r.expiresAt,
                     (r: CodeRow) => r.(consumedAt := Some(now)))
            case _ => after == rows
  {
  }

  /** An interaction is bound while it is not completed, and completed before it expires. */
  lemma InteractionsExactly(db: Db, w: Write)
    ensures var rows, after := db.interactions, Apply(db, w).interactions;
            match w
            case PutInteraction(id, row) => OneMore(rows, after, id, row)
            case Bind(id, sub, at, acr, amr) =>
              Marked(rows, after, (k, r: InteractionRow) => k == id && r.completedAt.None?,
                     (r: InteractionRow) => r.(subject := Some(sub), authTime := Some(at), acr := acr, amr := amr))
            case Complete(id, now) =>
              Marked(rows, after, (k, r: InteractionRow) => k == id && r.completedAt.None? && now < r.expiresAt,
                     (r: InteractionRow) => r.(completedAt := Some(now)))
            case _ => after == rows
  {
  }

  /** A lookup finds what is there to be used, and nothing else. */
  lemma FoundExactly(db: Db, key: string, now: int)
    ensures var r := PeekPar(db.par, key, now);
            if key in db.par && db.par[key].consumedAt.None? && now < db.par[key].expiresAt
            then r == Some(db.par[key]) else r.None?
    ensures var r := FindInteraction(db.interactions, key, now);
            if key in db.interactions && db.interactions[key].completedAt.None? && now < db.interactions[key].expiresAt
            then r == Some(db.interactions[key]) else r.None?
    ensures var r := RedeemResult(db.codes, key, now);
            if key !in db.codes then r == Invalid
            else if db.codes[key].consumedAt.Some? then r == Replayed(db.codes[key])
            else if now < db.codes[key].expiresAt then r == Redeemed(db.codes[key]) else r == Invalid
  {
  }

  // ------------------------------------------------- what no write undoes

  predicate WriteOnce(before: Option<int>, after: Option<int>) { before.Some? ==> after == before }

  ghost predicate ParKept(r: map<string, ParRow>, r': map<string, ParRow>) {
    forall k | k in r ::
      k in r' && r'[k] == r[k].(consumedAt := r'[k].consumedAt) && WriteOnce(r[k].consumedAt, r'[k].consumedAt)
  }

  ghost predicate GrantsKept(r: map<string, GrantRow>, r': map<string, GrantRow>) {
    forall k | k in r ::
      k in r' && r'[k] == r[k].(revokedAt := r'[k].revokedAt) && WriteOnce(r[k].revokedAt, r'[k].revokedAt)
  }

  ghost predicate CodesKept(r: map<string, CodeRow>, r': map<string, CodeRow>) {
    forall k | k in r ::
      k in r' && r'[k] == r[k].(consumedAt := r'[k].consumedAt) && WriteOnce(r[k].consumedAt, r'[k].consumedAt)
  }

  ghost predicate AccessKept(r: map<string, AccessRow>, r': map<string, AccessRow>) {
    forall k | k in r ::
      k in r' && r'[k] == r[k].(revokedAt := r'[k].revokedAt) && WriteOnce(r[k].revokedAt, r'[k].revokedAt)
  }

  ghost predicate RefreshKept(r: map<string, RefreshRow>, r': map<string, RefreshRow>) {
    forall k | k in r ::
      k in r' && r'[k] == r[k].(revokedAt := r'[k].revokedAt) && WriteOnce(r[k].revokedAt, r'[k].revokedAt)
  }

  ghost predicate InteractionsKept(r: map<string, InteractionRow>, r': map<string, InteractionRow>) {
    forall k | k in r ::
      && k in r' && r'[k].clientId == r[k].clientId && r'[k].requestUri == r[k].requestUri
      && r'[k].expiresAt == r[k].expiresAt && WriteOnce(r[k].completedAt, r'[k].completedAt)
      && (r[k].completedAt.Some? ==> r'[k] == r[k])
  }

  /** Rows stay, keep what they were inserted with, and `revokedAt`, `consumedAt`
      and `completedAt` are written once. */
  ghost predicate Evolves(db: Db, db': Db) {
    && ParKept(db.par, db'.par) && GrantsKept(db.grants, db'.grants) && CodesKept(db.codes, db'.codes)
    && AccessKept(db.access, db'.access) && RefreshKept(db.refresh, db'.refresh)
    && InteractionsKept(db.interactions, db'.interactions)
  }

  lemma ParSurvives(db: Db, w: Write)
    requires Fresh(db, w)
    ensures ParKept(db.par, Apply(db, w).par)
  {
    var after := Apply(db, w).par;
    if w.TakePar? && PeekPar(db.par, w.uri, w.now).Some? {
      assert after == db.par[w.uri := db.par[w.uri].(consumedAt := Some(w.now))];
    } else if w.PutPar? {
      assert after == db.par[w.uri := w.par];
    } else {
      assert after == db.par;
    }
  }

  lemma GrantsSurvive(db: Db, w: Write)
    requires Fresh(db, w)
    ensures GrantsKept(db.grants, Apply(db, w).grants)
  {
    if !w.PutGrant? && !w.DropGrant? {
      assert Apply(db, w).grants == db.grants;
    }
  }

  lemma CodesSurvive(db: Db, w: Write)
    requires Fresh(db, w)
    ensures CodesKept(db.codes, Apply(db, w).codes)
  {
    if !w.PutCode? && !w.TakeCode? {
      assert Apply(db, w).codes == db.codes;
    }
  }

  lemma AccessSurvives(db: Db, w: Write)
    requires Fresh(db, w)
    ensures AccessKept(db.access, Apply(db, w).access)
  {
    if !w.PutAccess? && !w.DropAccess? && !w.DropAccessOf? {
      assert Apply(db, w).access == db.access;
    }
  }

  lemma RefreshSurvives(db: Db, w: Write)
    requires Fresh(db, w)
    ensures RefreshKept(db.refresh, Apply(db, w).refresh)
  {
    if !w.PutRefresh? && !w.DropRefresh? && !w.DropRefreshOf? {
      assert Apply(db, w).refresh == db.refresh;
    }
  }

  lemma InteractionsSurvive(db: Db, w: Write)
    requires Fresh(db, w)
    ensures InteractionsKept(db.interactions, Apply(db, w).interactions)
  {
    if !w.PutInteraction? && !w.Bind? && !w.Complete? {
      assert Apply(db, w).interactions == db.interactions;
    }
  }

  lemma ApplyEvolves(db: Db, w: Write)
    requires Fresh(db, w)
    ensures Evolves(db, Apply(db, w))
  {
    ParSurvives(db, w);
    GrantsSurvive(db, w);
    CodesSurvive(db, w);
    AccessSurvives(db, w);
    RefreshSurvives(db, w);
    InteractionsSurvive(db, w);
  }

  lemma EvolvesTransitive(a: Db, b: Db, c: Db)
    requires Evolves(a, b) && Evolves(b, c)
    ensures Evolves(a, c)
  {
  }
}
