/** What every interleaving keeps: each token descends from one grant, one redeemed
    code and one consumed pushed request, and never holds more than they do. */
module Provenance {
  import opened Base
  import opened AuthzRequest
  import opened Tables
  import opened Protocol
  import Text

  // -------------------------------------------------------------- invariant

  /** The request as validated now, from the stored parameters, for this client. */
  ghost predicate Stands(db: Db, a: Ask) {
    && a.uri in db.par && db.par[a.uri].clientId == a.client.clientId
    && Validate(Lift(db.par[a.uri].params), a.client) == Ok(a.request)
  }

  /** The row holds the stored form of a request that the client once had validated. */
  predicate PushedAs(row: ParRow, v: Validated, registration: Client) {
    && Sound(v, registration) && registration.clientId == row.clientId
    && row.params == PushedParams(v, row.dpopJkt)
    && (row.dpopJkt.Some? ==> WellFormedJkt(row.dpopJkt.value))
    && (v.dpopJkt.Some? ==> row.dpopJkt == v.dpopJkt)
  }

  ghost predicate ParOk(row: ParRow) { exists v, registration :: PushedAs(row, v, registration) }

  ghost predicate GrantOk(w: World, g: string) {
    && g in w.db.grants && g in w.origins
    && var row, a := w.db.grants[g], w.origins[g];
    && Stands(w.db, a) && w.db.par[a.uri].consumedAt.Some?
    && row.clientId == a.client.clientId && row.subject == a.user.sub && row.scope == a.request.scope
  }

  ghost predicate CodeOk(w: World, h: string) {
    && h in w.db.codes
    && var row := w.db.codes[h];
    && row.grantId in w.db.grants && row.grantId in w.origins
    && row.clientId == w.db.grants[row.grantId].clientId
    && var r := w.origins[row.grantId].request;
    && row.redirectUri == r.redirectUri && row.codeChallenge == r.codeChallenge && row.dpopJkt == r.dpopJkt
  }

  /** What was presented for a token: a consumed code with all its bindings met,
      or a refresh token, of this grant. */
  ghost predicate MintOk(cfg: Config, db: Db, g: string, mint: Mint) {
    match mint
    case FromCode(h, _, _, _) =>
      && h in db.codes && db.codes[h].grantId == g && db.codes[h].consumedAt.Some?
      && Redeemable(cfg, db.codes[h], db.codes[h].clientId, mint)
    case FromRefresh(h, _) => h in db.refresh && db.refresh[h].grantId == g
  }

  ghost predicate AccessOk(cfg: Config, w: World, j: string) {
    && j in w.db.access
    && var row := w.db.access[j];
    && row.grantId in w.db.grants
    && var grant := w.db.grants[row.grantId];
    && row.clientId == grant.clientId && row.subject == grant.subject
    && Text.Words(row.scope) <= Text.Words(grant.scope)
    && j in w.mints && MintOk(cfg, w.db, row.grantId, w.mints[j]) && row.cnfJkt == Some(w.mints[j].jkt)
  }

  ghost predicate RedeemedCode(db: Db, g: string, h: string) {
    h in db.codes && db.codes[h].grantId == g && db.codes[h].consumedAt.Some?
  }

  ghost predicate RefreshOk(w: World, h: string) {
    && h in w.db.refresh
    && var row := w.db.refresh[h];
    && row.grantId in w.db.grants
    && row.clientId == w.db.grants[row.grantId].clientId && row.scope == w.db.grants[row.grantId].scope
    && exists c :: RedeemedCode(w.db, row.grantId, c)
  }

  ghost predicate ClientsOk(db: Db) { forall c | c in db.clients :: db.clients[c].clientId == c }
  ghost predicate ParRowsOk(db: Db) { forall u | u in db.par :: ParOk(db.par[u]) }
  ghost predicate GrantsOk(w: World) { forall g | g in w.db.grants :: GrantOk(w, g) }
  ghost predicate CodesOk(w: World) { forall h | h in w.db.codes :: CodeOk(w, h) }
  ghost predicate AccessesOk(cfg: Config, w: World) { forall j | j in w.db.access :: AccessOk(cfg, w, j) }
  ghost predicate RefreshesOk(w: World) { forall h | h in w.db.refresh :: RefreshOk(w, h) }

  ghost predicate RowsOk(cfg: Config, w: World) {
    && ClientsOk(w.db) && ParRowsOk(w.db) && GrantsOk(w) && CodesOk(w) && AccessesOk(cfg, w) && RefreshesOk(w)
  }

  /** One grant per pushed request, and none after a refusal consumed it. */
  ghost predicate OneGrantPerRequest(w: World) {
    && (forall g, g' | g in w.origins && g' in w.origins && w.origins[g].uri == w.origins[g'].uri :: g == g')
    && (forall g | g in w.origins :: w.origins[g].uri !in w.declined)
    && (forall u | u in w.declined :: u in w.db.par && w.db.par[u].consumedAt.Some?)
  }

  ghost predicate OneCodePerGrant(db: Db) {
    forall h, h' | h in db.codes && h' in db.codes && db.codes[h].grantId == db.codes[h'].grantId :: h == h'
  }

  ghost predicate OneRefreshPerGrant(db: Db) {
    forall h, h' | h in db.refresh && h' in db.refresh && db.refresh[h].grantId == db.refresh[h'].grantId :: h == h'
  }

  ghost predicate EarnedOk(cfg: Config, w: World, e: Earned) {
    && MintOk(cfg, w.db, e.grantId, e.mint)
    && e.grantId in w.db.grants
    && var grant := w.db.grants[e.grantId];
    && e.client.clientId == grant.clientId && e.subject == grant.subject
    && Text.Words(e.scope) <= Text.Words(grant.scope)
    && (e.mint.FromCode? ==> e.scope == grant.scope)
  }

  /** What a request between two steps may rely on. */
  ghost predicate Holds(cfg: Config, w: World, p: Proc) {
    match p
    case Push(_, _, headerJkt) => headerJkt.Some? ==> WellFormedJkt(headerJkt.value)
    case Authorizing(a) => HoldsAuthorizing(w.db, a)
    case Viewing(_) => true
    case Consenting(c) => HoldsConsenting(w.db, c)
    case Issuing(i) => HoldsIssuing(w, i)
    case Redeeming(r) => HoldsRedeeming(cfg, w.db, r)
    case Refreshing(r) => HoldsRefreshing(cfg, w.db, r)
    case Minting(m) => HoldsMinting(cfg, w, m)
    case Revoking(r) => HoldsRevoking(w.db, r)
    case Done(_) => true
  }

  ghost predicate Parked(db: Db, uri: string, clientId: string, params: Params) {
    uri in db.par && db.par[uri].clientId == clientId && db.par[uri].params == params
  }

  ghost predicate HoldsAuthorizing(db: Db, a: Authorizing) {
    a.Reload? ==> Parked(db, a.uri, a.clientId, a.params)
  }

  ghost predicate HoldsConsenting(db: Db, c: Consenting) {
    && (c.Recheck? ==> Parked(db, c.row.requestUri, c.row.clientId, c.params))
    && (c.Close? ==> Stands(db, c.ask))
  }

  ghost predicate HoldsIssuing(w: World, i: Issuing) {
    match i
    case Decide(a) => Stands(w.db, a)
    case Decline(_) => true
    case Take(a) => Stands(w.db, a)
    case InsertGrant(a) => Stands(w.db, a) && w.db.par[a.uri].consumedAt.Some?
    case InsertCode(g, a, _) => GrantOk(w, g) && w.origins[g] == a
  }

  ghost predicate HoldsRedeeming(cfg: Config, db: Db, r: Redeeming) {
    && (r.FindGrant? ==>
          && r.mint.FromCode? && MintOk(cfg, db, r.codeRow.grantId, r.mint)
          && r.client.clientId == db.codes[r.mint.codeHash].clientId)
    && (r.CascadeGrant? || r.CascadeAccess? || r.CascadeRefresh? ==> r.grantId in db.grants)
  }

  ghost predicate HoldsRevoking(db: Db, r: Revoking) {
    r.CutRefresh? || r.CutRefreshAccess? ==> r.hash in db.refresh && db.refresh[r.hash].grantId == r.grantId
  }

  ghost predicate HoldsRefreshing(cfg: Config, db: Db, r: Refreshing) {
    r.CheckGrant? ==>
      && r.mint.FromRefresh? && MintOk(cfg, db, r.refreshRow.grantId, r.mint)
      && r.client.clientId == db.refresh[r.mint.refreshHash].clientId
      && r.refreshRow.scope == db.refresh[r.mint.refreshHash].scope
  }

  ghost predicate HoldsMinting(cfg: Config, w: World, m: Minting) {
    && EarnedOk(cfg, w, m.earned)
    && (m.InsertRefresh? ==> m.earned.mint.FromCode?)
    && (m.InsertAccess? && m.withRefresh ==> m.earned.mint.FromCode?)
  }

  /** What a request has won the sole right to use up. */
  datatype Claim = NoClaim | UriClaim(uri: string) | GrantClaim(grantId: string) | CodeClaim(hash: string)

  function ClaimOf(p: Proc): Claim {
    match p
    case Issuing(InsertGrant(a)) => UriClaim(a.uri)
    case Issuing(InsertCode(g, _, _)) => GrantClaim(g)
    case Redeeming(FindGrant(_, _, mint)) => if mint.FromCode? then CodeClaim(mint.codeHash) else NoClaim
    case Minting(m) => if m.earned.mint.FromCode? then CodeClaim(m.earned.mint.codeHash) else NoClaim
    case _ => NoClaim
  }

  /** Nothing has come of it yet. */
  ghost predicate Unspent(w: World, c: Claim) {
    match c
    case NoClaim => true
    case UriClaim(uri) => uri !in w.declined && forall g | g in w.origins :: w.origins[g].uri != uri
    case GrantClaim(g) => forall h | h in w.db.codes :: w.db.codes[h].grantId != g
    case CodeClaim(h) =>
      h in w.db.codes && forall r | r in w.db.refresh :: w.db.refresh[r].grantId != w.db.codes[h].grantId
  }

  /** The row behind a claim. */
  ghost predicate Backed(db: Db, c: Claim) {
    match c
    case NoClaim => true
    case UriClaim(uri) => uri in db.par && db.par[uri].consumedAt.Some?
    case GrantClaim(g) => g in db.grants
    case CodeClaim(h) => h in db.codes && db.codes[h].consumedAt.Some?
  }

  ghost predicate AllHold(cfg: Config, w: World) { forall t | t in w.procs :: Holds(cfg, w, w.procs[t]) }

  ghost predicate ClaimsOk(w: World) {
    && (forall t | t in w.procs :: Unspent(w, ClaimOf(w.procs[t])))
    && (forall t, t' | t in w.procs && t' in w.procs && t != t' && ClaimOf(w.procs[t]) != NoClaim ::
          ClaimOf(w.procs[t]) != ClaimOf(w.procs[t']))
  }

  ghost predicate Inv(cfg: Config, w: World) {
    && RowsOk(cfg, w) && AllHold(cfg, w) && ClaimsOk(w)
    && w.origins.Keys == w.db.grants.Keys && w.mints.Keys == w.db.access.Keys
    && OneGrantPerRequest(w) && OneCodePerGrant(w.db) && OneRefreshPerGrant(w.db)
  }

  // -------------------------------------------------------------- stability

  /** The storage evolves and the history only grows. */
  ghost predicate Grows(w: World, w': World) {
    && Evolves(w.db, w'.db)
    && (forall g | g in w.origins :: g in w'.origins && w'.origins[g] == w.origins[g])
    && (forall j | j in w.mints :: j in w'.mints && w'.mints[j] == w.mints[j])
  }

  lemma StandsKept(db: Db, db': Db, a: Ask)
    requires ParKept(db.par, db'.par) && Stands(db, a)
    ensures Stands(db', a) && (db.par[a.uri].consumedAt.Some? ==> db'.par[a.uri].consumedAt.Some?)
  {
  }

  lemma MintOkKept(cfg: Config, db: Db, db': Db, g: string, mint: Mint)
    requires CodesKept(db.codes, db'.codes) && RefreshKept(db.refresh, db'.refresh) && MintOk(cfg, db, g, mint)
    ensures MintOk(cfg, db', g, mint)
  {
  }

  lemma GrantOkKept(w: World, w': World, g: string)
    requires Grows(w, w') && GrantOk(w, g)
    ensures GrantOk(w', g)
  {
    StandsKept(w.db, w'.db, w.origins[g]);
  }

  lemma CodeOkKept(w: World, w': World, h: string)
    requires Grows(w, w') && CodeOk(w, h)
    ensures CodeOk(w', h)
  {
  }

  lemma AccessOkKept(cfg: Config, w: World, w': World, j: string)
    requires Grows(w, w') && AccessOk(cfg, w, j)
    ensures AccessOk(cfg, w', j)
  {
    MintOkKept(cfg, w.db, w'.db, w.db.access[j].grantId, w.mints[j]);
  }

  lemma RefreshOkKept(w: World, w': World, h: string)
    requires Grows(w, w') && RefreshOk(w, h)
    ensures RefreshOk(w', h)
  {
    var c :| RedeemedCode(w.db, w.db.refresh[h].grantId, c);
    assert RedeemedCode(w'.db, w.db.refresh[h].grantId, c);
  }

  lemma ParOkKept(r: map<string, ParRow>, r': map<string, ParRow>, u: string)
    requires ParKept(r, r') && u in r && ParOk(r[u])
    ensures ParOk(r'[u])
  {
    var v, registration :| PushedAs(r[u], v, registration);
    assert PushedAs(r'[u], v, registration);
  }

  lemma EarnedOkKept(cfg: Config, w: World, w': World, e: Earned)
    requires Grows(w, w') && EarnedOk(cfg, w, e)
    ensures EarnedOk(cfg, w', e)
  {
    MintOkKept(cfg, w.db, w'.db, e.grantId, e.mint);
  }

  lemma HoldsKept(cfg: Config, w: World, w': World, p: Proc)
    requires Grows(w, w') && Holds(cfg, w, p)
    ensures Holds(cfg, w', p)
  {
    match p
    case Consenting(c) => if c.Close? { StandsKept(w.db, w'.db, c.ask); }
    case Issuing(i) =>
      if i.InsertCode? { GrantOkKept(w, w', i.grantId); } else if !i.Decline? { StandsKept(w.db, w'.db, i.ask); }
    case Redeeming(r) => if r.FindGrant? { MintOkKept(cfg, w.db, w'.db, r.codeRow.grantId, r.mint); }
    case Refreshing(r) => if r.CheckGrant? { MintOkKept(cfg, w.db, w'.db, r.refreshRow.grantId, r.mint); }
    case Minting(m) => EarnedOkKept(cfg, w, w', m.earned);
    case _ =>
  }

  // ------------------------------------------------------------- one step

  /** The parts of the world after a step. */
  lemma CommitParts(w: World, t: nat, f: Effect)
    ensures Commit(w, t, f).db == Apply(w.db, f.write) && Commit(w, t, f).procs == w.procs[t := f.next]
    ensures Commit(w, t, f).origins == if f.note.Granted? then w.origins[f.note.grantId := f.note.ask] else w.origins
    ensures Commit(w, t, f).mints == if f.note.Minted? then w.mints[f.note.jti := f.note.mint] else w.mints
    ensures Commit(w, t, f).declined == if f.note.DeclinedUri? then w.declined + {f.note.uri} else w.declined
  {
  }

  /** Only the write's own key is new. */
  lemma KeysAfter(db: Db, w: Write)
    ensures var db' := Apply(db, w);
            && db'.par.Keys == db.par.Keys + (if w.PutPar? then {w.uri} else {})
            && db'.grants.Keys == db.grants.Keys + (if w.PutGrant? then {w.id} else {})
            && db'.codes.Keys == db.codes.Keys + (if w.PutCode? then {w.hash} else {})
            && db'.access.Keys == db.access.Keys + (if w.PutAccess? then {w.jti} else {})
            && db'.refresh.Keys == db.refresh.Keys + (if w.PutRefresh? then {w.hash} else {})
            && (!w.PutClient? ==> db'.clients == db.clients)
  {
  }

  lemma CommitGrows(w: World, t: nat, p: Proc, f: Effect)
    requires w.origins.Keys == w.db.grants.Keys && w.mints.Keys == w.db.access.Keys
    requires Lawful(p, f) && Fresh(w.db, f.write)
    ensures Grows(w, Commit(w, t, f))
  {
    ApplyEvolves(w.db, f.write);
    hide Evolves, Apply, Commit, Record;
    CommitParts(w, t, f);
  }

  lemma CommitKeys(w: World, t: nat, p: Proc, f: Effect)
    requires w.origins.Keys == w.db.grants.Keys && w.mints.Keys == w.db.access.Keys && Lawful(p, f)
    ensures Commit(w, t, f).origins.Keys == Commit(w, t, f).db.grants.Keys
    ensures Commit(w, t, f).mints.Keys == Commit(w, t, f).db.access.Keys
  {
    hide Apply, Commit, Record;
    CommitParts(w, t, f);
    KeysAfter(w.db, f.write);
  }

  lemma AuthorizeHolds(cfg: Config, w: World, p: Authorizing, input: Input)
    requires ClientsOk(w.db) && HoldsAuthorizing(w.db, p)
    ensures Holds(cfg, w, AuthorizeStep(cfg, w.db, p, input).next)
  {
  }

  lemma ConsentHolds(cfg: Config, w: World, p: Consenting, input: Input)
    requires ClientsOk(w.db) && HoldsConsenting(w.db, p)
    ensures Holds(cfg, w, ConsentStep(w.db, p, input).next)
  {
  }

  lemma IssueHolds(cfg: Config, w: World, t: nat, p: Issuing, input: Input)
    requires HoldsIssuing(w, p) && w.origins.Keys == w.db.grants.Keys
    requires Fresh(w.db, IssueStep(cfg, w.db, p, input).write)
    ensures var f := IssueStep(cfg, w.db, p, input); Holds(cfg, Commit(w, t, f), f.next)
  {
    var f := IssueStep(cfg, w.db, p, input);
    CommitParts(w, t, f);
    if p.Take? {
      ParSurvives(w.db, f.write);
    }
  }

  lemma RedeemHolds(cfg: Config, w: World, t: nat, p: Redeeming, input: Input)
    requires HoldsRedeeming(cfg, w.db, p) && (p.FindGrant? ==> CodeOk(w, p.mint.codeHash))
    requires p.Present? && cfg.sha(p.code) in w.db.codes ==> w.db.codes[cfg.sha(p.code)].grantId in w.db.grants
    ensures var f := RedeemStep(cfg, w.db, p, input); Holds(cfg, Commit(w, t, f), f.next)
  {
    CommitParts(w, t, RedeemStep(cfg, w.db, p, input));
  }

  lemma RefreshHolds(cfg: Config, w: World, p: Refreshing, input: Input)
    requires HoldsRefreshing(cfg, w.db, p) && (p.CheckGrant? ==> RefreshOk(w, p.mint.refreshHash))
    ensures Holds(cfg, w, RefreshStep(cfg, w.db, p, input).next)
  {
  }

  lemma MintHolds(cfg: Config, w: World, p: Minting, input: Input)
    requires HoldsMinting(cfg, w, p)
    ensures Holds(cfg, w, MintStep(cfg, p, input).next)
  {
  }

  /** The acting request finds what it needs in the place it reaches. */
  lemma NextHolds(cfg: Config, w: World, t: nat, p: Proc, f: Effect, input: Input)
    requires ClientsOk(w.db) && CodesOk(w) && RefreshesOk(w) && Holds(cfg, w, p)
    requires !p.Done? && f == Act(cfg, w.db, p, input)
    requires Fresh(w.db, f.write) && w.origins.Keys == w.db.grants.Keys && Grows(w, Commit(w, t, f))
    ensures Holds(cfg, Commit(w, t, f), f.next)
  {
    hide Commit, Grows, Fresh, CodeOk, RefreshOk, HoldsIssuing, HoldsMinting, HoldsAuthorizing, HoldsConsenting,
         AuthorizeStep, ViewStep, ConsentStep, IssueStep, RefreshStep, MintStep, RevokeStep, RedeemStep, HoldsRevoking;
    var w' := Commit(w, t, f);
    match p
    case Push(client, body, headerJkt) =>
    case Issuing(i) => IssueHolds(cfg, w, t, i, input);
    case Redeeming(r) =>
      if r.Present? && cfg.sha(r.code) in w.db.codes { CodeOfGrant(w, cfg.sha(r.code)); }
      RedeemHolds(cfg, w, t, r, input);
    case Authorizing(a) =>
      AuthorizeHolds(cfg, w, a, input);
      HoldsKept(cfg, w, w', f.next);
    case Viewing(v) => ViewHolds(cfg, w', w.db, v, input);
    case Consenting(c) =>
      ConsentHolds(cfg, w, c, input);
      HoldsKept(cfg, w, w', f.next);
    case Refreshing(r) =>
      RefreshHolds(cfg, w, r, input);
      HoldsKept(cfg, w, w', f.next);
    case Minting(m) =>
      MintHolds(cfg, w, m, input);
      HoldsKept(cfg, w, w', f.next);
    case Revoking(r) =>
      RevokeHolds(cfg, w, r, input);
      HoldsKept(cfg, w, w', f.next);
  }

  lemma ViewHolds(cfg: Config, w: World, db: Db, p: Viewing, input: Input)
    ensures Holds(cfg, w, ViewStep(db, p, input).next)
  {
  }

  lemma RevokeHolds(cfg: Config, w: World, p: Revoking, input: Input)
    requires HoldsRevoking(w.db, p)
    ensures Holds(cfg, w, RevokeStep(cfg, w.db, p, input).next)
  {
  }

  lemma CodeOfGrant(w: World, h: string)
    requires CodesOk(w) && h in w.db.codes
    ensures w.db.codes[h].grantId in w.db.grants
  {
    assert CodeOk(w, h);
  }

  // ------------------------------------------------------------- new rows

  lemma PushedParOk(cfg: Config, client: Client, body: Body, headerJkt: Option<string>, input: Input)
    requires headerJkt.Some? ==> WellFormedJkt(headerJkt.value)
    requires PushStep(cfg, client, body, headerJkt, input).write.PutPar?
    ensures ParOk(PushStep(cfg, client, body, headerJkt, input).write.par)
  {
    SoundParts(body, client);
    assert PushedAs(PushStep(cfg, client, body, headerJkt, input).write.par, Validate(body, client).value, client);
  }

  lemma NewCodeOk(cfg: Config, w: World, t: nat, p: Issuing, input: Input)
    requires p.InsertCode? && HoldsIssuing(w, p)
    ensures CodeOk(Commit(w, t, IssueStep(cfg, w.db, p, input)), cfg.sha(input.random))
  {
    CommitParts(w, t, IssueStep(cfg, w.db, p, input));
  }

  lemma NewAccessOk(cfg: Config, w: World, t: nat, p: Minting, input: Input)
    requires p.InsertAccess? && HoldsMinting(cfg, w, p)
    ensures AccessOk(cfg, Commit(w, t, MintStep(cfg, p, input)), input.random)
  {
    CommitParts(w, t, MintStep(cfg, p, input));
  }

  lemma NewRefreshOk(cfg: Config, w: World, t: nat, p: Minting, input: Input)
    requires p.InsertRefresh? && HoldsMinting(cfg, w, p)
    ensures RefreshOk(Commit(w, t, MintStep(cfg, p, input)), cfg.sha(input.random))
  {
    CommitParts(w, t, MintStep(cfg, p, input));
    assert RedeemedCode(Commit(w, t, MintStep(cfg, p, input)).db, p.earned.grantId, p.earned.mint.codeHash);
  }

  lemma ParRowsKept(cfg: Config, w: World, t: nat, p: Proc, f: Effect, input: Input)
    requires ParRowsOk(w.db) && Holds(cfg, w, p) && !p.Done? && f == Act(cfg, w.db, p, input) && Fresh(w.db, f.write)
    ensures ParRowsOk(Commit(w, t, f).db)
  {
    CommitParts(w, t, f);
    KeysAfter(w.db, f.write);
    ParSurvives(w.db, f.write);
    var rows := Apply(w.db, f.write).par;
    forall u | u in rows ensures ParOk(rows[u]) {
      if u in w.db.par {
        ParOkKept(w.db.par, rows, u);
      } else {
        PushedParOk(cfg, p.client, p.body, p.headerJkt, input);
      }
    }
  }

  lemma GrantRowsKept(cfg: Config, w: World, t: nat, p: Proc, f: Effect, input: Input)
    requires GrantsOk(w) && Holds(cfg, w, p) && !p.Done? && f == Act(cfg, w.db, p, input) && Fresh(w.db, f.write)
    requires Grows(w, Commit(w, t, f)) && w.origins.Keys == w.db.grants.Keys
    ensures GrantsOk(Commit(w, t, f))
  {
    var w' := Commit(w, t, f);
    CommitParts(w, t, f);
    KeysAfter(w.db, f.write);
    forall g | g in w'.db.grants ensures GrantOk(w', g) {
      if g in w.db.grants {
        GrantOkKept(w, w', g);
      } else {
        IssueHolds(cfg, w, t, p.issuing, input);
      }
    }
  }

  lemma CodeRowsKept(cfg: Config, w: World, t: nat, p: Proc, f: Effect, input: Input)
    requires CodesOk(w) && Holds(cfg, w, p) && !p.Done? && f == Act(cfg, w.db, p, input)
    requires Grows(w, Commit(w, t, f))
    ensures CodesOk(Commit(w, t, f))
  {
    var w' := Commit(w, t, f);
    CommitParts(w, t, f);
    KeysAfter(w.db, f.write);
    forall h | h in w'.db.codes ensures CodeOk(w', h) {
      if h in w.db.codes {
        CodeOkKept(w, w', h);
      } else {
        NewCodeOk(cfg, w, t, p.issuing, input);
      }
    }
  }

  lemma AccessRowsKept(cfg: Config, w: World, t: nat, p: Proc, f: Effect, input: Input)
    requires AccessesOk(cfg, w) && Holds(cfg, w, p) && !p.Done? && f == Act(cfg, w.db, p, input)
    requires Grows(w, Commit(w, t, f))
    ensures AccessesOk(cfg, Commit(w, t, f))
  {
    var w' := Commit(w, t, f);
    CommitParts(w, t, f);
    KeysAfter(w.db, f.write);
    forall j | j in w'.db.access ensures AccessOk(cfg, w', j) {
      if j in w.db.access {
        AccessOkKept(cfg, w, w', j);
      } else {
        NewAccessOk(cfg, w, t, p.minting, input);
      }
    }
  }

  lemma RefreshRowsKept(cfg: Config, w: World, t: nat, p: Proc, f: Effect, input: Input)
    requires RefreshesOk(w) && Holds(cfg, w, p) && !p.Done? && f == Act(cfg, w.db, p, input)
    requires Grows(w, Commit(w, t, f))
    ensures RefreshesOk(Commit(w, t, f))
  {
    var w' := Commit(w, t, f);
    CommitParts(w, t, f);
    KeysAfter(w.db, f.write);
    forall h | h in w'.db.refresh ensures RefreshOk(w', h) {
      if h in w.db.refresh {
        RefreshOkKept(w, w', h);
      } else {
        NewRefreshOk(cfg, w, t, p.minting, input);
      }
    }
  }

  // ---------------------------------------------------------------- claims

  /** A step keeps the claim it had, drops it, or wins one by its own write. */
  predicate Gains(db: Db, had: Claim, f: Effect) {
    var c := ClaimOf(f.next);
    || c == had
    || (match c
        case NoClaim => true
        case UriClaim(u) =>
          f.write.TakePar? && f.write.uri == u && PeekPar(db.par, u, f.write.now).Some? && f.note.Quiet?
        case GrantClaim(g) => f.write.PutGrant? && f.write.id == g
        case CodeClaim(h) => f.write.TakeCode? && f.write.hash == h && RedeemResult(db.codes, h, f.write.now).Redeemed?)
  }

  /** What a claim is for is done only by its holder, who then no longer has it. */
  predicate Spends(db: Db, had: Claim, f: Effect) {
    && (f.note.DeclinedUri? ==>
          f.write.TakePar? && f.write.uri == f.note.uri && PeekPar(db.par, f.note.uri, f.write.now).Some?)
    && (f.note.Granted? ==> had == UriClaim(f.note.ask.uri) && ClaimOf(f.next) != had)
    && (f.write.PutCode? ==> had == GrantClaim(f.write.code.grantId) && ClaimOf(f.next) != had)
    && (f.write.PutRefresh? ==>
          && had.CodeClaim? && had.hash in db.codes && db.codes[had.hash].grantId == f.write.refresh.grantId
          && ClaimOf(f.next) != had)
  }

  lemma ActTrades(cfg: Config, w: World, p: Proc, f: Effect, input: Input)
    requires !p.Done? && f == Act(cfg, w.db, p, input) && Holds(cfg, w, p)
    ensures Gains(w.db, ClaimOf(p), f) && Spends(w.db, ClaimOf(p), f)
  {
    hide Lawful, IssueStep, RedeemStep, MintStep, EarnedOk, Gains, Spends;
    match p
    case Issuing(i) => IssueTrades(cfg, w.db, i, input);
    case Redeeming(r) => RedeemTrades(cfg, w.db, r, input);
    case Minting(m) => MintTrades(cfg, w, m, input);
    case _ => NothingTraded(cfg, w.db, p, f, input);
  }

  lemma IssueTrades(cfg: Config, db: Db, p: Issuing, input: Input)
    ensures var f, had := IssueStep(cfg, db, p, input), ClaimOf(Issuing(p)); Gains(db, had, f) && Spends(db, had, f)
  {
    hide Lawful;
  }

  lemma RedeemTrades(cfg: Config, db: Db, p: Redeeming, input: Input)
    ensures var f, had := RedeemStep(cfg, db, p, input), ClaimOf(Redeeming(p)); Gains(db, had, f) && Spends(db, had, f)
  {
    hide Lawful;
  }

  lemma MintTrades(cfg: Config, w: World, p: Minting, input: Input)
    requires HoldsMinting(cfg, w, p)
    ensures var f, had := MintStep(cfg, p, input), ClaimOf(Minting(p)); Gains(w.db, had, f) && Spends(w.db, had, f)
  {
    hide Lawful;
  }

  lemma NothingTraded(cfg: Config, db: Db, p: Proc, f: Effect, input: Input)
    requires !p.Done? && !p.Issuing? && !p.Redeeming? && !p.Minting? && f == Act(cfg, db, p, input)
    requires p.Refreshing? && p.refreshing.CheckGrant? ==> p.refreshing.mint.FromRefresh?
    ensures ClaimOf(f.next) == NoClaim && f.note == Quiet && !f.write.PutCode? && !f.write.PutRefresh?
    ensures Gains(db, ClaimOf(p), f) && Spends(db, ClaimOf(p), f)
  {
  }

  lemma HoldsBacked(cfg: Config, w: World, p: Proc)
    requires Holds(cfg, w, p)
    ensures Backed(w.db, ClaimOf(p))
  {
  }

  /** Claims that are not the ones used up stay good. */
  lemma UnspentKept(w: World, t: nat, f: Effect, had: Claim, c: Claim)
    requires Spends(w.db, had, f) && Fresh(w.db, f.write) && OneCodePerGrant(w.db)
    requires Unspent(w, c) && Backed(w.db, c) && (c != had || c == ClaimOf(f.next))
    ensures Unspent(Commit(w, t, f), c)
  {
    hide Commit, Record;
    CommitParts(w, t, f);
    CodesSurvive(w.db, f.write);
    KeysAfter(w.db, f.write);
    RefreshSurvives(w.db, f.write);
  }

  /** A request that is not consumed yet has neither a grant nor a refusal. */
  lemma FreeUri(w: World, uri: string)
    requires GrantsOk(w) && w.origins.Keys == w.db.grants.Keys && OneGrantPerRequest(w)
    requires uri in w.db.par && w.db.par[uri].consumedAt.None?
    ensures Unspent(w, UriClaim(uri))
  {
    forall g | g in w.origins ensures w.origins[g].uri != uri {
      assert GrantOk(w, g);
    }
  }

  /** A code that is not redeemed yet has no refresh token. */
  lemma FreeCode(w: World, hash: string)
    requires RefreshesOk(w) && OneCodePerGrant(w.db)
    requires hash in w.db.codes && w.db.codes[hash].consumedAt.None?
    ensures Unspent(w, CodeClaim(hash))
  {
    forall r | r in w.db.refresh ensures w.db.refresh[r].grantId != w.db.codes[hash].grantId {
      assert RefreshOk(w, r);
      var h :| RedeemedCode(w.db, w.db.refresh[r].grantId, h);
    }
  }

  lemma FreeGrant(w: World, g: string)
    requires CodesOk(w) && g !in w.db.grants
    ensures Unspent(w, GrantClaim(g))
  {
    forall h | h in w.db.codes ensures w.db.codes[h].grantId != g {
      assert CodeOk(w, h);
    }
  }

  lemma GainedUnspent(cfg: Config, w: World, t: nat, f: Effect, had: Claim)
    requires Inv(cfg, w) && Gains(w.db, had, f) && Fresh(w.db, f.write) && ClaimOf(f.next) != had
    ensures Unspent(Commit(w, t, f), ClaimOf(f.next))
  {
    hide Commit, Record, ParOk, GrantOk, CodeOk, AccessOk, RefreshOk, Holds, OneGrantPerRequest, OneCodePerGrant,
         OneRefreshPerGrant, ClaimsOk;
    CommitParts(w, t, f);
    match ClaimOf(f.next)
    case NoClaim =>
    case UriClaim(u) => FreeUri(w, u);
    case GrantClaim(g) => FreeGrant(w, g);
    case CodeClaim(h) => FreeCode(w, h);
  }

  /** A claim just won is nobody else's. */
  lemma GainedIsNew(db: Db, f: Effect, had: Claim, other: Claim)
    requires Gains(db, had, f) && Fresh(db, f.write) && ClaimOf(f.next) != had && ClaimOf(f.next) != NoClaim
    requires Backed(db, other)
    ensures ClaimOf(f.next) != other
  {
  }

  lemma ClaimsKept(cfg: Config, w: World, t: nat, p: Proc, f: Effect, input: Input)
    requires Inv(cfg, w) && t in w.procs && w.procs[t] == p
    requires Gains(w.db, ClaimOf(p), f) && Spends(w.db, ClaimOf(p), f) && Fresh(w.db, f.write)
    ensures ClaimsOk(Commit(w, t, f))
  {
    hide RowsOk, OneRefreshPerGrant, Gains, Spends, Fresh, Commit, Record, Holds, Unspent, Backed, ClaimOf;
    var w', had, c := Commit(w, t, f), ClaimOf(p), ClaimOf(f.next);
    CommitParts(w, t, f);
    if c == had {
      HoldsBacked(cfg, w, p);
      UnspentKept(w, t, f, had, c);
    } else {
      GainedUnspent(cfg, w, t, f, had);
    }
    forall u | u in w.procs && u != t
      ensures Unspent(w', ClaimOf(w.procs[u])) && (c != NoClaim ==> ClaimOf(w.procs[u]) != c)
    {
      HoldsBacked(cfg, w, w.procs[u]);
      OtherClaim(w, t, f, had, ClaimOf(w.procs[u]));
    }
  }

  lemma OtherClaim(w: World, t: nat, f: Effect, had: Claim, other: Claim)
    requires Gains(w.db, had, f) && Spends(w.db, had, f) && Fresh(w.db, f.write) && OneCodePerGrant(w.db)
    requires Unspent(w, other) && Backed(w.db, other) && (had != NoClaim ==> other != had)
    ensures Unspent(Commit(w, t, f), other)
    ensures ClaimOf(f.next) != NoClaim ==> other != ClaimOf(f.next)
  {
    hide Commit, Gains, Spends, Fresh, Unspent, Backed, ClaimOf, OneCodePerGrant;
    if other == NoClaim {
      NoClaimUnspent(Commit(w, t, f));
    } else {
      UnspentKept(w, t, f, had, other);
    }
    if ClaimOf(f.next) != had && ClaimOf(f.next) != NoClaim {
      GainedIsNew(w.db, f, had, other);
    }
  }

  lemma NoClaimUnspent(w: World)
    ensures Unspent(w, NoClaim)
  {
  }

  lemma OneGrantKept(w: World, t: nat, f: Effect, had: Claim)
    requires OneGrantPerRequest(w) && Unspent(w, had) && Backed(w.db, had) && Spends(w.db, had, f)
    requires Fresh(w.db, f.write)
    requires GrantsOk(w) && w.origins.Keys == w.db.grants.Keys
    requires f.note.Granted? ==> f.write.PutGrant? && f.write.id == f.note.grantId
    ensures OneGrantPerRequest(Commit(w, t, f))
  {
    hide Commit, Record, GrantOk;
    CommitParts(w, t, f);
    ParSurvives(w.db, f.write);
    if f.note.DeclinedUri? {
      FreeUri(w, f.note.uri);
    }
  }

  lemma OneCodeKept(w: World, t: nat, f: Effect, had: Claim)
    requires OneCodePerGrant(w.db) && Unspent(w, had) && Spends(w.db, had, f) && Fresh(w.db, f.write)
    ensures OneCodePerGrant(Commit(w, t, f).db)
  {
    hide Commit, Record;
    CommitParts(w, t, f);
    CodesSurvive(w.db, f.write);
    KeysAfter(w.db, f.write);
  }

  lemma OneRefreshKept(w: World, t: nat, f: Effect, had: Claim)
    requires OneRefreshPerGrant(w.db) && Unspent(w, had) && Spends(w.db, had, f) && Fresh(w.db, f.write)
    ensures OneRefreshPerGrant(Commit(w, t, f).db)
  {
    hide Commit, Record;
    CommitParts(w, t, f);
    RefreshSurvives(w.db, f.write);
    KeysAfter(w.db, f.write);
  }

  // ---------------------------------------------------------- every event

  lemma AllHoldKept(cfg: Config, w: World, t: nat, p: Proc, f: Effect, input: Input)
    requires RowsOk(cfg, w) && AllHold(cfg, w) && t in w.procs && w.procs[t] == p && !p.Done?
    requires f == Act(cfg, w.db, p, input) && Fresh(w.db, f.write)
    requires w.origins.Keys == w.db.grants.Keys && Grows(w, Commit(w, t, f))
    ensures AllHold(cfg, Commit(w, t, f))
  {
    hide Commit, Record, Holds, Act, Grows, Fresh, ParOk, GrantOk, CodeOk, AccessOk, RefreshOk;
    var w' := Commit(w, t, f);
    CommitParts(w, t, f);
    NextHolds(cfg, w, t, p, f, input);
    forall u | u in w'.procs && u != t ensures Holds(cfg, w', w'.procs[u]) {
      HoldsKept(cfg, w, w', w.procs[u]);
    }
  }

  lemma RowsKept(cfg: Config, w: World, t: nat, p: Proc, f: Effect, input: Input)
    requires RowsOk(cfg, w) && Holds(cfg, w, p) && !p.Done?
    requires f == Act(cfg, w.db, p, input) && Fresh(w.db, f.write)
    requires w.origins.Keys == w.db.grants.Keys && Grows(w, Commit(w, t, f))
    ensures RowsOk(cfg, Commit(w, t, f))
  {
    hide Commit, Record, Holds, Act, Grows, Fresh, ParRowsOk, GrantsOk, CodesOk, AccessesOk, RefreshesOk;
    CommitParts(w, t, f);
    assert ClientsOk(Commit(w, t, f).db) by { KeysAfter(w.db, f.write); }
    ParRowsKept(cfg, w, t, p, f, input);
    GrantRowsKept(cfg, w, t, p, f, input);
    CodeRowsKept(cfg, w, t, p, f, input);
    AccessRowsKept(cfg, w, t, p, f, input);
    RefreshRowsKept(cfg, w, t, p, f, input);
  }

  lemma StepKeeps(cfg: Config, w: World, t: nat, input: Input)
    requires Inv(cfg, w) && t in w.procs && !w.procs[t].Done?
    requires Fresh(w.db, Act(cfg, w.db, w.procs[t], input).write)
    ensures Inv(cfg, Commit(w, t, Act(cfg, w.db, w.procs[t], input)))
  {
    hide Commit, Holds, Act, Grows, Fresh, RowsOk, ClaimsOk, OneGrantPerRequest, OneCodePerGrant, OneRefreshPerGrant,
         Gains, Spends, Unspent, Backed, ClaimOf;
    var p := w.procs[t];
    var f := Act(cfg, w.db, p, input);
    assert Unspent(w, ClaimOf(p)) && GrantsOk(w) by { hide *; UnspentIn(w, t); GrantsIn(cfg, w); }
    CommitGrows(w, t, p, f);
    CommitKeys(w, t, p, f);
    RowsKept(cfg, w, t, p, f, input);
    AllHoldKept(cfg, w, t, p, f, input);
    ActTrades(cfg, w, p, f, input);
    ClaimsKept(cfg, w, t, p, f, input);
    HoldsBacked(cfg, w, p);
    OneGrantKept(w, t, f, ClaimOf(p));
    OneCodeKept(w, t, f, ClaimOf(p));
    OneRefreshKept(w, t, f, ClaimOf(p));
  }

  lemma UnspentIn(w: World, t: nat)
    requires ClaimsOk(w) && t in w.procs
    ensures Unspent(w, ClaimOf(w.procs[t]))
  {
    hide Unspent, ClaimOf;
  }

  lemma GrantsIn(cfg: Config, w: World)
    requires RowsOk(cfg, w)
    ensures GrantsOk(w)
  {
    hide GrantsOk, ParRowsOk, CodesOk, AccessesOk, RefreshesOk;
  }

  /** Only the requests under way and the registered clients differ. */
  predicate SameRows(w: World, w': World) {
    && w'.db == w.db.(clients := w'.db.clients)
    && w'.origins == w.origins && w'.declined == w.declined && w'.mints == w.mints
  }

  lemma SameGrows(w: World, w': World)
    requires SameRows(w, w')
    ensures Grows(w, w')
  {
  }

  lemma RowsSame(cfg: Config, w: World, w': World)
    requires RowsOk(cfg, w) && SameRows(w, w') && ClientsOk(w'.db)
    ensures RowsOk(cfg, w')
  {
    hide ParOk, GrantOk, CodeOk, AccessOk, RefreshOk, Grows;
    SameGrows(w, w');
    forall g | g in w.db.grants ensures GrantOk(w', g) { GrantOkKept(w, w', g); }
    forall h | h in w.db.codes ensures CodeOk(w', h) { CodeOkKept(w, w', h); }
    forall j | j in w.db.access ensures AccessOk(cfg, w', j) { AccessOkKept(cfg, w, w', j); }
    forall h | h in w.db.refresh ensures RefreshOk(w', h) { RefreshOkKept(w, w', h); }
  }

  lemma UnspentSame(w: World, w': World, c: Claim)
    requires SameRows(w, w') && Unspent(w, c)
    ensures Unspent(w', c)
  {
  }

  /** A request that enters, ends or dies claims nothing and relies on nothing new. */
  lemma ReplaceKeeps(cfg: Config, w: World, w': World, t: nat, p: Proc)
    requires Inv(cfg, w) && w' == w.(procs := w.procs[t := p])
    requires Holds(cfg, w, p) && ClaimOf(p) == NoClaim
    ensures Inv(cfg, w')
  {
    hide Holds, Unspent, ClaimOf, RowsOk, Grows, OneCodePerGrant, OneRefreshPerGrant;
    SameGrows(w, w');
    forall u | u in w'.procs ensures Holds(cfg, w', w'.procs[u]) && Unspent(w', ClaimOf(w'.procs[u])) {
      HoldsKept(cfg, w, w', w'.procs[u]);
      if u == t { NoClaimUnspent(w'); } else { UnspentSame(w, w', ClaimOf(w.procs[u])); }
    }
    assert ClientsOk(w'.db) by { ClientsIn(cfg, w); }
    RowsSame(cfg, w, w');
  }

  lemma ClientsIn(cfg: Config, w: World)
    requires RowsOk(cfg, w)
    ensures ClientsOk(w.db)
  {
    hide ClientsOk, ParRowsOk, GrantsOk, CodesOk, AccessesOk, RefreshesOk;
  }

  lemma RegisterKeeps(cfg: Config, w: World, w': World, c: Client)
    requires Inv(cfg, w) && w' == w.(db := Apply(w.db, PutClient(c)))
    ensures Inv(cfg, w')
  {
    hide Holds, Unspent, ClaimOf, RowsOk, Grows;
    SameGrows(w, w');
    forall u | u in w'.procs ensures Holds(cfg, w', w'.procs[u]) && Unspent(w', ClaimOf(w'.procs[u])) {
      HoldsKept(cfg, w, w', w'.procs[u]);
      UnspentSame(w, w', ClaimOf(w.procs[u]));
    }
    assert ClientsOk(w'.db) by { ClientsIn(cfg, w); }
    RowsSame(cfg, w, w');
  }

  lemma InvKept(cfg: Config, w: World, e: Event)
    requires Inv(cfg, w) && Legal(cfg, w, e)
    ensures Inv(cfg, After(cfg, w, e))
  {
    hide Inv, Act, Fresh, Commit;
    match e
    case Start(t, p) => ReplaceKeeps(cfg, w, After(cfg, w, e), t, p);
    case Step(t, input) => StepKeeps(cfg, w, t, input);
    case Crash(t) => ReplaceKeeps(cfg, w, After(cfg, w, e), t, Done(Crashed));
    case Register(c) => RegisterKeeps(cfg, w, After(cfg, w, e), c);
  }

  lemma InitialInv(cfg: Config, w: World)
    requires Initial(w)
    ensures Inv(cfg, w)
  {
  }

  /** The invariant holds in every world of every run. */
  lemma {:induction false} RunInv(cfg: Config, worlds: seq<World>, events: seq<Event>, i: nat)
    requires Run(cfg, worlds, events) && i < |worlds|
    ensures Inv(cfg, worlds[i])
  {
    hide Inv, Legal, After, Initial;
    if i == 0 {
      InitialInv(cfg, worlds[0]);
    } else {
      RunInv(cfg, worlds, events, i - 1);
      InvKept(cfg, worlds[i - 1], events[i - 1]);
    }
  }
}
