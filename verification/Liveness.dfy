/** Token lookup, introspection (RFC 7662) and the userinfo resource, and the death
    of tokens over whole runs. */
module Liveness {
  import opened Base
  import opened Tables
  import Dpop
  import Mac
  import P = Protocol
  import Descent
  import GrantEnd
  import ReplayStore

  /** A JWS that the key named `kid` verifies, of this issuer and type. */
  datatype Jws = Jws(kid: string, jti: Option<string>)

  /** What a caller presents: any text, which may be such a JWS. */
  datatype Token = Token(text: string, jws: Option<Jws>)

  datatype Resolved = AccessToken(jti: string, access: AccessRow) | RefreshToken(hash: string, refresh: RefreshRow)

  function FindAccessToken(db: Db, keys: set<string>, token: Token): Option<Resolved> {
    if token.jws.None? || token.jws.value.kid !in keys || token.jws.value.jti.None? then None
    else
      var jti := token.jws.value.jti.value;
      if jti in db.access then Some(AccessToken(jti, db.access[jti])) else None
  }

  function FindRefreshToken(cfg: P.Config, db: Db, token: Token): Option<Resolved> {
    var hash := cfg.sha(token.text);
    if hash in db.refresh then Some(RefreshToken(hash, db.refresh[hash])) else None
  }

  function Order(hint: Option<string>): seq<P.Finder> {
    if hint == Some("refresh_token") then [P.RefreshFinder, P.AccessFinder] else [P.AccessFinder, P.RefreshFinder]
  }

  /** The hint decides only between two records that both match. */
  function Resolve(cfg: P.Config, db: Db, keys: set<string>, token: Token, hint: Option<string>): Option<Resolved> {
    var a, r := FindAccessToken(db, keys, token), FindRefreshToken(cfg, db, token);
    if a.None? then r else if r.None? then a else if hint == Some("refresh_token") then r else a
  }

  method ResolveToken(cfg: P.Config, db: Db, keys: set<string>, token: Token, hint: Option<string>)
    returns (found: Option<Resolved>)
    ensures found == Resolve(cfg, db, keys, token, hint)
  {
    var order := Order(hint);
    assert |order| == 2 && order[0] != order[1];
    for i := 0 to |order|
      invariant forall k | 0 <= k < i ::
        if order[k].AccessFinder? then FindAccessToken(db, keys, token).None?
        else FindRefreshToken(cfg, db, token).None?
    {
      found := if order[i].AccessFinder? then FindAccessToken(db, keys, token) else FindRefreshToken(cfg, db, token);
      if found.Some? {
        assert i == 0 || (i == 1 && order[i] != order[0]);
        return;
      }
    }
    found := None;
  }

  /** Neither revoked nor expired. */
  predicate Live(revokedAt: Option<int>, expiresAt: int, now: int) { revokedAt.None? && expiresAt > now }

  predicate AccessLive(db: Db, jti: string, now: int) {
    jti in db.access && Live(db.access[jti].revokedAt, db.access[jti].expiresAt, now)
  }

  predicate RefreshLive(db: Db, hash: string, now: int) {
    hash in db.refresh && Live(db.refresh[hash].revokedAt, db.refresh[hash].expiresAt, now)
  }

  /** `exp` is in whole seconds. */
  datatype Introspection =
    | Inactive
    | ActiveAccess(jti: string, clientId: string, sub: string, scope: string, exp: int, cnfJkt: Option<string>)
    | ActiveRefresh(hash: string, clientId: string, scope: string, exp: int)

  function Introspect(cfg: P.Config, db: Db, keys: set<string>, clientId: string, token: Token, hint: Option<string>,
                      now: Ms): Introspection {
    match Resolve(cfg, db, keys, token, hint)
    case None => Inactive
    case Some(RefreshToken(h, row)) =>
      if row.clientId != clientId || row.revokedAt.Some? || row.expiresAt <= now then Inactive
      else ActiveRefresh(h, row.clientId, row.scope, FloorSec(row.expiresAt))
    case Some(AccessToken(j, row)) =>
      if row.clientId != clientId || row.revokedAt.Some? || row.expiresAt <= now then Inactive
      else ActiveAccess(j, row.clientId, row.subject, row.scope, FloorSec(row.expiresAt), row.cnfJkt)
  }

  /** The text is a token that one of the keys signed, with a record. */
  ghost predicate SignedRecord(db: Db, keys: set<string>, token: Token) {
    && token.jws.Some? && token.jws.value.kid in keys
    && token.jws.value.jti.Some? && token.jws.value.jti.value in db.access
  }

  /** What introspection says, of whatever is presented. Of two records the hint decides.
      The answer is active exactly for the client that the record is for, while it is
      neither revoked nor expired, and then says what the record says. */
  lemma IntrospectExactly(cfg: P.Config, db: Db, keys: set<string>, clientId: string, token: Token,
                          hint: Option<string>, now: Ms)
    ensures var answer, hash := Introspect(cfg, db, keys, clientId, token, hint, now), cfg.sha(token.text);
            if SignedRecord(db, keys, token) && !(hint == Some("refresh_token") && hash in db.refresh) then
              var jti, row := token.jws.value.jti.value, db.access[token.jws.value.jti.value];
              if row.clientId == clientId && row.revokedAt.None? && now < row.expiresAt
              then answer == ActiveAccess(jti, clientId, row.subject, row.scope, row.expiresAt / 1000, row.cnfJkt)
              else answer == Inactive
            else if hash in db.refresh then
              var row := db.refresh[hash];
              if row.clientId == clientId && row.revokedAt.None? && now < row.expiresAt
              then answer == ActiveRefresh(hash, clientId, row.scope, row.expiresAt / 1000)
              else answer == Inactive
            else answer == Inactive
  {
  }

  // --------------------------------------------------------------- userinfo

  /** The Authorization header: none with the DPoP scheme, or its token. */
  datatype Authorization = NoDpop | DpopToken(token: Token)

  datatype UserInfoError = NoCredentials | InvalidToken | InvalidProof

  function ProofContext(cfg: P.Config, token: Token, htm: string, htu: string): Dpop.Context {
    Dpop.Context(htm, htu, Some(cfg.sha(token.text)), "dpop-rs:userinfo")
  }

  /** What userinfo asks of the token before it looks at the proof. */
  ghost predicate Presentable(db: Db, keys: set<string>, authz: Authorization, now: Ms) {
    && authz.DpopToken? && authz.token.text != "" && SignedRecord(db, keys, authz.token)
    && var row := db.access[authz.token.jws.value.jti.value];
    row.revokedAt.None? && now < row.expiresAt && row.cnfJkt.Some?
  }

  /** Success means: the token is presentable, and a proof for this very token was
      accepted, made with the key that the token is bound to. The proof may be
      checked a moment later than the token. */
  method UserInfo(cfg: P.Config, db: Db, keys: set<string>, authz: Authorization, header: Dpop.Header, htm: string,
                  htu: string, dpop: Dpop.Config, hmac: Mac.Hmac, store: ReplayStore.MemoryJtiReplay, now: Ms,
                  proofNow: Ms)
    returns (r: Result<string, UserInfoError>)
    requires store.Valid()
    modifies store
    ensures store.Valid()
    ensures r.Ok? ==>
              && Presentable(db, keys, authz, now)
              && var row := db.access[authz.token.jws.value.jti.value];
              && r.value == row.subject
              && header.Single?
              && Dpop.Admissible(header.proof, ProofContext(cfg, authz.token, htm, htu), dpop, proofNow)
              && header.proof.signed.value.ath == Some(cfg.sha(authz.token.text))
              && row.cnfJkt == Some(header.proof.jwk.value.thumbprint)
    ensures !Presentable(db, keys, authz, now) ==>
              r.Err? && !r.error.InvalidProof? && store.rows == old(store.rows) && store.log == old(store.log)
    ensures r == Err(NoCredentials) <==> authz.NoDpop?
    // A presentable token with a good proof of its key, not used before, is served.
    ensures Presentable(db, keys, authz, now) && header.Single?
            && Dpop.Admissible(header.proof, ProofContext(cfg, authz.token, htm, htu), dpop, proofNow)
            && Dpop.NonceAccepted(header.proof, ProofContext(cfg, authz.token, htm, htu), dpop, hmac, proofNow)
            && db.access[authz.token.jws.value.jti.value].cnfJkt == Some(header.proof.jwk.value.thumbprint)
            && |old(store.AfterSweep(proofNow))| < ReplayStore.CAP
            && !ReplayStore.Live(old(store.rows),
                                 Dpop.ProofKey(header.proof, ProofContext(cfg, authz.token, htm, htu)), proofNow) ==>
              r == Ok(db.access[authz.token.jws.value.jti.value].subject)
    // The owner's introspection at that instant, with those keys, says the same.
    ensures r.Ok? ==> forall hint: Option<string> |
              hint != Some("refresh_token") || cfg.sha(authz.token.text) !in db.refresh ::
              var row := db.access[authz.token.jws.value.jti.value];
              Introspect(cfg, db, keys, row.clientId, authz.token, hint, now)
              == ActiveAccess(authz.token.jws.value.jti.value, row.clientId, r.value, row.scope,
                              FloorSec(row.expiresAt), Some(header.proof.jwk.value.thumbprint))
  {
    if authz.NoDpop? {
      return Err(NoCredentials);
    }
    var token := authz.token;
    if token.text == "" {
      return Err(InvalidToken);
    }
    var resolved := FindAccessToken(db, keys, token);
    if resolved.None? {
      return Err(InvalidToken);
    }
    var at := resolved.value.access;
    if at.revokedAt.Some? || at.expiresAt <= now {
      return Err(InvalidToken);
    }
    if at.cnfJkt.None? {
      return Err(InvalidToken);
    }
    var verified := Dpop.VerifyDpopProof(header, ProofContext(cfg, token, htm, htu), dpop, hmac, store, proofNow);
    if verified.Err? {
      return Err(InvalidProof);
    }
    if verified.value != at.cnfJkt.value {
      return Err(InvalidToken);
    }
    return Ok(at.subject);
  }

  // ------------------------------------------------------- death over a run

  lemma AccessStaysDead(a: map<string, AccessRow>, b: map<string, AccessRow>, jti: string, now: int, later: int)
    requires AccessKept(a, b) && jti in a && now <= later
    requires !Live(a[jti].revokedAt, a[jti].expiresAt, now)
    ensures jti in b && !Live(b[jti].revokedAt, b[jti].expiresAt, later)
  {
  }

  lemma RefreshStaysDead(a: map<string, RefreshRow>, b: map<string, RefreshRow>, hash: string, now: int, later: int)
    requires RefreshKept(a, b) && hash in a && now <= later
    requires !Live(a[hash].revokedAt, a[hash].expiresAt, now)
    ensures hash in b && !Live(b[hash].revokedAt, b[hash].expiresAt, later)
  {
  }

  /** An access token seen revoked or expired at one moment of a run is, whatever
      is presented to resolve to it, never active in introspection and never
      presentable at userinfo at any later moment. */
  lemma AccessDeathIsPermanent(cfg: P.Config, worlds: seq<P.World>, events: seq<P.Event>, i: nat, j: nat, jti: string,
                               now: Ms, later: Ms, keys: set<string>, token: Token, hint: Option<string>,
                               clientId: string)
    requires P.Run(cfg, worlds, events) && i <= j < |worlds| && now <= later
    requires jti in worlds[i].db.access && !AccessLive(worlds[i].db, jti, now)
    requires token.jws.Some? && token.jws.value.jti == Some(jti)
    ensures !Introspect(cfg, worlds[j].db, keys, clientId, token, hint, later).ActiveAccess?
    ensures !Presentable(worlds[j].db, keys, DpopToken(token), later)
  {
    Descent.RunGrows(cfg, worlds, events, i, j);
    AccessStaysDead(worlds[i].db.access, worlds[j].db.access, jti, now, later);
  }

  /** Once the owner's revocation of an access token has cut it, the token is neither
      active nor presentable at any later moment of the run, at any reading. */
  lemma RevokedAccessIsDead(cfg: P.Config, worlds: seq<P.World>, events: seq<P.Event>, r: nat, m: nat, jti: string,
                            now: Ms, keys: set<string>, token: Token, hint: Option<string>, clientId: string)
    requires P.Run(cfg, worlds, events) && r < m < |worlds| && r < |events| && events[r].Step?
    requires events[r].tid in worlds[r].procs && worlds[r].procs[events[r].tid] == P.Revoking(P.CutAccess(jti))
    requires jti in worlds[r].db.access && token.jws.Some? && token.jws.value.jti == Some(jti)
    ensures jti in worlds[m].db.access && worlds[m].db.access[jti].revokedAt.Some?
    ensures !Introspect(cfg, worlds[m].db, keys, clientId, token, hint, now).ActiveAccess?
    ensures !Presentable(worlds[m].db, keys, DpopToken(token), now)
  {
    CutNow(cfg, worlds, events, r, jti);
    hide P.Run, P.Legal, P.After, P.Act;
    Descent.RunGrows(cfg, worlds, events, r + 1, m);
  }

  lemma CutNow(cfg: P.Config, worlds: seq<P.World>, events: seq<P.Event>, r: nat, jti: string)
    requires P.Run(cfg, worlds, events) && r < |events| && r + 1 < |worlds| && events[r].Step?
    requires events[r].tid in worlds[r].procs && worlds[r].procs[events[r].tid] == P.Revoking(P.CutAccess(jti))
    requires jti in worlds[r].db.access
    ensures jti in worlds[r + 1].db.access && worlds[r + 1].db.access[jti].revokedAt.Some?
  {
    GrantEnd.RunStep(cfg, worlds, events, r);
    GrantEnd.StepDoes(cfg, worlds[r], events[r]);
    AccessExactly(worlds[r].db, DropAccess(jti, events[r].input.now));
    hide P.Run, P.Legal, P.After, Apply;
  }

  /** A refresh token seen revoked or expired is never active again, and never
      again gets its holder past the first step of the refresh grant. */
  lemma RefreshDeathIsPermanent(cfg: P.Config, worlds: seq<P.World>, events: seq<P.Event>, i: nat, j: nat, token: Token,
                                now: Ms, later: Ms, keys: set<string>, hint: Option<string>, clientId: string,
                                request: P.Refreshing, input: P.Input)
    requires P.Run(cfg, worlds, events) && i <= j < |worlds| && now <= later
    requires cfg.sha(token.text) in worlds[i].db.refresh && !RefreshLive(worlds[i].db, cfg.sha(token.text), now)
    requires request.PresentRefresh? && request.token == token.text && input.now == later
    ensures !Introspect(cfg, worlds[j].db, keys, clientId, token, hint, later).ActiveRefresh?
    ensures P.RefreshStep(cfg, worlds[j].db, request, input) == P.Finish(P.Rejected)
  {
    Descent.RunGrows(cfg, worlds, events, i, j);
    RefreshStaysDead(worlds[i].db.refresh, worlds[j].db.refresh, cfg.sha(token.text), now, later);
  }

  /** Codes, pushed requests and interactions die as finally: a consumed code is
      never redeemed, a consumed request never peeked, a completed interaction
      never found, at any later moment and at any reading of the clock. */
  lemma ConsumptionIsPermanent(cfg: P.Config, worlds: seq<P.World>, events: seq<P.Event>, i: nat, j: nat,
                               hash: string, uri: string, id: string, now: Ms)
    requires P.Run(cfg, worlds, events) && i <= j < |worlds|
    ensures hash in worlds[i].db.codes && worlds[i].db.codes[hash].consumedAt.Some? ==>
              RedeemResult(worlds[j].db.codes, hash, now).Replayed?
    ensures uri in worlds[i].db.par && worlds[i].db.par[uri].consumedAt.Some? ==>
              PeekPar(worlds[j].db.par, uri, now).None?
    ensures id in worlds[i].db.interactions && worlds[i].db.interactions[id].completedAt.Some? ==>
              FindInteraction(worlds[j].db.interactions, id, now).None?
  {
    Descent.RunGrows(cfg, worlds, events, i, j);
  }
}
