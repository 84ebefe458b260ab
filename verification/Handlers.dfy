/** The endpoint handlers over the in-memory storage, statement by statement, each
    proved to do what the protocol machine does when nothing interleaves. */
module Handlers {
  import opened Base
  import opened AuthzRequest
  import opened Tables
  import opened MemoryStores
  import opened Protocol
  import opened Serving
  import Sessions
  import Text

  class Storage {
    const clients: MemoryClients
    const par: MemoryParRequests
    const grants: MemoryGrants
    const codes: MemoryAuthorizationCodes
    const accessTokens: MemoryAccessTokens
    const refreshTokens: MemoryRefreshTokens
    const interactions: MemoryInteractions

    constructor ()
      ensures fresh(clients) && fresh(par) && fresh(grants) && fresh(codes) && fresh(accessTokens)
      ensures fresh(refreshTokens)
              && fresh(interactions)
      ensures Valid() && Db() == Tables.Db(map[], map[], map[], map[], map[], map[], map[])
    {
      clients := new MemoryClients();
      par := new MemoryParRequests();
      grants := new MemoryGrants();
      codes := new MemoryAuthorizationCodes();
      accessTokens := new MemoryAccessTokens();
      refreshTokens := new MemoryRefreshTokens();
      interactions := new MemoryInteractions();
    }

    ghost predicate Valid()
      reads interactions
    {
      interactions.Valid()
    }

    /** The tables; of the interactions, the one that forgets nothing. */
    ghost function Db(): Tables.Db
      reads clients, par, grants, codes, accessTokens, refreshTokens, interactions
    {
      Tables.Db(clients.rows, par.rows, grants.rows, codes.rows, accessTokens.rows, refreshTokens.rows,
                interactions.reference)
    }
  }

  /** On a storage that served requests have left, a request that enters legally and
      draws unused identifiers keeps what every request keeps. */
  ghost predicate Kept(cfg: Config, db: Db, p: Proc, inputs: seq<Input>, k: nat, db': Db) {
    Served(cfg, db) && Entry(db, p) && FreshAlong(cfg, db, p, inputs, k) ==> Keeps(cfg, db, db')
  }

  lemma KeptOnceServed(cfg: Config, db: Db, p: Proc, inputs: seq<Input>, k: nat)
    ensures Serve(cfg, db, p, inputs, k).1.Done? ==> Kept(cfg, db, p, inputs, k, Serve(cfg, db, p, inputs, k).0)
  {
    hide Served, Entry, FreshAlong, Serve, Keeps;
    if Serve(cfg, db, p, inputs, k).1.Done? && Served(cfg, db) && Entry(db, p) && FreshAlong(cfg, db, p, inputs, k) {
      ServeKeeps(cfg, db, p, inputs, k);
    }
  }

  /** The request was open and is used up, and there is a new unused code for it, under
      a grant to this client for this subject. */
  ghost predicate GrantedFor(cfg: Config, db: Db, db': Db, uri: string, code: string, clientId: string, sub: string) {
    && uri in db.par && db.par[uri].consumedAt.None?
    && uri in db'.par && db'.par[uri].consumedAt.Some?
    && var h := cfg.sha(code);
    && h in db'.codes && db'.codes[h].consumedAt.None? && db'.codes[h].clientId == clientId
    && var g := db'.codes[h].grantId;
    && g in db'.grants && db'.grants[g].clientId == clientId && db'.grants[g].subject == sub
    && db'.grants[g].revokedAt.None?
  }

  /** The code is there, unused and unexpired. */
  ghost predicate CodeOpen(rows: map<string, CodeRow>, hash: string, now: int) {
    hash in rows && rows[hash].consumedAt.None? && now < rows[hash].expiresAt
  }

  /** The code is presented by its client with the redirect URI that it went to, a
      verifier of its challenge, and the key that it is bound to. */
  ghost predicate HolderShows(cfg: Config, row: CodeRow, clientId: string, jkt: string, redirectUri: Option<string>,
                              verifier: Option<string>) {
    && row.clientId == clientId && redirectUri == Some(row.redirectUri)
    && verifier.Some? && 43 <= |verifier.value| <= 128 && Unreserved(verifier.value)
    && cfg.sha(verifier.value) == row.codeChallenge
    && (row.dpopJkt.Some? ==> row.dpopJkt.value == jkt)
  }

  lemma HolderExactly(cfg: Config, row: CodeRow, clientId: string, jkt: string, redirectUri: Option<string>,
                      verifier: Option<string>, hash: string)
    ensures HolderShows(cfg, row, clientId, jkt, redirectUri, verifier)
            <==> Redeemable(cfg, row, clientId, FromCode(hash, redirectUri, verifier, jkt))
  {
    VerifiesExactly(cfg, verifier, row.codeChallenge);
    hide VerifyS256;
  }

  /** The grant is there and not revoked. */
  ghost predicate GrantOpen(rows: map<string, GrantRow>, id: string) { id in rows && rows[id].revokedAt.None? }

  /** The client can open the pushed request, and it is still one that it may make. */
  ghost predicate RequestOpen(db: Tables.Db, clientId: string, uri: string, now: int) {
    && uri in db.par && db.par[uri].consumedAt.None? && now < db.par[uri].expiresAt && db.par[uri].clientId == clientId
    && clientId in db.clients && Acceptable(Lift(db.par[uri].params), db.clients[clientId])
  }

  /** The request as it reads now. */
  function RequestNow(db: Tables.Db, clientId: string, uri: string): Result<Validated, AuthzRequest.Error>
    requires uri in db.par && clientId in db.clients
  {
    Validate(Lift(db.par[uri].params), db.clients[clientId])
  }

  lemma RequestExactly(db: Tables.Db, clientId: string, uri: string, now: int)
    ensures RequestOpen(db, clientId, uri, now) <==>
              && PeekPar(db.par, uri, now).Some? && PeekPar(db.par, uri, now).value.clientId == clientId
              && clientId in db.clients && RequestNow(db, clientId, uri).Ok?
  {
    if uri in db.par && clientId in db.clients {
      ValidExactly(Lift(db.par[uri].params), db.clients[clientId]);
    }
    hide Validate, Acceptable, Lift, AsSent, ErrorFits;
  }

  /** The pushed request is there, unused and unexpired. */
  ghost predicate Takable(rows: map<string, ParRow>, uri: string, now: int) {
    uri in rows && rows[uri].consumedAt.None? && now < rows[uri].expiresAt
  }

  /** Nobody can open the pushed request from this reading on. */
  ghost predicate Gone(rows: map<string, ParRow>, uri: string, from: int) {
    forall later: int | from <= later :: PeekPar(rows, uri, later).None?
  }

  // -------------------------------------------------------------- the handlers

  /** The row that PAR stores reads back as the request that was sent, with the key that
      the row is bound to. */
  ghost predicate ReadsBack(row: ParRow, body: Body, client: Client) {
    && Validate(Lift(row.params), client).Ok?
    && var v := Validate(Lift(row.params), client).value;
    v.dpopJkt == row.dpopJkt && AsSent(v.(dpopJkt := Sent(body, DpopJkt)), body, client)
  }

  lemma PushedReadsBack(body: Body, client: Client, jkt: Option<string>, expiresAt: int)
    requires Validate(body, client).Ok?
    requires jkt == Validate(body, client).value.dpopJkt || (jkt.Some? && WellFormedJkt(jkt.value))
    ensures ReadsBack(ParRow(client.clientId, PushedParams(Validate(body, client).value, jkt), jkt, expiresAt, None),
                      body, client)
  {
    hide Validate, PushedParams, WellFormedJkt, Lift, Acceptable, ErrorFits, Collected, AskedScope, Sent;
    ValidatedKey(body, client);
    SameClientRoundTrip(body, client, jkt);
    ValidExactly(body, client);
  }

  /** What a push comes to: a request that may be made, without a request_uri of its own
      and without two different keys, is stored for its client under a new URI, to be
      used once before it expires; anything else is refused and nothing is stored. */
  ghost predicate Pushes(cfg: Config, par: map<string, ParRow>, after: map<string, ParRow>, client: Client, body: Body,
                         headerJkt: Option<string>, input: Input, o: Outcome) {
    if (Name.RequestUri in body && body[Name.RequestUri] != Single("")) || !Acceptable(body, client)
       || (headerJkt.Some? && Sent(body, DpopJkt).Some? && headerJkt != Sent(body, DpopJkt))
    then o == Rejected && after == par
    else
      && o == Pushed("urn:ietf:params:oauth:request_uri:" + input.random)
      && o.uri in after && after == par[o.uri := after[o.uri]]
      && var row := after[o.uri];
      && row.clientId == client.clientId && row.consumedAt.None? && row.expiresAt == input.now + cfg.parTtlMs
      && row.dpopJkt == (if headerJkt.Some? then headerJkt else Sent(body, DpopJkt))
      && ((headerJkt.Some? ==> Thumbprint(headerJkt.value)) ==> ReadsBack(row, body, client))
  }

  lemma PushesNothing(cfg: Config, par: map<string, ParRow>, client: Client, body: Body, headerJkt: Option<string>,
                      input: Input)
    requires var v := Validate(body, client); PushesUri(body) || v.Err? || BoundKey(v.value.dpopJkt, headerJkt).Err?
    ensures Pushes(cfg, par, par, client, body, headerJkt, input, Rejected)
  {
    ValidExactly(body, client);
    hide Validate, Acceptable, ErrorFits, Collected, AskedScope, Sent;
  }

  lemma PushesRow(cfg: Config, par: map<string, ParRow>, client: Client, body: Body, headerJkt: Option<string>,
                  input: Input, jkt: Option<string>)
    requires !PushesUri(body) && Validate(body, client).Ok?
    requires BoundKey(Validate(body, client).value.dpopJkt, headerJkt) == Ok(jkt)
    ensures var v, uri := Validate(body, client).value, RequestUriFor(input.random);
            var row := ParRow(client.clientId, PushedParams(v, jkt), jkt, input.now + cfg.parTtlMs, None);
            Pushes(cfg, par, par[uri := row], client, body, headerJkt, input, Pushed(uri))
  {
    ValidExactly(body, client);
    if headerJkt.Some? ==> Thumbprint(headerJkt.value) {
      PushedReadsBack(body, client, jkt, input.now + cfg.parTtlMs);
    }
    hide Validate, Acceptable, ErrorFits, Collected, AskedScope, Sent, ReadsBack, PushedParams, Thumbprint;
  }

  /** The key that the pushed request is bound to, or a conflict. */
  function BoundKey(pushed: Option<string>, header: Option<string>): Result<Option<string>, ()> {
    if header.None? then Ok(pushed) else if pushed.Some? && pushed != header then Err(()) else Ok(header)
  }

  predicate PushesUri(body: Body) { Name.RequestUri in body && body[Name.RequestUri] != Single("") }

  lemma PushRefused(cfg: Config, db: Db, client: Client, body: Body, headerJkt: Option<string>, inputs: seq<Input>,
                    k: nat)
    requires k < |inputs|
    requires var v := Validate(body, client); PushesUri(body) || v.Err? || BoundKey(v.value.dpopJkt, headerJkt).Err?
    ensures Serve(cfg, db, Push(client, body, headerJkt), inputs, k) == (db, Done(Rejected))
  {
    hide Validate, PushedParams;
    ServeStep(cfg, db, Push(client, body, headerJkt), inputs, k, PushStep(cfg, client, body, headerJkt, inputs[k]));
  }

  lemma PushStored(cfg: Config, db: Db, client: Client, body: Body, headerJkt: Option<string>, inputs: seq<Input>,
                   k: nat, v: Validated, jkt: Option<string>, row: ParRow)
    requires k < |inputs| && !PushesUri(body) && Validate(body, client) == Ok(v)
    requires BoundKey(v.dpopJkt, headerJkt) == Ok(jkt)
    requires row == ParRow(client.clientId, PushedParams(v, jkt), jkt, inputs[k].now + cfg.parTtlMs, None)
    ensures var uri := RequestUriFor(inputs[k].random);
            Serve(cfg, db, Push(client, body, headerJkt), inputs, k)
            == (db.(par := db.par[uri := row]), Done(Pushed(uri)))
  {
    PushStepStores(cfg, client, body, headerJkt, inputs[k], v, jkt);
    hide Validate, PushedParams, RequestUriFor, PushesUri, BoundKey, PushStep, Lawful;
    var uri := RequestUriFor(inputs[k].random);
    ServeStep(cfg, db, Push(client, body, headerJkt), inputs, k, Effect(PutPar(uri, row), Done(Pushed(uri)), Quiet));
  }

  lemma PushStepStores(cfg: Config, client: Client, body: Body, headerJkt: Option<string>, input: Input,
                       v: Validated, jkt: Option<string>)
    requires !PushesUri(body) && Validate(body, client) == Ok(v) && BoundKey(v.dpopJkt, headerJkt) == Ok(jkt)
    ensures var uri := RequestUriFor(input.random);
            var row := ParRow(client.clientId, PushedParams(v, jkt), jkt, input.now + cfg.parTtlMs, None);
            PushStep(cfg, client, body, headerJkt, input) == Effect(PutPar(uri, row), Done(Pushed(uri)), Quiet)
  {
    hide Validate, PushedParams, RequestUriFor, Lawful;
  }

  method ParamsToPush(v: Validated, jkt: Option<string>) returns (params: Params)
    ensures params == PushedParams(v, jkt)
  {
    params := ToStoredParams(v);
    if jkt.Some? {
      params := params[DpopJkt := jkt.value];
    }
  }

  method PushAuthorizationRequest(st: Storage, cfg: Config, body: Body, client: Client, headerJkt: Option<string>,
                                  inputs: seq<Input>, k: nat)
    returns (o: Outcome)
    requires st.Valid() && k < |inputs|
    modifies st.par
    ensures Serve(cfg, old(st.Db()), Push(client, body, headerJkt), inputs, k) == (st.Db(), Done(o))
    ensures Kept(cfg, old(st.Db()), Push(client, body, headerJkt), inputs, k, st.Db())
    ensures Pushes(cfg, old(st.par.rows), st.par.rows, client, body, headerJkt, inputs[k], o)
  {
    KeptOnceServed(cfg, st.Db(), Push(client, body, headerJkt), inputs, k);
    hide Validate, PushedParams, Kept, Lift, Serve, StoredParams, RequestUriFor, PushesUri, Pushes, Acceptable, AsSent,
         ErrorFits;
    if PushesUri(body) {
      PushRefused(cfg, st.Db(), client, body, headerJkt, inputs, k);
      PushesNothing(cfg, st.par.rows, client, body, headerJkt, inputs[k]);
      return Rejected;
    }
    var validated := ValidateAuthorizationRequest(body, client);
    if validated.Err? {
      PushRefused(cfg, st.Db(), client, body, headerJkt, inputs, k);
      PushesNothing(cfg, st.par.rows, client, body, headerJkt, inputs[k]);
      return Rejected;
    }
    var dpopJkt := validated.value.dpopJkt;
    if headerJkt.Some? {
      if dpopJkt.Some? && dpopJkt != headerJkt {
        PushRefused(cfg, st.Db(), client, body, headerJkt, inputs, k);
        PushesNothing(cfg, st.par.rows, client, body, headerJkt, inputs[k]);
        return Rejected;
      }
      dpopJkt := headerJkt;
    }
    o := StorePushed(st, cfg, body, client, headerJkt, validated.value, dpopJkt, inputs, k);
  }

  method StorePushed(st: Storage, cfg: Config, body: Body, client: Client, headerJkt: Option<string>,
                     request: Validated, dpopJkt: Option<string>, inputs: seq<Input>, k: nat)
    returns (o: Outcome)
    requires st.Valid() && k < |inputs| && !PushesUri(body) && Validate(body, client) == Ok(request)
    requires BoundKey(request.dpopJkt, headerJkt) == Ok(dpopJkt)
    modifies st.par
    ensures Serve(cfg, old(st.Db()), Push(client, body, headerJkt), inputs, k) == (st.Db(), Done(o))
    ensures Pushes(cfg, old(st.par.rows), st.par.rows, client, body, headerJkt, inputs[k], o)
  {
    hide Validate, PushedParams, Serve, StoredParams, RequestUriFor, PushesUri, Pushes, BoundKey;
    var requestUri := RequestUriFor(inputs[k].random);
    var params := ParamsToPush(request, dpopJkt);
    var row := ParRow(client.clientId, params, dpopJkt, inputs[k].now + cfg.parTtlMs, None);
    PushStored(cfg, st.Db(), client, body, headerJkt, inputs, k, request, dpopJkt, row);
    PushesRow(cfg, st.par.rows, client, body, headerJkt, inputs[k], dpopJkt);
    st.par.Insert(requestUri, row);
    return Pushed(requestUri);
  }

  /** A code is stored by its hash, under a grant inserted just before. */
  method IssueAuthorizationCode(st: Storage, cfg: Config, ask: Ask, inputs: seq<Input>, k: nat)
    returns (code: string, grantId: string)
    requires st.Valid() && k + 2 <= |inputs|
    modifies st.grants, st.codes
    ensures Serve(cfg, old(st.Db()), Issuing(InsertGrant(ask)), inputs, k) == (st.Db(), Done(Code(code)))
    ensures grantId == inputs[k].random && code == inputs[k + 1].random
    ensures st.grants.rows ==
            old(st.grants.rows)[grantId := GrantRow(ask.client.clientId, ask.user.sub, ask.request.scope,
                                                    ask.user.authTime, inputs[k].now, None)]
    ensures st.codes.rows ==
            old(st.codes.rows)[cfg.sha(code) :=
              CodeRow(grantId, ask.client.clientId, ask.request.redirectUri, ask.request.codeChallenge,
                      ask.request.dpopJkt, ask.request.nonce, inputs[k].now + cfg.codeTtlMs, None)]
  {
    var now := inputs[k].now;
    grantId := inputs[k].random;
    ServeStep(cfg, st.Db(), Issuing(InsertGrant(ask)), inputs, k, IssueStep(cfg, st.Db(), InsertGrant(ask), inputs[k]));
    st.grants.Insert(grantId,
                     GrantRow(ask.client.clientId, ask.user.sub, ask.request.scope, ask.user.authTime, now, None));
    code := inputs[k + 1].random;
    ServeStep(cfg, st.Db(), Issuing(InsertCode(grantId, ask, now)), inputs, k + 1,
              IssueStep(cfg, st.Db(), InsertCode(grantId, ask, now), inputs[k + 1]));
    st.codes.Insert(cfg.sha(code),
                    CodeRow(grantId, ask.client.clientId, ask.request.redirectUri, ask.request.codeChallenge,
                            ask.request.dpopJkt, ask.request.nonce, now + cfg.codeTtlMs, None));
  }

  method IssueCodeForInteraction(st: Storage, cfg: Config, ask: Ask, inputs: seq<Input>, k: nat) returns (o: Outcome)
    requires st.Valid() && k + 3 <= |inputs|
    modifies st.par, st.grants, st.codes
    ensures Serve(cfg, old(st.Db()), Issuing(Take(ask)), inputs, k) == (st.Db(), Done(o))
    ensures o.Code? ==> GrantedFor(cfg, old(st.Db()), st.Db(), ask.uri, o.code, ask.client.clientId, ask.user.sub)
    ensures o.Code? <==> Takable(old(st.par.rows), ask.uri, inputs[k].now)
    ensures !o.Code? ==> o == Rejected && st.Db() == old(st.Db())
  {
    ServeStep(cfg, st.Db(), Issuing(Take(ask)), inputs, k, IssueStep(cfg, st.Db(), Take(ask), inputs[k]));
    var consumed := st.par.Consume(ask.uri, inputs[k].now);
    if consumed.None? {
      return Rejected;
    }
    var code, _ := IssueAuthorizationCode(st, cfg, ask, inputs, k + 1);
    return Code(code);
  }

  /** `decideAuthorization` and what follows from its answer. */
  method DecideAndIssue(st: Storage, cfg: Config, ask: Ask, inputs: seq<Input>, k: nat) returns (o: Outcome)
    requires st.Valid() && k + 4 <= |inputs|
    modifies st.par, st.grants, st.codes
    ensures Serve(cfg, old(st.Db()), Issuing(Decide(ask)), inputs, k) == (st.Db(), Done(o))
    ensures o.Code? ==> GrantedFor(cfg, old(st.Db()), st.Db(), ask.uri, o.code, ask.client.clientId, ask.user.sub)
    ensures o.Declined? ==> Gone(st.par.rows, ask.uri, inputs[k + 1].now)
    ensures o.Code? <==> inputs[k].allowed && Takable(old(st.par.rows), ask.uri, inputs[k + 1].now)
    ensures o.Declined? <==> !inputs[k].allowed
    ensures !inputs[k].allowed ==> st.grants.rows == old(st.grants.rows) && st.codes.rows == old(st.codes.rows)
    ensures o == Rejected ==> st.Db() == old(st.Db())
    ensures o.Code? || o.Declined? || o == Rejected
  {
    ServeStep(cfg, st.Db(), Issuing(Decide(ask)), inputs, k, IssueStep(cfg, st.Db(), Decide(ask), inputs[k]));
    if !inputs[k].allowed {
      o := ConsumeDeclined(st, cfg, ask.uri, inputs, k + 1);
    } else {
      o := IssueCodeForInteraction(st, cfg, ask, inputs, k + 1);
    }
  }

  method ConsumeDeclined(st: Storage, cfg: Config, uri: string, inputs: seq<Input>, k: nat) returns (o: Outcome)
    requires st.Valid() && k < |inputs|
    modifies st.par
    ensures Serve(cfg, old(st.Db()), Issuing(Issuing.Decline(uri)), inputs, k) == (st.Db(), Done(o)) && o == Declined
    ensures Gone(st.par.rows, uri, inputs[k].now)
  {
    ServeStep(cfg, st.Db(), Issuing(Issuing.Decline(uri)), inputs, k,
              IssueStep(cfg, st.Db(), Issuing.Decline(uri), inputs[k]));
    var _ := st.par.Consume(uri, inputs[k].now);
    return Declined;
  }

  lemma EnterServed(cfg: Config, db: Db, clientId: string, uri: string, session: Session, inputs: seq<Input>, k: nat)
    requires k < |inputs|
    ensures var pushed := PeekPar(db.par, uri, inputs[k].now);
            Serve(cfg, db, Authorizing(Enter(clientId, uri, session)), inputs, k)
            == if pushed.None? || pushed.value.clientId != clientId then (db, Done(Rejected))
               else Serve(cfg, db, Authorizing(Reload(clientId, uri, pushed.value.params, session)), inputs, k + 1)
  {
    ServeStep(cfg, db, Authorizing(Enter(clientId, uri, session)), inputs, k,
              AuthorizeStep(cfg, db, Enter(clientId, uri, session), inputs[k]));
  }

  lemma ReloadServed(cfg: Config, db: Db, clientId: string, uri: string, params: Params, session: Session,
                     inputs: seq<Input>, k: nat)
    requires k < |inputs| && clientId in db.clients && Validate(Lift(params), db.clients[clientId]).Ok?
    ensures var r := Validate(Lift(params), db.clients[clientId]).value;
            var stale := NeedsReauthentication(session, r, FloorSec(inputs[k].now));
            && (!stale ==> session.Some?)
            && Serve(cfg, db, Authorizing(Reload(clientId, uri, params, session)), inputs, k)
               == if !PromptNone(r) then Serve(cfg, db, Authorizing(Park(clientId, uri, inputs[k].now)), inputs, k + 1)
                  else if stale then (db, Done(Rejected))
                  else Serve(cfg, db, Issuing(Decide(Ask(uri, r, db.clients[clientId], UserOf(session.value)))),
                             inputs, k + 1)
  {
    hide Validate, Lift;
    var r := Validate(Lift(params), db.clients[clientId]).value;
    assert session.None? ==> NeedsReauthentication(session, r, FloorSec(inputs[k].now)) by {
      NoSession(session, r, FloorSec(inputs[k].now));
    }
    hide NeedsReauthentication, PromptNone;
    ServeStep(cfg, db, Authorizing(Reload(clientId, uri, params, session)), inputs, k,
              AuthorizeStep(cfg, db, Reload(clientId, uri, params, session), inputs[k]));
  }

  lemma ReloadRefused(cfg: Config, db: Db, clientId: string, uri: string, params: Params, session: Session,
                      inputs: seq<Input>, k: nat)
    requires k < |inputs| && !(clientId in db.clients && Validate(Lift(params), db.clients[clientId]).Ok?)
    ensures Serve(cfg, db, Authorizing(Reload(clientId, uri, params, session)), inputs, k) == (db, Done(Rejected))
  {
    hide Validate, Lift;
    ServeStep(cfg, db, Authorizing(Reload(clientId, uri, params, session)), inputs, k,
              AuthorizeStep(cfg, db, Reload(clientId, uri, params, session), inputs[k]));
  }

  lemma ParkServed(cfg: Config, db: Db, clientId: string, uri: string, at: int, inputs: seq<Input>, k: nat)
    requires k < |inputs|
    ensures var id := inputs[k].random;
            var row := InteractionRow(clientId, uri, None, None, None, None, at, at + cfg.interactionTtlMs, None);
            Serve(cfg, db, Authorizing(Park(clientId, uri, at)), inputs, k)
            == (db.(interactions := db.interactions[id := row]), Done(Parked(id)))
  {
    ServeStep(cfg, db, Authorizing(Park(clientId, uri, at)), inputs, k,
              AuthorizeStep(cfg, db, Park(clientId, uri, at), inputs[k]));
  }

  /** What an authorization request comes to. One that cannot be opened, or may not be
      made, changes nothing. One that does not have the word none in its prompt is parked
      for the form, and that is all. One that does takes a session fresh enough for it,
      and is then decided at once. */
  ghost predicate Authorized(cfg: Config, db: Tables.Db, after: Tables.Db, clientId: string, uri: string,
                             session: Session, inputs: seq<Input>, k: nat, o: Outcome)
    requires k + 4 <= |inputs|
  {
    if !RequestOpen(db, clientId, uri, inputs[k].now) then o == Rejected && after == db
    else
      && RequestNow(db, clientId, uri).Ok?
      && var v := RequestNow(db, clientId, uri).value;
      if !AsksNone(v) then
        && o == Parked(inputs[k + 2].random)
        && after == db.(interactions := db.interactions[inputs[k + 2].random :=
                          InteractionRow(clientId, uri, None, None, None, None, inputs[k + 1].now,
                                         inputs[k + 1].now + cfg.interactionTtlMs, None)])
      else if !FreshFor(session, v, FloorSec(inputs[k + 1].now)) then o == Rejected && after == db
      else
        && after.interactions == db.interactions
        && (o.Code? <==> inputs[k + 2].allowed && Takable(db.par, uri, inputs[k + 3].now))
        && (o.Declined? <==> !inputs[k + 2].allowed)
        && (!o.Code? && !o.Declined? ==> o == Rejected && after == db)
  }

  lemma NotOpened(cfg: Config, db: Tables.Db, clientId: string, uri: string, session: Session, inputs: seq<Input>,
                  k: nat)
    requires k + 4 <= |inputs|
    requires var pushed := PeekPar(db.par, uri, inputs[k].now);
             !(pushed.Some? && pushed.value.clientId == clientId && clientId in db.clients
               && Validate(Lift(pushed.value.params), db.clients[clientId]).Ok?)
    ensures Authorized(cfg, db, db, clientId, uri, session, inputs, k, Rejected)
  {
    RequestExactly(db, clientId, uri, inputs[k].now);
    hide RequestOpen, Validate, Lift, AsksNone, FreshFor, Takable;
  }

  /** The same from the request on, in the terms of the code. */
  ghost predicate Proceeds(cfg: Config, db: Tables.Db, after: Tables.Db, clientId: string, uri: string, v: Validated,
                           session: Session, inputs: seq<Input>, k: nat, o: Outcome)
    requires k + 3 <= |inputs|
  {
    if !PromptNone(v) then
      && o == Parked(inputs[k + 1].random)
      && after == db.(interactions := db.interactions[inputs[k + 1].random :=
                        InteractionRow(clientId, uri, None, None, None, None, inputs[k].now,
                                       inputs[k].now + cfg.interactionTtlMs, None)])
    else if NeedsReauthentication(session, v, FloorSec(inputs[k].now)) then o == Rejected && after == db
    else
      && after.interactions == db.interactions
      && (o.Code? <==> inputs[k + 1].allowed && Takable(db.par, uri, inputs[k + 2].now))
      && (o.Declined? <==> !inputs[k + 1].allowed)
      && (!o.Code? && !o.Declined? ==> o == Rejected && after == db)
  }

  lemma Opened(cfg: Config, db: Tables.Db, after: Tables.Db, clientId: string, uri: string, session: Session,
               inputs: seq<Input>, k: nat, o: Outcome, row: ParRow, v: Validated)
    requires k + 4 <= |inputs| && PeekPar(db.par, uri, inputs[k].now) == Some(row)
    requires row.clientId == clientId && clientId in db.clients
    requires Validate(Lift(row.params), db.clients[clientId]) == Ok(v)
    requires Proceeds(cfg, db, after, clientId, uri, v, session, inputs, k + 1, o)
    ensures Authorized(cfg, db, after, clientId, uri, session, inputs, k, o)
  {
    RequestExactly(db, clientId, uri, inputs[k].now);
    AsksNoneExactly(v);
    FreshExactly(session, v, FloorSec(inputs[k + 1].now));
    hide RequestOpen, Validate, Lift, AsksNone, FreshFor, Takable, PromptNone, NeedsReauthentication;
  }

  method HandleAuthorize(st: Storage, cfg: Config, clientId: string, requestUri: string, session: Session,
                         inputs: seq<Input>, k: nat)
    returns (o: Outcome)
    requires st.Valid() && k + 6 <= |inputs|
    modifies st.par, st.grants, st.codes, st.interactions
    ensures st.Valid()
    ensures Serve(cfg, old(st.Db()), Authorizing(Enter(clientId, requestUri, session)), inputs, k) == (st.Db(), Done(o))
    ensures Kept(cfg, old(st.Db()), Authorizing(Enter(clientId, requestUri, session)), inputs, k, st.Db())
    ensures Authorized(cfg, old(st.Db()), st.Db(), clientId, requestUri, session, inputs, k, o)
    // Without a form a code goes only to the user of the session.
    ensures o.Code? ==>
              && session.Some? && clientId in st.clients.rows
              && GrantedFor(cfg, old(st.Db()), st.Db(), requestUri, o.code, st.clients.rows[clientId].clientId,
                            session.value.sub)
  {
    KeptOnceServed(cfg, st.Db(), Authorizing(Enter(clientId, requestUri, session)), inputs, k);
    EnterServed(cfg, st.Db(), clientId, requestUri, session, inputs, k);
    hide Kept, GrantedFor, Serve, Validate, Lift, Authorized, Proceeds, PeekPar, Acceptable, AsSent, ErrorFits;
    var pushed := st.par.Peek(requestUri, inputs[k].now);
    if pushed.None? || pushed.value.clientId != clientId {
      NotOpened(cfg, st.Db(), clientId, requestUri, session, inputs, k);
      return Rejected;
    }
    var params := pushed.value.params;
    var found := st.clients.FindById(clientId);
    if found.None? {
      ReloadRefused(cfg, st.Db(), clientId, requestUri, params, session, inputs, k + 1);
      NotOpened(cfg, st.Db(), clientId, requestUri, session, inputs, k);
      return Rejected;
    }
    var client := found.value;
    var request := ValidateAuthorizationRequest(Lift(params), client);
    if request.Err? {
      ReloadRefused(cfg, st.Db(), clientId, requestUri, params, session, inputs, k + 1);
      NotOpened(cfg, st.Db(), clientId, requestUri, session, inputs, k);
      return Rejected;
    }
    o := Proceed(st, cfg, requestUri, params, request.value, client, clientId, session, inputs, k + 1);
    Opened(cfg, old(st.Db()), st.Db(), clientId, requestUri, session, inputs, k, o, pushed.value,
           request.value);
  }

  /** From the request as it reads now. */
  method Proceed(st: Storage, cfg: Config, requestUri: string, params: Params, request: Validated, client: Client,
                 clientId: string, session: Session, inputs: seq<Input>, k: nat)
    returns (o: Outcome)
    requires st.Valid() && k + 5 <= |inputs| && clientId in st.clients.rows && st.clients.rows[clientId] == client
    requires Validate(Lift(params), client) == Ok(request)
    modifies st.par, st.grants, st.codes, st.interactions
    ensures st.Valid()
    ensures Serve(cfg, old(st.Db()), Authorizing(Reload(clientId, requestUri, params, session)), inputs, k)
            == (st.Db(), Done(o))
    ensures Proceeds(cfg, old(st.Db()), st.Db(), clientId, requestUri, request, session, inputs, k, o)
    ensures o.Code? ==>
              && session.Some?
              && GrantedFor(cfg, old(st.Db()), st.Db(), requestUri, o.code, client.clientId, session.value.sub)
  {
    hide GrantedFor, Serve, Validate, Lift, NeedsReauthentication, PromptNone, Takable;
    ReloadServed(cfg, st.Db(), clientId, requestUri, params, session, inputs, k);
    var now := inputs[k].now;
    if PromptNone(request) {
      if NeedsReauthentication(session, request, FloorSec(now)) || session.None? {
        return Rejected;
      }
      o := DecideAndIssue(st, cfg, Ask(requestUri, request, client, UserOf(session.value)), inputs, k + 1);
    } else {
      var id := ParkRequest(st, cfg, clientId, requestUri, now, inputs, k + 1);
      o := Parked(id);
    }
  }

  method ParkRequest(st: Storage, cfg: Config, clientId: string, requestUri: string, now: Ms, inputs: seq<Input>,
                     k: nat)
    returns (id: string)
    requires st.Valid() && k < |inputs|
    modifies st.interactions
    ensures st.Valid()
    ensures Serve(cfg, old(st.Db()), Authorizing(Park(clientId, requestUri, now)), inputs, k)
            == (st.Db(), Done(Parked(id)))
    ensures id == inputs[k].random
    ensures st.interactions.reference ==
            old(st.interactions.reference)[id :=
              InteractionRow(clientId, requestUri, None, None, None, None, now, now + cfg.interactionTtlMs, None)]
  {
    ParkServed(cfg, st.Db(), clientId, requestUri, now, inputs, k);
    hide Serve;
    id := inputs[k].random;
    st.interactions.Insert(id, InteractionRow(clientId, requestUri, None, None, None, None, now,
                                              now + cfg.interactionTtlMs, None));
  }

  lemma NoSession(session: Session, request: Validated, nowSec: int)
    ensures session.None? ==> NeedsReauthentication(session, request, nowSec)
  {
  }

  /** The parked interaction, its client and its request, as they stand now. */
  datatype Context = Context(row: InteractionRow, params: Params, client: Client, request: Validated)

  function ContextOf(db: Db, id: string, now: int): Option<Context> {
    var row := FindInteraction(db.interactions, id, now);
    if row.None? then None
    else
      var pushed := PeekPar(db.par, row.value.requestUri, now);
      if pushed.None? || pushed.value.clientId != row.value.clientId || row.value.clientId !in db.clients then None
      else
        var client := db.clients[row.value.clientId];
        var request := Validate(Lift(pushed.value.params), client);
        if request.Err? then None else Some(Context(row.value, pushed.value.params, client, request.value))
  }

  /** The interaction is open, and so is the request that was parked with it. */
  ghost predicate ContextOpen(db: Tables.Db, id: string, now: int) {
    && id in db.interactions && db.interactions[id].completedAt.None? && now < db.interactions[id].expiresAt
    && RequestOpen(db, db.interactions[id].clientId, db.interactions[id].requestUri, now)
  }

  lemma ContextExactly(db: Tables.Db, id: string, now: int)
    ensures ContextOf(db, id, now).Some? <==> ContextOpen(db, id, now)
    ensures ContextOpen(db, id, now) ==>
              var row, c := db.interactions[id], ContextOf(db, id, now).value;
              c.row == row && RequestNow(db, row.clientId, row.requestUri) == Ok(c.request)
  {
    if id in db.interactions {
      RequestExactly(db, db.interactions[id].clientId, db.interactions[id].requestUri, now);
    }
    hide Validate, Lift, RequestOpen;
  }

  method LoadInteractionContext(st: Storage, id: string, now: Ms) returns (ctx: Option<Context>)
    requires st.Valid() && st.interactions.clock <= now
    modifies st.interactions`clock
    ensures st.Valid() && st.interactions.clock == now
    ensures ctx == ContextOf(st.Db(), id, now)
  {
    hide Validate;
    var interaction := st.interactions.Find(id, now);
    if interaction.None? {
      return None;
    }
    var pushed := st.par.Peek(interaction.value.requestUri, now);
    if pushed.None? || pushed.value.clientId != interaction.value.clientId {
      return None;
    }
    var client := st.clients.FindById(interaction.value.clientId);
    if client.None? {
      return None;
    }
    var request := ValidateAuthorizationRequest(Lift(pushed.value.params), client.value);
    if request.Err? {
      return None;
    }
    return Some(Context(interaction.value, pushed.value.params, client.value, request.value));
  }

  /** The machine's steps up to the decision on the context, when the clock is read once. */
  lemma ViewingServed(cfg: Config, db: Db, id: string, session: Session, inputs: seq<Input>, k: nat)
    requires k + 3 <= |inputs| && inputs[k].now == inputs[k + 1].now
    ensures var ctx := ContextOf(db, id, inputs[k].now);
            Serve(cfg, db, Viewing(Open(id, session)), inputs, k)
            == if ctx.None? then (db, Done(Rejected))
               else Serve(cfg, db, Viewing(CheckFor(id, ctx.value.row, ctx.value.params, session)), inputs, k + 2)
  {
    hide Validate, NeedsReauthentication;
    var f := ViewStep(db, Open(id, session), inputs[k]);
    ServeStep(cfg, db, Viewing(Open(id, session)), inputs, k, f);
    if f.next.Viewing? {
      var g := ViewStep(db, f.next.viewing, inputs[k + 1]);
      ServeStep(cfg, db, f.next, inputs, k + 1, g);
      if g.next.Viewing? {
        ServeStep(cfg, db, g.next, inputs, k + 2, ViewStep(db, g.next.viewing, inputs[k + 2]));
      }
    }
  }

  lemma ConsentServed(cfg: Config, db: Db, id: string, signedIn: Sessions.LoginSession, approved: bool,
                      inputs: seq<Input>, k: nat)
    requires k + 3 <= |inputs| && inputs[k].now == inputs[k + 1].now
    ensures var ctx := ContextOf(db, id, inputs[k].now);
            Serve(cfg, db, Consenting(Submit(id, signedIn, approved)), inputs, k)
            == if ctx.None? then (db, Done(Rejected))
               else Serve(cfg, db, Consenting(Recheck(id, ctx.value.row, ctx.value.params, signedIn, approved)),
                          inputs, k + 2)
  {
    hide Validate;
    var f := ConsentStep(db, Submit(id, signedIn, approved), inputs[k]);
    ServeStep(cfg, db, Consenting(Submit(id, signedIn, approved)), inputs, k, f);
    if f.next.Consenting? {
      var g := ConsentStep(db, f.next.consenting, inputs[k + 1]);
      ServeStep(cfg, db, f.next, inputs, k + 1, g);
      if g.next.Consenting? {
        ServeStep(cfg, db, g.next, inputs, k + 2, ConsentStep(db, g.next.consenting, inputs[k + 2]));
      }
    }
  }

  /** From the context on. */
  lemma ShownServed(cfg: Config, db: Db, id: string, now: int, session: Session, inputs: seq<Input>, k: nat)
    requires k + 2 <= |inputs| && ContextOf(db, id, now).Some?
    ensures var c := ContextOf(db, id, now).value;
            var reauthenticate := NeedsReauthentication(session, c.request, FloorSec(inputs[k].now));
            && (!reauthenticate ==> session.Some?)
            && Serve(cfg, db, Viewing(CheckFor(id, c.row, c.params, session)), inputs, k)
               == if reauthenticate then (db, Done(Shown))
                  else Serve(cfg, db, Viewing(BindTo(id, session.value)), inputs, k + 1)
  {
    hide Validate;
    var c := ContextOf(db, id, now).value;
    assert session.None? ==> NeedsReauthentication(session, c.request, FloorSec(inputs[k].now)) by {
      NoSession(session, c.request, FloorSec(inputs[k].now));
    }
    hide NeedsReauthentication;
    ServeStep(cfg, db, Viewing(CheckFor(id, c.row, c.params, session)), inputs, k,
              ViewStep(db, CheckFor(id, c.row, c.params, session), inputs[k]));
  }

  lemma BoundServed(cfg: Config, db: Db, id: string, s: Sessions.LoginSession, inputs: seq<Input>, k: nat)
    requires k < |inputs|
    ensures Serve(cfg, db, Viewing(BindTo(id, s)), inputs, k)
            == (db.(interactions := BindSubject(db.interactions, id, s.sub, s.authTime * 1000, s.acr, s.amr)),
                Done(Shown))
  {
    ServeStep(cfg, db, Viewing(BindTo(id, s)), inputs, k, ViewStep(db, BindTo(id, s), inputs[k]));
  }

  /** What showing an interaction comes to: nothing if it is not open; else the form, and
      the interaction is bound to the session exactly if the session is fresh enough for
      the request; without that it is the login form, and nothing changes. */
  ghost predicate ShownAs(db: Tables.Db, after: Tables.Db, id: string, session: Session, inputs: seq<Input>, k: nat,
                          o: Outcome)
    requires k + 3 <= |inputs|
  {
    if !ContextOpen(db, id, inputs[k].now) then o == Rejected && after == db
    else
      var row := db.interactions[id];
      && o == Shown && RequestNow(db, row.clientId, row.requestUri).Ok?
      && if FreshFor(session, RequestNow(db, row.clientId, row.requestUri).value, FloorSec(inputs[k + 2].now)) then
           after == db.(interactions := db.interactions[id := row.(
                          subject := Some(session.value.sub), authTime := Some(session.value.authTime * 1000),
                          acr := session.value.acr, amr := session.value.amr)])
         else after == db
  }

  lemma ShownExactly(db: Tables.Db, id: string, session: Session, inputs: seq<Input>, k: nat)
    requires k + 3 <= |inputs|
    ensures var ctx := ContextOf(db, id, inputs[k].now);
            if ctx.None? then ShownAs(db, db, id, session, inputs, k, Rejected)
            else if NeedsReauthentication(session, ctx.value.request, FloorSec(inputs[k + 2].now)) then
              ShownAs(db, db, id, session, inputs, k, Shown)
            else
              && session.Some?
              && var s := session.value;
              ShownAs(db, db.(interactions := BindSubject(db.interactions, id, s.sub, s.authTime * 1000, s.acr, s.amr)),
                      id, session, inputs, k, Shown)
  {
    ContextExactly(db, id, inputs[k].now);
    var ctx := ContextOf(db, id, inputs[k].now);
    if ctx.Some? {
      FreshExactly(session, ctx.value.request, FloorSec(inputs[k + 2].now));
    }
    hide ContextOf, NeedsReauthentication, FreshFor, RequestOpen, Validate, Lift;
  }

  method ShowInteraction(st: Storage, cfg: Config, id: string, session: Session, inputs: seq<Input>, k: nat)
    returns (o: Outcome)
    requires st.Valid() && k + 4 <= |inputs| && st.interactions.clock <= inputs[k].now == inputs[k + 1].now
    modifies st.interactions
    ensures st.Valid()
    ensures Serve(cfg, old(st.Db()), Viewing(Open(id, session)), inputs, k) == (st.Db(), Done(o))
    ensures Kept(cfg, old(st.Db()), Viewing(Open(id, session)), inputs, k, st.Db())
    ensures ShownAs(old(st.Db()), st.Db(), id, session, inputs, k, o)
  {
    KeptOnceServed(cfg, st.Db(), Viewing(Open(id, session)), inputs, k);
    hide Kept, Serve, NeedsReauthentication, ContextOf, BindSubject, ShownAs;
    ShownExactly(st.Db(), id, session, inputs, k);
    ViewingServed(cfg, st.Db(), id, session, inputs, k);
    var ctx := LoadInteractionContext(st, id, inputs[k].now);
    if ctx.None? {
      return Rejected;
    }
    ShownServed(cfg, st.Db(), id, inputs[k].now, session, inputs, k + 2);
    if NeedsReauthentication(session, ctx.value.request, FloorSec(inputs[k + 2].now)) {
      return Shown;
    }
    var s := session.value;
    BoundServed(cfg, st.Db(), id, s, inputs, k + 3);
    st.interactions.SetSubject(id, s.sub, s.authTime * 1000, s.acr, s.amr);
    return Shown;
  }

  lemma RecheckServed(cfg: Config, db: Db, id: string, now: int, signedIn: Sessions.LoginSession, approved: bool,
                      inputs: seq<Input>, k: nat)
    requires k + 2 <= |inputs| && ContextOf(db, id, now).Some?
    ensures var c := ContextOf(db, id, now).value;
            Serve(cfg, db, Consenting(Recheck(id, c.row, c.params, signedIn, approved)), inputs, k)
            == if c.row.subject != Some(signedIn.sub) then (db, Done(Rejected))
               else Serve(cfg, db,
                          Consenting(Close(id, Ask(c.row.requestUri, c.request, c.client, UserOf(signedIn)), approved)),
                          inputs, k + 1)
  {
    hide Validate;
    var c := ContextOf(db, id, now).value;
    ServeStep(cfg, db, Consenting(Recheck(id, c.row, c.params, signedIn, approved)), inputs, k,
              ConsentStep(db, Recheck(id, c.row, c.params, signedIn, approved), inputs[k]));
  }

  lemma CloseServed(cfg: Config, db: Db, id: string, ask: Ask, approved: bool, inputs: seq<Input>, k: nat)
    requires k + 2 <= |inputs|
    ensures Serve(cfg, db, Consenting(Close(id, ask, approved)), inputs, k)
            == if FindInteraction(db.interactions, id, inputs[k].now).None? then (db, Done(Rejected))
               else Serve(cfg, db.(interactions := CompleteInteraction(db.interactions, id, inputs[k].now)),
                          Issuing(if approved then Decide(ask) else Issuing.Decline(ask.uri)), inputs, k + 1)
  {
    ServeStep(cfg, db, Consenting(Close(id, ask, approved)), inputs, k,
              ConsentStep(db, Close(id, ask, approved), inputs[k]));
  }

  /** Both ends of the consent form: the interaction is completed first, then a
      refusal consumes the pushed request, or an approval is decided. */
  /** What closing an interaction comes to. */
  ghost predicate Decided(db: Tables.Db, after: Tables.Db, id: string, uri: string, approved: bool, inputs: seq<Input>,
                          k: nat, o: Outcome)
    requires k + 3 <= |inputs|
  {
    if FindInteraction(db.interactions, id, inputs[k].now).None? then o == Rejected && after == db
    else
      && after.interactions == CompleteInteraction(db.interactions, id, inputs[k].now)
      && (o.Code? <==> approved && inputs[k + 1].allowed && Takable(db.par, uri, inputs[k + 2].now))
      && (o.Declined? <==> !approved || !inputs[k + 1].allowed)
      && (!o.Code? ==> after.grants == db.grants && after.codes == db.codes && (o.Declined? || o == Rejected))
  }

  /** What a submitted form comes to. It counts only on an open interaction that was bound
      to the subject of the session, which it then completes; a code takes the user's
      approval, the policy's, and a pushed request that is still unused. */
  ghost predicate SubmittedAs(db: Tables.Db, after: Tables.Db, id: string, signedIn: Sessions.LoginSession,
                              approved: bool, inputs: seq<Input>, k: nat, o: Outcome)
    requires k + 6 <= |inputs|
  {
    if !(ContextOpen(db, id, inputs[k].now) && db.interactions[id].subject == Some(signedIn.sub)
         && inputs[k + 3].now < db.interactions[id].expiresAt)
    then o == Rejected && after == db
    else
      var row := db.interactions[id];
      && after.interactions == db.interactions[id := row.(completedAt := Some(inputs[k + 3].now))]
      && (o.Code? <==> approved && inputs[k + 4].allowed && Takable(db.par, row.requestUri, inputs[k + 5].now))
      && (o.Declined? <==> !approved || !inputs[k + 4].allowed)
      && (!o.Code? ==> after.grants == db.grants && after.codes == db.codes && (o.Declined? || o == Rejected))
  }

  lemma NotSubmitted(db: Tables.Db, id: string, signedIn: Sessions.LoginSession, approved: bool, inputs: seq<Input>,
                     k: nat)
    requires k + 6 <= |inputs|
    ensures var ctx := ContextOf(db, id, inputs[k].now);
            ctx.None? || ctx.value.row.subject != Some(signedIn.sub) ==>
              SubmittedAs(db, db, id, signedIn, approved, inputs, k, Rejected)
  {
    ContextExactly(db, id, inputs[k].now);
    hide ContextOf, RequestOpen, Validate, Takable;
  }

  lemma Submitted(db: Tables.Db, after: Tables.Db, id: string, signedIn: Sessions.LoginSession, approved: bool,
                  inputs: seq<Input>, k: nat, o: Outcome)
    requires k + 6 <= |inputs| && ContextOf(db, id, inputs[k].now).Some?
    requires var row := ContextOf(db, id, inputs[k].now).value.row;
             row.subject == Some(signedIn.sub) && Decided(db, after, id, row.requestUri, approved, inputs, k + 3, o)
    ensures SubmittedAs(db, after, id, signedIn, approved, inputs, k, o)
  {
    ContextExactly(db, id, inputs[k].now);
    hide ContextOf, RequestOpen, Validate, Takable;
  }

  method SubmitConsent(st: Storage, cfg: Config, id: string, signedIn: Sessions.LoginSession, approved: bool,
                       inputs: seq<Input>, k: nat)
    returns (o: Outcome)
    requires st.Valid() && k + 8 <= |inputs|
    requires st.interactions.clock <= inputs[k].now == inputs[k + 1].now && inputs[k].now <= inputs[k + 3].now
    modifies st.par, st.grants, st.codes, st.interactions
    ensures st.Valid()
    ensures Serve(cfg, old(st.Db()), Consenting(Submit(id, signedIn, approved)), inputs, k) == (st.Db(), Done(o))
    ensures Kept(cfg, old(st.Db()), Consenting(Submit(id, signedIn, approved)), inputs, k, st.Db())
    ensures SubmittedAs(old(st.Db()), st.Db(), id, signedIn, approved, inputs, k, o)
    // The grant behind a code is the client's and names the subject that approved; a
    // refusal leaves a request that nobody can open again.
    ensures o.Code? ==>
              && id in old(st.interactions.reference) && old(st.interactions.reference)[id].clientId in st.clients.rows
              && GrantedFor(cfg, old(st.Db()), st.Db(), old(st.interactions.reference)[id].requestUri, o.code,
                            st.clients.rows[old(st.interactions.reference)[id].clientId].clientId, signedIn.sub)
    ensures o.Declined? ==>
              id in old(st.interactions.reference)
              && Gone(st.par.rows, old(st.interactions.reference)[id].requestUri,
                      Max(inputs[k + 4].now, inputs[k + 5].now))
  {
    KeptOnceServed(cfg, st.Db(), Consenting(Submit(id, signedIn, approved)), inputs, k);
    hide Kept, GrantedFor, Gone, Serve, ContextOf, FindInteraction, CompleteInteraction, Validate, SubmittedAs, Decided;
    NotSubmitted(st.Db(), id, signedIn, approved, inputs, k);
    ConsentServed(cfg, st.Db(), id, signedIn, approved, inputs, k);
    var ctx := LoadInteractionContext(st, id, inputs[k].now);
    if ctx.None? {
      return Rejected;
    }
    var c := ctx.value;
    RecheckServed(cfg, st.Db(), id, inputs[k].now, signedIn, approved, inputs, k + 2);
    if c.row.subject != Some(signedIn.sub) {
      return Rejected;
    }
    var ask := Ask(c.row.requestUri, c.request, c.client, UserOf(signedIn));
    ContextHolds(st.Db(), id, inputs[k].now);
    o := CloseAndDecide(st, cfg, id, ask, approved, inputs, k + 3);
    Submitted(old(st.Db()), st.Db(), id, signedIn, approved, inputs, k, o);
  }

  method CloseAndDecide(st: Storage, cfg: Config, id: string, ask: Ask, approved: bool, inputs: seq<Input>, k: nat)
    returns (o: Outcome)
    requires st.Valid() && k + 5 <= |inputs| && st.interactions.clock <= inputs[k].now
    modifies st.par, st.grants, st.codes, st.interactions
    ensures st.Valid()
    ensures Serve(cfg, old(st.Db()), Consenting(Close(id, ask, approved)), inputs, k) == (st.Db(), Done(o))
    ensures Decided(old(st.Db()), st.Db(), id, ask.uri, approved, inputs, k, o)
    ensures o.Code? ==>
              GrantedFor(cfg, old(st.Db()), st.Db(), ask.uri, o.code, ask.client.clientId, ask.user.sub)
    ensures o.Declined? ==> Gone(st.par.rows, ask.uri, Max(inputs[k + 1].now, inputs[k + 2].now))
  {
    CloseServed(cfg, st.Db(), id, ask, approved, inputs, k);
    hide GrantedFor, Gone, Serve, FindInteraction, CompleteInteraction;
    ghost var before := st.interactions.reference;
    var done := st.interactions.Complete(id, inputs[k].now);
    if done.None? {
      NothingCompleted(before, id, inputs[k].now);
      return Rejected;
    }
    GrantedSame(cfg, old(st.Db()), st.Db(), ask.uri);
    if approved {
      o := DecideAndIssue(st, cfg, ask, inputs, k + 1);
    } else {
      o := ConsumeDeclined(st, cfg, ask.uri, inputs, k + 1);
    }
    GoneLater(st.par.rows, ask.uri, inputs[k + 1].now, inputs[k + 2].now);
  }

  lemma GoneLater(rows: map<string, ParRow>, uri: string, a: int, b: int)
    ensures Gone(rows, uri, a) || Gone(rows, uri, b) ==> Gone(rows, uri, Max(a, b))
  {
  }

  lemma ContextHolds(db: Db, id: string, now: int)
    requires ContextOf(db, id, now).Some?
    ensures var c := ContextOf(db, id, now).value;
            && FindInteraction(db.interactions, id, now) == Some(c.row) && id in db.interactions
            && db.interactions[id] == c.row
            && c.row.clientId in db.clients && db.clients[c.row.clientId] == c.client
  {
    hide Validate;
  }

  /** Completing the interaction does not touch what a code is granted for. */
  lemma GrantedSame(cfg: Config, db: Db, db1: Db, uri: string)
    requires db1.par == db.par
    ensures forall db', code, clientId, sub | GrantedFor(cfg, db1, db', uri, code, clientId, sub) ::
              GrantedFor(cfg, db, db', uri, code, clientId, sub)
  {
  }

  lemma NothingCompleted(rows: Interactions, id: string, now: int)
    requires FindInteraction(rows, id, now).None?
    ensures CompleteInteraction(rows, id, now) == rows
  {
  }

  // -------------------------------------------------------- token endpoint

  /** What presenting a code does to the storage, whoever presents it. An open code is
      used up, and no more. A used one ends its grant: the grant is revoked with every
      token of it, and everything else is as it was. Any other text changes nothing. */
  ghost predicate Presented(db: Tables.Db, after: Tables.Db, hash: string, now: int) {
    if CodeOpen(db.codes, hash, now) then
      after == db.(codes := db.codes[hash := db.codes[hash].(consumedAt := Some(now))])
    else if hash in db.codes && db.codes[hash].consumedAt.Some? then
      Ended(db, after, db.codes[hash].grantId)
    else after == db
  }

  /** The grant is revoked with every token of it, and everything else is as it was. */
  ghost predicate Ended(db: Tables.Db, after: Tables.Db, g: string) {
    && after == db.(grants := after.grants, access := after.access, refresh := after.refresh)
    && after.grants.Keys == db.grants.Keys && after.access.Keys == db.access.Keys
    && after.refresh.Keys == db.refresh.Keys
    && (forall x | x in after.grants ::
          var was, row := db.grants[x], after.grants[x];
          if x == g then row.revokedAt.Some? && row == was.(revokedAt := row.revokedAt) else row == was)
    && (forall j | j in after.access ::
          var was, row := db.access[j], after.access[j];
          if was.grantId == g then row.revokedAt.Some? && row == was.(revokedAt := row.revokedAt) else row == was)
    && (forall h | h in after.refresh ::
          var was, row := db.refresh[h], after.refresh[h];
          if was.grantId == g then row.revokedAt.Some? && row == was.(revokedAt := row.revokedAt) else row == was)
  }

  lemma CutsEnd(db: Tables.Db, after: Tables.Db, g: string, now: int)
    requires after == db.(grants := RevokeGrant(db.grants, g, now), access := RevokeAccessOf(db.access, g, now),
                          refresh := RevokeRefreshOf(db.refresh, g, now))
    ensures Ended(db, after, g)
  {
  }

  lemma EndedIsShut(db: Tables.Db, after: Tables.Db, g: string)
    ensures Ended(db, after, g) && g in db.grants ==> Shut(after, g)
  {
  }

  /** Single use, the cascade on replay, and every binding of the code. */
  method RedeemAuthorizationCode(st: Storage, cfg: Config, client: Client, jkt: string, code: string,
                                 redirectUri: Option<string>, verifier: Option<string>, inputs: seq<Input>, k: nat)
    returns (r: Result<(CodeRow, GrantRow), Outcome>)
    requires st.Valid() && k + 4 <= |inputs|
    modifies st.codes, st.grants, st.accessTokens, st.refreshTokens
    ensures var served := Serve(cfg, old(st.Db()), Redeeming(Present(client, jkt, code, redirectUri, verifier)),
                                inputs, k);
            && (r.Err? ==> r.error == Rejected && served == (st.Db(), Done(Rejected)))
            && (r.Ok? ==>
                  && r.value.0.grantId in st.grants.rows && r.value.1 == st.grants.rows[r.value.0.grantId]
                  && served == Serve(cfg, st.Db(), Minting(InsertAccess(
                                     Earned(client, r.value.0.grantId, r.value.1.subject, r.value.1.scope,
                                            FromCode(cfg.sha(code), redirectUri, verifier, jkt)),
                                     "refresh_token" in client.grantTypes)), inputs, k + 2))
    // Success takes an open code and all that its holder has to show, and an open grant.
    ensures var rows, hash := old(st.codes.rows), cfg.sha(code);
            && (r.Ok? <==>
                  && CodeOpen(rows, hash, inputs[k].now)
                  && HolderShows(cfg, rows[hash], client.clientId, jkt, redirectUri, verifier)
                  && GrantOpen(old(st.grants.rows), rows[hash].grantId))
            && (r.Ok? ==> r.value.0 == rows[hash])
    ensures Presented(old(st.Db()), st.Db(), cfg.sha(code), inputs[k].now)
  {
    hide Ended, HolderShows;
    var now := inputs[k].now;
    var hash := cfg.sha(code);
    ghost var mint := FromCode(hash, redirectUri, verifier, jkt);
    ServeStep(cfg, st.Db(), Redeeming(Present(client, jkt, code, redirectUri, verifier)), inputs, k,
              RedeemStep(cfg, st.Db(), Present(client, jkt, code, redirectUri, verifier), inputs[k]));
    var result := st.codes.Redeem(hash, now);
    if result.Replayed? {
      Cascade(st, cfg, result.row.grantId, now, inputs, k + 1);
      return Err(Rejected);
    }
    if result.Invalid? {
      return Err(Rejected);
    }
    var record := result.row;
    HolderExactly(cfg, record, client.clientId, jkt, redirectUri, verifier, hash);
    if record.clientId != client.clientId {
      return Err(Rejected);
    }
    if redirectUri != Some(record.redirectUri) {
      return Err(Rejected);
    }
    if verifier.None? || !VerifyS256(cfg, verifier, record.codeChallenge) {
      return Err(Rejected);
    }
    if record.dpopJkt.Some? && record.dpopJkt != Some(jkt) {
      return Err(Rejected);
    }
    ServeStep(cfg, st.Db(), Redeeming(FindGrant(client, record, mint)), inputs, k + 1,
              RedeemStep(cfg, st.Db(), FindGrant(client, record, mint), inputs[k + 1]));
    var grant := st.grants.Find(record.grantId);
    if grant.None? || grant.value.revokedAt.Some? {
      return Err(Rejected);
    }
    return Ok((record, grant.value));
  }

  method Cascade(st: Storage, cfg: Config, grantId: string, now: Ms, inputs: seq<Input>, k: nat)
    requires st.Valid() && k + 3 <= |inputs|
    modifies st.grants, st.accessTokens, st.refreshTokens
    ensures Serve(cfg, old(st.Db()), Redeeming(CascadeGrant(grantId, now)), inputs, k) == (st.Db(), Done(Rejected))
    ensures Ended(old(st.Db()), st.Db(), grantId)
  {
    hide Ended;
    ghost var was := st.Db();
    ServeStep(cfg, st.Db(), Redeeming(CascadeGrant(grantId, now)), inputs, k,
              RedeemStep(cfg, st.Db(), CascadeGrant(grantId, now), inputs[k]));
    st.grants.Revoke(grantId, now);
    ServeStep(cfg, st.Db(), Redeeming(CascadeAccess(grantId, now)), inputs, k + 1,
              RedeemStep(cfg, st.Db(), CascadeAccess(grantId, now), inputs[k + 1]));
    st.accessTokens.RevokeByGrant(grantId, now);
    ServeStep(cfg, st.Db(), Redeeming(CascadeRefresh(grantId, now)), inputs, k + 2,
              RedeemStep(cfg, st.Db(), CascadeRefresh(grantId, now), inputs[k + 2]));
    st.refreshTokens.RevokeByGrant(grantId, now);
    CutsEnd(was, st.Db(), grantId, now);
  }

  method IssueAccessToken(st: Storage, cfg: Config, e: Earned, input: Input) returns (jti: string)
    requires st.Valid()
    modifies st.accessTokens
    ensures jti == input.random
    ensures st.accessTokens.rows ==
            old(st.accessTokens.rows)[jti :=
              AccessRow(e.grantId, e.client.clientId, e.subject, e.scope, Some(e.mint.jkt),
                        input.now + cfg.accessTtlMs, None)]
  {
    jti := input.random;
    var expiresAt := input.now + cfg.accessTtlMs;
    var row := AccessRow(e.grantId, e.client.clientId, e.subject, e.scope, Some(e.mint.jkt), expiresAt, None);
    st.accessTokens.Insert(jti, row);
  }

  method IssueRefreshToken(st: Storage, cfg: Config, e: Earned, input: Input) returns (token: string)
    requires st.Valid()
    modifies st.refreshTokens
    ensures token == input.random
    ensures st.refreshTokens.rows ==
            old(st.refreshTokens.rows)[cfg.sha(token) := RefreshRow(e.grantId, e.client.clientId, e.scope,
                                                                    input.now + cfg.refreshTtlMs, None)]
  {
    token := input.random;
    st.refreshTokens.Insert(cfg.sha(token),
                            RefreshRow(e.grantId, e.client.clientId, e.scope, input.now + cfg.refreshTtlMs, None));
  }

  /** Exactly the tokens earned: an access token bound to the key presented, and a refresh
      token, stored by its hash, if it is asked for. */
  ghost predicate IssuedTo(cfg: Config, db: Tables.Db, after: Tables.Db, e: Earned, withRefreshToken: bool,
                           inputs: seq<Input>, k: nat, o: Outcome)
    requires k + 2 <= |inputs|
  {
    && o == Tokens(inputs[k].random, if withRefreshToken then Some(inputs[k + 1].random) else None)
    && after == db.(
         access := db.access[inputs[k].random :=
           AccessRow(e.grantId, e.client.clientId, e.subject, e.scope, Some(e.mint.jkt),
                     inputs[k].now + cfg.accessTtlMs, None)],
         refresh := if !withRefreshToken then db.refresh else
           db.refresh[cfg.sha(inputs[k + 1].random) :=
             RefreshRow(e.grantId, e.client.clientId, e.scope, inputs[k + 1].now + cfg.refreshTtlMs, None)])
  }

  method IssueTokenSet(st: Storage, cfg: Config, e: Earned, withRefreshToken: bool, inputs: seq<Input>, k: nat)
    returns (o: Outcome)
    requires st.Valid() && k + 2 <= |inputs|
    modifies st.accessTokens, st.refreshTokens
    ensures Serve(cfg, old(st.Db()), Minting(InsertAccess(e, withRefreshToken)), inputs, k) == (st.Db(), Done(o))
    ensures IssuedTo(cfg, old(st.Db()), st.Db(), e, withRefreshToken, inputs, k, o)
  {
    ServeStep(cfg, st.Db(), Minting(InsertAccess(e, withRefreshToken)), inputs, k,
              MintStep(cfg, InsertAccess(e, withRefreshToken), inputs[k]));
    var jti := IssueAccessToken(st, cfg, e, inputs[k]);
    var refreshToken: Option<string> := None;
    if withRefreshToken {
      ServeStep(cfg, st.Db(), Minting(InsertRefresh(e, jti)), inputs, k + 1,
                MintStep(cfg, InsertRefresh(e, jti), inputs[k + 1]));
      var token := IssueRefreshToken(st, cfg, e, inputs[k + 1]);
      refreshToken := Some(token);
    }
    return Tokens(jti, refreshToken);
  }

  method HandleAuthorizationCode(st: Storage, cfg: Config, client: Client, jkt: string, code: string,
                                 redirectUri: Option<string>, verifier: Option<string>, inputs: seq<Input>, k: nat)
    returns (o: Outcome)
    requires st.Valid() && k + 4 <= |inputs|
    modifies st.codes, st.grants, st.accessTokens, st.refreshTokens
    ensures Serve(cfg, old(st.Db()), Redeeming(Present(client, jkt, code, redirectUri, verifier)), inputs, k)
            == (st.Db(), Done(o))
    ensures Kept(cfg, old(st.Db()), Redeeming(Present(client, jkt, code, redirectUri, verifier)), inputs, k, st.Db())
    // Tokens take an open code and all that its holder has to show, and an open grant.
    ensures var rows, hash := old(st.codes.rows), cfg.sha(code);
            o.Tokens? <==>
              && CodeOpen(rows, hash, inputs[k].now)
              && HolderShows(cfg, rows[hash], client.clientId, jkt, redirectUri, verifier)
              && GrantOpen(old(st.grants.rows), rows[hash].grantId)
    ensures !o.Tokens? ==> o == Rejected && Presented(old(st.Db()), st.Db(), cfg.sha(code), inputs[k].now)
    // They are the grant's, of its subject and scope, bound to the key presented.
    ensures o.Tokens? ==>
              && var db, hash := old(st.Db()), cfg.sha(code);
              && var row := db.codes[hash];
              && var earned := Earned(client, row.grantId, db.grants[row.grantId].subject, db.grants[row.grantId].scope,
                                      FromCode(hash, redirectUri, verifier, jkt));
              IssuedTo(cfg, db.(codes := db.codes[hash := row.(consumedAt := Some(inputs[k].now))]), st.Db(), earned,
                       "refresh_token" in client.grantTypes, inputs, k + 2, o)
    // A used code shuts its grant.
    ensures var hash := cfg.sha(code);
            hash in old(st.codes.rows) && old(st.codes.rows)[hash].consumedAt.Some?
            && old(st.codes.rows)[hash].grantId in old(st.grants.rows) ==>
              Shut(st.Db(), old(st.codes.rows)[hash].grantId)
  {
    KeptOnceServed(cfg, st.Db(), Redeeming(Present(client, jkt, code, redirectUri, verifier)), inputs, k);
    hide Kept, Serve, HolderShows, Ended, Shut, IssuedTo;
    var redeemed := RedeemAuthorizationCode(st, cfg, client, jkt, code, redirectUri, verifier, inputs, k);
    if redeemed.Err? {
      if cfg.sha(code) in old(st.codes.rows) {
        EndedIsShut(old(st.Db()), st.Db(), old(st.codes.rows)[cfg.sha(code)].grantId);
      }
      return redeemed.error;
    }
    var (record, grant) := redeemed.value;
    o := IssueTokenSet(st, cfg,
                       Earned(client, record.grantId, grant.subject, grant.scope,
                              FromCode(cfg.sha(code), redirectUri, verifier, jkt)),
                       "refresh_token" in client.grantTypes, inputs, k + 2);
  }

  method LoadRefreshGrant(st: Storage, cfg: Config, client: Client, token: string, now: Ms)
    returns (r: Result<(RefreshRow, GrantRow), Outcome>)
    ensures r.Err? ==> r.error == Rejected
    ensures var rows, hash := st.refreshTokens.rows, cfg.sha(token);
            && (r.Ok? <==> hash in rows && rows[hash].revokedAt.None? && rows[hash].expiresAt > now
                           && rows[hash].clientId == client.clientId
                           && rows[hash].grantId in st.grants.rows
                           && st.grants.rows[rows[hash].grantId].revokedAt.None?)
            && (r.Ok? ==> r.value == (rows[hash], st.grants.rows[rows[hash].grantId]))
  {
    var rec := st.refreshTokens.FindByHash(cfg.sha(token));
    if rec.None? || rec.value.revokedAt.Some? || rec.value.expiresAt <= now {
      return Err(Rejected);
    }
    if rec.value.clientId != client.clientId {
      return Err(Rejected);
    }
    var grant := st.grants.Find(rec.value.grantId);
    if grant.None? || grant.value.revokedAt.Some? {
      return Err(Rejected);
    }
    return Ok((rec.value, grant.value));
  }

  /** The scope that a refresh asks for, or all of the refresh token's if it names none. */
  ghost function AskedOrAll(param: Option<string>, granted: string): string {
    if param.Some? && exists c :: c in param.value && !Text.IsSpace(c) then param.value else granted
  }

  ghost predicate Refreshes(db: Tables.Db, hash: string, clientId: string, scopeParam: Option<string>, now: int) {
    && hash in db.refresh && db.refresh[hash].revokedAt.None? && now < db.refresh[hash].expiresAt
    && db.refresh[hash].clientId == clientId && GrantOpen(db.grants, db.refresh[hash].grantId)
    && Text.WordsWithin(AskedOrAll(scopeParam, db.refresh[hash].scope), db.refresh[hash].scope)
  }

  lemma ScopesExactly(param: Option<string>, granted: string)
    ensures RequestedScope(param, granted) == AskedOrAll(param, granted)
    ensures ScopeSubset(RequestedScope(param, granted), granted)
            <==> Text.WordsWithin(AskedOrAll(param, granted), granted)
  {
    Text.WithinExactly(AskedOrAll(param, granted), granted);
    hide Text.Words, Text.WordsWithin;
  }

  /** No rotation: the refresh token stays as it is. */
  method HandleRefreshToken(st: Storage, cfg: Config, client: Client, jkt: string, token: string,
                            scopeParam: Option<string>, inputs: seq<Input>, k: nat)
    returns (o: Outcome)
    requires st.Valid() && k + 4 <= |inputs|
    modifies st.accessTokens, st.refreshTokens
    ensures Serve(cfg, old(st.Db()), Refreshing(PresentRefresh(client, jkt, token, scopeParam)), inputs, k)
            == (st.Db(), Done(o))
    ensures Kept(cfg, old(st.Db()), Refreshing(PresentRefresh(client, jkt, token, scopeParam)), inputs, k, st.Db())
    // A token takes a live refresh token of this client, an open grant, and no word of
    // scope beyond the refresh token's.
    ensures o.Tokens? <==> Refreshes(old(st.Db()), cfg.sha(token), client.clientId, scopeParam, inputs[k].now)
    ensures o.Tokens? ==>
              && var db, hash := old(st.Db()), cfg.sha(token);
              && var row := db.refresh[hash];
              && var scope := AskedOrAll(scopeParam, row.scope);
              IssuedTo(cfg, db, st.Db(),
                       Earned(client, row.grantId, db.grants[row.grantId].subject, scope, FromRefresh(hash, jkt)),
                       false, inputs, k + 2, o)
    ensures !o.Tokens? ==> o == Rejected && st.Db() == old(st.Db())
  {
    KeptOnceServed(cfg, st.Db(), Refreshing(PresentRefresh(client, jkt, token, scopeParam)), inputs, k);
    hide Kept, RequestedScope, ScopeSubset, IssuedTo, AskedOrAll, Text.WordsWithin;
    ghost var first := PresentRefresh(client, jkt, token, scopeParam);
    ServeStep(cfg, st.Db(), Refreshing(first), inputs, k, RefreshStep(cfg, st.Db(), first, inputs[k]));
    ghost var f := RefreshStep(cfg, st.Db(), first, inputs[k]);
    if f.next.Refreshing? {
      ServeStep(cfg, st.Db(), f.next, inputs, k + 1, RefreshStep(cfg, st.Db(), f.next.refreshing, inputs[k + 1]));
    }
    var loaded := LoadRefreshGrant(st, cfg, client, token, inputs[k].now);
    if loaded.Err? {
      return loaded.error;
    }
    var (rec, grant) := loaded.value;
    ScopesExactly(scopeParam, rec.scope);
    var scope := RequestedScope(scopeParam, rec.scope);
    if !ScopeSubset(scope, rec.scope) {
      return Rejected;
    }
    var earned := Earned(client, rec.grantId, grant.subject, scope, FromRefresh(cfg.sha(token), jkt));
    o := IssueTokenSet(st, cfg, earned, false, inputs, k + 2);
  }

  // ------------------------------------------------------------- revocation

  /** One finder's turn. */
  lemma FinderServed(cfg: Config, db: Db, client: Client, token: string, tokenJti: Option<string>, finders: seq<Finder>,
                     inputs: seq<Input>, k: nat)
    requires finders != [] && k < |inputs|
    ensures var miss := Serve(cfg, db, Revoking(Resolve(client, token, tokenJti, finders[1..])), inputs, k + 1);
            Serve(cfg, db, Revoking(Resolve(client, token, tokenJti, finders)), inputs, k)
            == if finders[0].AccessFinder? then
                 if tokenJti.None? || tokenJti.value !in db.access then miss
                 else if db.access[tokenJti.value].clientId != client.clientId then (db, Done(Answered))
                 else Serve(cfg, db, Revoking(CutAccess(tokenJti.value)), inputs, k + 1)
               else
                 var hash := cfg.sha(token);
                 if hash !in db.refresh then miss
                 else if db.refresh[hash].clientId != client.clientId then (db, Done(Answered))
                 else Serve(cfg, db, Revoking(CutRefresh(hash, db.refresh[hash].grantId)), inputs, k + 1)
  {
    ServeStep(cfg, db, Revoking(Resolve(client, token, tokenJti, finders)), inputs, k,
              RevokeStep(cfg, db, Resolve(client, token, tokenJti, finders), inputs[k]));
  }

  lemma NotFoundServed(cfg: Config, db: Db, client: Client, token: string, tokenJti: Option<string>, inputs: seq<Input>,
                       k: nat)
    requires k < |inputs|
    ensures Serve(cfg, db, Revoking(Resolve(client, token, tokenJti, [])), inputs, k) == (db, Done(Answered))
  {
    ServeStep(cfg, db, Revoking(Resolve(client, token, tokenJti, [])), inputs, k,
              RevokeStep(cfg, db, Resolve(client, token, tokenJti, []), inputs[k]));
  }

  lemma CutAccessServed(cfg: Config, db: Db, jti: string, inputs: seq<Input>, k: nat)
    requires k < |inputs|
    ensures Serve(cfg, db, Revoking(CutAccess(jti)), inputs, k)
            == (db.(access := RevokeAccess(db.access, jti, inputs[k].now)), Done(Answered))
  {
    ServeStep(cfg, db, Revoking(CutAccess(jti)), inputs, k, RevokeStep(cfg, db, CutAccess(jti), inputs[k]));
  }

  /** No record that the token may stand for is the client's. */
  predicate NotOwn(db: Db, cfg: Config, client: Client, token: string, tokenJti: Option<string>) {
    && (tokenJti.Some? && tokenJti.value in db.access ==> db.access[tokenJti.value].clientId != client.clientId)
    && (cfg.sha(token) in db.refresh ==> db.refresh[cfg.sha(token)].clientId != client.clientId)
  }

  /** The finder finds a record for the token. */
  ghost predicate Hits(db: Tables.Db, hash: string, tokenJti: Option<string>, f: Finder) {
    if f.AccessFinder? then tokenJti.Some? && tokenJti.value in db.access else hash in db.refresh
  }

  ghost predicate FirstHit(db: Tables.Db, hash: string, tokenJti: Option<string>, order: seq<Finder>, n: int) {
    && 0 <= n < |order| && Hits(db, hash, tokenJti, order[n])
    && forall m | 0 <= m < n :: !Hits(db, hash, tokenJti, order[m])
  }

  /** The record found is this client's. */
  ghost predicate OwnHit(db: Tables.Db, hash: string, tokenJti: Option<string>, f: Finder, clientId: string)
    requires Hits(db, hash, tokenJti, f)
  {
    if f.AccessFinder? then db.access[tokenJti.value].clientId == clientId else db.refresh[hash].clientId == clientId
  }

  /** The access token is revoked, and nothing else changes. */
  ghost predicate AccessEnded(db: Tables.Db, after: Tables.Db, jti: string) {
    && after == db.(access := after.access) && after.access.Keys == db.access.Keys
    && forall j | j in after.access ::
         var was, row := db.access[j], after.access[j];
         if j == jti then row.revokedAt.Some? && row == was.(revokedAt := row.revokedAt) else row == was
  }

  /** The refresh token is revoked with the access tokens of its grant, and nothing else changes. */
  ghost predicate RefreshEnded(db: Tables.Db, after: Tables.Db, hash: string, g: string) {
    && after == db.(access := after.access, refresh := after.refresh)
    && after.access.Keys == db.access.Keys && after.refresh.Keys == db.refresh.Keys
    && (forall h | h in after.refresh ::
          var was, row := db.refresh[h], after.refresh[h];
          if h == hash then row.revokedAt.Some? && row == was.(revokedAt := row.revokedAt) else row == was)
    && (forall j | j in after.access ::
          var was, row := db.access[j], after.access[j];
          if was.grantId == g then row.revokedAt.Some? && row == was.(revokedAt := row.revokedAt) else row == was)
  }

  /** What a revocation comes to: the first finder that finds a record decides, and that
      record is ended if it is the client's own. */
  ghost predicate RevokedAs(db: Tables.Db, after: Tables.Db, clientId: string, hash: string, tokenJti: Option<string>,
                            order: seq<Finder>) {
    && ((forall n | 0 <= n < |order| :: !Hits(db, hash, tokenJti, order[n])) ==> after == db)
    && forall n | FirstHit(db, hash, tokenJti, order, n) ::
         if !OwnHit(db, hash, tokenJti, order[n], clientId) then after == db
         else if order[n].AccessFinder? then AccessEnded(db, after, tokenJti.value)
         else RefreshEnded(db, after, hash, db.refresh[hash].grantId)
  }

  lemma AccessCut(db: Tables.Db, jti: string, now: int)
    requires jti in db.access
    ensures AccessEnded(db, db.(access := RevokeAccess(db.access, jti, now)), jti)
  {
  }

  lemma RefreshCut(db: Tables.Db, hash: string, g: string, now: int)
    requires hash in db.refresh
    ensures RefreshEnded(db, db.(access := RevokeAccessOf(db.access, g, now),
                                 refresh := RevokeRefresh(db.refresh, hash, now)), hash, g)
  {
  }

  lemma NoneFound(db: Tables.Db, clientId: string, hash: string, tokenJti: Option<string>, order: seq<Finder>)
    requires forall n | 0 <= n < |order| :: !Hits(db, hash, tokenJti, order[n])
    ensures RevokedAs(db, db, clientId, hash, tokenJti, order)
  {
    hide Hits;
  }

  lemma OneFirst(db: Tables.Db, after: Tables.Db, clientId: string, hash: string, tokenJti: Option<string>,
                 order: seq<Finder>, n: int)
    requires FirstHit(db, hash, tokenJti, order, n)
    requires if !OwnHit(db, hash, tokenJti, order[n], clientId) then after == db
             else if order[n].AccessFinder? then AccessEnded(db, after, tokenJti.value)
             else RefreshEnded(db, after, hash, db.refresh[hash].grantId)
    ensures RevokedAs(db, after, clientId, hash, tokenJti, order)
  {
    hide AccessEnded, RefreshEnded, Hits, OwnHit;
  }

  datatype Found = NotFound | Foreign | OwnAccess(jti: string) | OwnRefresh(hash: string, grantId: string)

  /** `resolveToken` and the owner check: the finders in order, the first hit decides. */
  method Lookup(st: Storage, cfg: Config, client: Client, token: string, tokenJti: Option<string>, order: seq<Finder>,
                inputs: seq<Input>, k: nat)
    returns (found: Found, n: nat)
    requires st.Valid() && k + |order| + 2 <= |inputs|
    ensures n <= |order|
    ensures var served := Serve(cfg, st.Db(), Revoking(Resolve(client, token, tokenJti, order)), inputs, k);
            && (found.NotFound? || found.Foreign? ==> served == (st.Db(), Done(Answered)))
            && (found.OwnAccess? ==> served == Serve(cfg, st.Db(), Revoking(CutAccess(found.jti)), inputs, k + n))
            && (found.OwnRefresh? ==>
                  served == Serve(cfg, st.Db(), Revoking(CutRefresh(found.hash, found.grantId)), inputs, k + n))
    ensures found.OwnAccess? ==>
              tokenJti == Some(found.jti) && found.jti in st.accessTokens.rows
              && st.accessTokens.rows[found.jti].clientId == client.clientId
    ensures found.OwnRefresh? ==>
              && found.hash == cfg.sha(token) && found.hash in st.refreshTokens.rows
              && st.refreshTokens.rows[found.hash].clientId == client.clientId
              && st.refreshTokens.rows[found.hash].grantId == found.grantId
    ensures found.NotFound? ==> forall m | 0 <= m < |order| :: !Hits(st.Db(), cfg.sha(token), tokenJti, order[m])
    ensures !found.NotFound? ==>
              && FirstHit(st.Db(), cfg.sha(token), tokenJti, order, n - 1)
              && (found.Foreign? <==> !OwnHit(st.Db(), cfg.sha(token), tokenJti, order[n - 1], client.clientId))
              && (found.OwnAccess? ==> order[n - 1].AccessFinder?)
              && (found.OwnRefresh? ==> order[n - 1].RefreshFinder?)
  {
    hide Serve;
    var hash := cfg.sha(token);
    n := 0;
    while n < |order|
      invariant n <= |order|
      invariant forall m | 0 <= m < n :: !Hits(st.Db(), hash, tokenJti, order[m])
      invariant Serve(cfg, st.Db(), Revoking(Resolve(client, token, tokenJti, order)), inputs, k)
                == Serve(cfg, st.Db(), Revoking(Resolve(client, token, tokenJti, order[n..])), inputs, k + n)
    {
      FinderServed(cfg, st.Db(), client, token, tokenJti, order[n..], inputs, k + n);
      assert order[n..][1..] == order[n + 1..] && order[..n + 1] == order[..n] + [order[n]];
      n := n + 1;
      if order[n - 1].AccessFinder? {
        var row: Option<AccessRow> := None;
        if tokenJti.Some? {
          row := st.accessTokens.FindByJti(tokenJti.value);
        }
        if row.Some? {
          return if row.value.clientId != client.clientId then Foreign else OwnAccess(tokenJti.value), n;
        }
      } else {
        var row := st.refreshTokens.FindByHash(hash);
        if row.Some? {
          return if row.value.clientId != client.clientId then Foreign else OwnRefresh(hash, row.value.grantId), n;
        }
      }
    }
    assert order[n..] == [] && order[..n] == order;
    NotFoundServed(cfg, st.Db(), client, token, tokenJti, inputs, k + n);
    return NotFound, n;
  }

  /** Only its owner's request revokes anything, a refresh token with the access tokens
      of its grant. */
  method Revoke(st: Storage, cfg: Config, client: Client, token: string, tokenJti: Option<string>, order: seq<Finder>,
                inputs: seq<Input>, k: nat)
    returns (o: Outcome)
    requires st.Valid() && k + |order| + 2 <= |inputs|
    modifies st.accessTokens, st.refreshTokens
    ensures Serve(cfg, old(st.Db()), Revoking(Resolve(client, token, tokenJti, order)), inputs, k) == (st.Db(), Done(o))
    ensures Kept(cfg, old(st.Db()), Revoking(Resolve(client, token, tokenJti, order)), inputs, k, st.Db())
    // The answer never tells; a token that is not the client's, or not known, stays.
    ensures o == Answered
    ensures NotOwn(old(st.Db()), cfg, client, token, tokenJti) ==> st.Db() == old(st.Db())
    ensures RevokedAs(old(st.Db()), st.Db(), client.clientId, cfg.sha(token), tokenJti, order)
  {
    KeptOnceServed(cfg, st.Db(), Revoking(Resolve(client, token, tokenJti, order)), inputs, k);
    hide Kept, Serve, RevokedAs, Hits, OwnHit, FirstHit;
    ghost var hash := cfg.sha(token);
    var found, n := Lookup(st, cfg, client, token, tokenJti, order, inputs, k);
    if found.NotFound? {
      NoneFound(st.Db(), client.clientId, hash, tokenJti, order);
      return Answered;
    }
    if found.Foreign? {
      OneFirst(st.Db(), st.Db(), client.clientId, hash, tokenJti, order, n - 1);
      return Answered;
    }
    RevokeFound(st, cfg, client, hash, tokenJti, order, found, inputs, k + n, n - 1);
    return Answered;
  }

  method RevokeFound(st: Storage, cfg: Config, client: Client, ghost hash: string, tokenJti: Option<string>,
                     order: seq<Finder>, found: Found, inputs: seq<Input>, k: nat, ghost n: int)
    requires st.Valid() && k + 2 <= |inputs| && FirstHit(st.Db(), hash, tokenJti, order, n)
    requires OwnHit(st.Db(), hash, tokenJti, order[n], client.clientId)
    requires found.OwnAccess? || found.OwnRefresh?
    requires found.OwnAccess? ==>
               order[n].AccessFinder? && tokenJti == Some(found.jti) && found.jti in st.accessTokens.rows
    requires found.OwnRefresh? ==>
               && order[n].RefreshFinder? && found.hash == hash && hash in st.refreshTokens.rows
               && st.refreshTokens.rows[hash].grantId == found.grantId
    modifies st.accessTokens, st.refreshTokens
    ensures (if found.OwnAccess? then Serve(cfg, old(st.Db()), Revoking(CutAccess(found.jti)), inputs, k)
             else Serve(cfg, old(st.Db()), Revoking(CutRefresh(found.hash, found.grantId)), inputs, k))
            == (st.Db(), Done(Answered))
    ensures RevokedAs(old(st.Db()), st.Db(), client.clientId, hash, tokenJti, order)
  {
    hide Serve, RevokedAs, Hits, OwnHit, FirstHit, AccessEnded, RefreshEnded;
    if found.OwnAccess? {
      RevokeAccessToken(st, cfg, found.jti, inputs, k);
    } else {
      RevokeRefreshToken(st, cfg, found.hash, found.grantId, inputs, k);
    }
    OneFirst(old(st.Db()), st.Db(), client.clientId, hash, tokenJti, order, n);
  }

  method RevokeAccessToken(st: Storage, cfg: Config, jti: string, inputs: seq<Input>, k: nat)
    requires st.Valid() && k < |inputs|
    modifies st.accessTokens
    ensures Serve(cfg, old(st.Db()), Revoking(CutAccess(jti)), inputs, k) == (st.Db(), Done(Answered))
    ensures jti in old(st.accessTokens.rows) ==> AccessEnded(old(st.Db()), st.Db(), jti)
  {
    if jti in st.accessTokens.rows {
      AccessCut(st.Db(), jti, inputs[k].now);
    }
    hide Serve, RevokeAccess, AccessEnded;
    CutAccessServed(cfg, st.Db(), jti, inputs, k);
    st.accessTokens.Revoke(jti, inputs[k].now);
  }

  method RevokeRefreshToken(st: Storage, cfg: Config, hash: string, grantId: string, inputs: seq<Input>, k: nat)
    requires st.Valid() && k + 2 <= |inputs|
    modifies st.accessTokens, st.refreshTokens
    ensures Serve(cfg, old(st.Db()), Revoking(CutRefresh(hash, grantId)), inputs, k) == (st.Db(), Done(Answered))
    ensures hash in old(st.refreshTokens.rows) ==> RefreshEnded(old(st.Db()), st.Db(), hash, grantId)
  {
    var now := inputs[k].now;
    if hash in st.refreshTokens.rows {
      RefreshCut(st.Db(), hash, grantId, now);
    }
    hide RefreshEnded;
    ServeStep(cfg, st.Db(), Revoking(CutRefresh(hash, grantId)), inputs, k,
              RevokeStep(cfg, st.Db(), CutRefresh(hash, grantId), inputs[k]));
    st.refreshTokens.Revoke(hash, now);
    ServeStep(cfg, st.Db(), Revoking(CutRefreshAccess(hash, grantId, now)), inputs, k + 1,
              RevokeStep(cfg, st.Db(), CutRefreshAccess(hash, grantId, now), inputs[k + 1]));
    st.accessTokens.RevokeByGrant(grantId, now);
  }
}
