/** The endpoints as interleaving processes: every storage call and the policy
    decision is one step, and between two steps of a request any other request may run,
    or the request may die. */
module Protocol {
  import opened Base
  import opened AuthzRequest
  import opened Tables
  import Sessions
  import Text

  /** Lifetimes in milliseconds, and base64url(SHA-256(text)). */
  datatype Config = Config(
    codeTtlMs: nat, parTtlMs: nat, accessTtlMs: nat, refreshTtlMs: nat, interactionTtlMs: nat,
    sha: string -> string)

  const REQUEST_URI_PREFIX := "urn:ietf:params:oauth:request_uri:"

  function RequestUriFor(random: string): string { REQUEST_URI_PREFIX + random }

  datatype User = User(sub: string, authTime: int, acr: Option<string>, amr: Option<seq<string>>)

  function UserOf(s: Sessions.LoginSession): User { User(s.sub, s.authTime * 1000, s.acr, s.amr) }

  /** What a step takes from outside: the clock, a random identifier, the PDP's answer. */
  datatype Input = Input(now: Ms, random: string, allowed: bool)

  /** Which finder a revocation tries next. */
  datatype Finder = AccessFinder | RefreshFinder

  /** What the token endpoint was given to earn an access token. */
  datatype Mint =
    | FromCode(codeHash: string, redirectUri: Option<string>, verifier: Option<string>, jkt: string)
    | FromRefresh(refreshHash: string, jkt: string)

  datatype Outcome =
    | Rejected | Pushed(uri: string) | Parked(id: string) | Shown | Declined
    | Code(code: string) | Tokens(jti: string, refreshToken: Option<string>) | Answered | Crashed

  type Session = Option<Sessions.LoginSession>

  /** GET /authorize */
  datatype Authorizing =
    | Enter(clientId: string, uri: string, session: Session)
    | Reload(clientId: string, uri: string, params: Params, session: Session)
    | Park(clientId: string, uri: string, at: int)

  /** GET /interaction */
  datatype Viewing =
    | Open(id: string, session: Session)
    | PeekFor(id: string, row: InteractionRow, session: Session)
    | CheckFor(id: string, row: InteractionRow, params: Params, session: Session)
    | BindTo(id: string, signedIn: Sessions.LoginSession)

  /** POST /interaction/consent */
  datatype Consenting =
    | Submit(id: string, signedIn: Sessions.LoginSession, approved: bool)
    | Peek(id: string, row: InteractionRow, signedIn: Sessions.LoginSession, approved: bool)
    | Recheck(id: string, row: InteractionRow, params: Params, signedIn: Sessions.LoginSession, approved: bool)
    | Close(id: string, ask: Ask, approved: bool)

  /** The request being decided: the pushed one, as validated for this client, for this user. */
  datatype Ask = Ask(uri: string, request: Validated, client: Client, user: User)

  /** The authorization action, shared by consent and prompt=none. */
  datatype Issuing =
    | Decide(ask: Ask)
    | Decline(uri: string)
    | Take(ask: Ask)
    | InsertGrant(ask: Ask)
    | InsertCode(grantId: string, ask: Ask, at: int)

  /** POST /token with an authorization code, and the cascade on its replay. */
  datatype Redeeming =
    | Present(client: Client, jkt: string, code: string, redirectUri: Option<string>, verifier: Option<string>)
    | FindGrant(client: Client, codeRow: CodeRow, mint: Mint)
    | CascadeGrant(grantId: string, at: int)
    | CascadeAccess(grantId: string, at: int)
    | CascadeRefresh(grantId: string, at: int)

  /** POST /token with a refresh token. */
  datatype Refreshing =
    | PresentRefresh(client: Client, jkt: string, token: string, scopeParam: Option<string>)
    | CheckGrant(client: Client, refreshRow: RefreshRow, scopeParam: Option<string>, mint: Mint)

  /** What a token is to hold and what was presented for it. */
  datatype Earned = Earned(client: Client, grantId: string, subject: string, scope: string, mint: Mint)

  /** The end of both token requests. */
  datatype Minting =
    | InsertAccess(earned: Earned, withRefresh: bool)
    | InsertRefresh(earned: Earned, minted: string)

  /** POST /revoke */
  datatype Revoking =
    | Resolve(client: Client, token: string, tokenJti: Option<string>, finders: seq<Finder>)
    | CutRefresh(hash: string, grantId: string)
    | CutRefreshAccess(hash: string, grantId: string, at: int)
    | CutAccess(jti: string)

  /** A request between two steps: where it is and what it holds. */
  datatype Proc =
    | Push(client: Client, body: Body, headerJkt: Option<string>)
    | Authorizing(authorizing: Authorizing)
    | Viewing(viewing: Viewing)
    | Consenting(consenting: Consenting)
    | Issuing(issuing: Issuing)
    | Redeeming(redeeming: Redeeming)
    | Refreshing(refreshing: Refreshing)
    | Minting(minting: Minting)
    | Revoking(revoking: Revoking)
    | Done(outcome: Outcome)

  /** One step: at most one write, the place reached, and what happened. */
  datatype Effect = Effect(write: Write, next: Proc, note: Note)

  datatype Note =
    | Quiet
    | DeclinedUri(uri: string)
    | Granted(grantId: string, ask: Ask)
    | Minted(jti: string, mint: Mint)

  function Finish(o: Outcome): Effect { Effect(Nothing, Done(o), Quiet) }
  function Go(p: Proc): Effect { Effect(Nothing, p, Quiet) }

  predicate NeedsReauthentication(session: Option<Sessions.LoginSession>, request: Validated, nowSec: int) {
    || session.None?
    || (request.prompt.Some? && "login" in Text.WordList(request.prompt.value))
    || (request.maxAge.Some? && nowSec - session.value.authTime > request.maxAge.value)
  }

  /** The session is one that the request need not renew: there is one, the request does
      not ask for a login, and it is no older than the request allows. */
  ghost predicate FreshFor(session: Session, request: Validated, nowSec: int) {
    && session.Some?
    && (request.prompt.Some? ==> !Text.IsWord(request.prompt.value, "login"))
    && (request.maxAge.Some? ==> nowSec - session.value.authTime <= request.maxAge.value)
  }

  lemma FreshExactly(session: Session, request: Validated, nowSec: int)
    ensures FreshFor(session, request, nowSec) <==> !NeedsReauthentication(session, request, nowSec)
    ensures FreshFor(session, request, nowSec) ==> session.Some?
  {
    hide Text.IsWord, Text.WordList;
    if request.prompt.Some? {
      Text.WordListExactly(request.prompt.value, "login");
    }
  }

  /** The word none is in the prompt. */
  ghost predicate AsksNone(request: Validated) {
    request.prompt.Some? && Text.IsWord(request.prompt.value, "none")
  }

  lemma AsksNoneExactly(request: Validated)
    ensures AsksNone(request) <==> PromptNone(request)
  {
    hide Text.IsWord, Text.Split;
    if request.prompt.Some? {
      Text.IncludesExactly(request.prompt.value, "none");
    }
  }

  /** Section 4.6 of RFC 7636: a verifier of 43 to 128 unreserved characters that hashes
      to the challenge. */
  ghost predicate Verifies(cfg: Config, verifier: Option<string>, challenge: string) {
    && verifier.Some? && 43 <= |verifier.value| <= 128 && Unreserved(verifier.value)
    && cfg.sha(verifier.value) == challenge
  }

  lemma VerifiesExactly(cfg: Config, verifier: Option<string>, challenge: string)
    ensures Verifies(cfg, verifier, challenge) <==> VerifyS256(cfg, verifier, challenge)
  {
  }

  predicate PromptNone(request: Validated) {
    request.prompt.Some? && "none" in Text.Split(request.prompt.value, ' ')
  }

  /** `verifyS256`: a well-formed verifier whose hash is the challenge. */
  predicate VerifyS256(cfg: Config, verifier: Option<string>, challenge: string) {
    verifier.Some? && WellFormedChallenge(verifier.value) && cfg.sha(verifier.value) == challenge
  }

  /** The bindings that `redeemAuthorizationCode` checks on a code. */
  predicate Redeemable(cfg: Config, row: CodeRow, clientId: string, mint: Mint)
    requires mint.FromCode?
  {
    && row.clientId == clientId
    && mint.redirectUri == Some(row.redirectUri)
    && VerifyS256(cfg, mint.verifier, row.codeChallenge)
    && (row.dpopJkt.Some? ==> row.dpopJkt == Some(mint.jkt))
  }

  /** Which place makes which insertions, takes what, and is recorded how. */
  predicate Lawful(p: Proc, f: Effect) {
    && !f.write.PutClient?
    && (f.write.PutPar? ==> p.Push?)
    && (f.write.TakePar? ==> p.Issuing? && (p.issuing.Decline? || p.issuing.Take?))
    && (f.write.PutGrant? <==> p.Issuing? && p.issuing.InsertGrant?)
    && (f.write.PutCode? <==> p.Issuing? && p.issuing.InsertCode?)
    && (f.write.TakeCode? ==> p.Redeeming? && p.redeeming.Present?)
    && (f.write.PutAccess? <==> p.Minting? && p.minting.InsertAccess?)
    && (f.write.PutRefresh? <==> p.Minting? && p.minting.InsertRefresh?)
    && (match f.note
        case Quiet =>
          !f.write.PutGrant? && !f.write.PutAccess? && !(f.write.TakePar? && p.Issuing? && p.issuing.Decline?)
        case DeclinedUri(uri) => f.write.TakePar? && f.write.uri == uri && p.Issuing? && p.issuing.Decline?
        case Granted(g, _) => f.write.PutGrant? && f.write.id == g
        case Minted(jti, _) => f.write.PutAccess? && f.write.jti == jti)
  }

  function PushStep(cfg: Config, client: Client, body: Body, headerJkt: Option<string>, input: Input): (f: Effect)
    ensures Lawful(Push(client, body, headerJkt), f) && f.next.Done?
  {
    if Name.RequestUri in body && body[Name.RequestUri] != Single("") then Finish(Rejected)
    else match Validate(body, client)
      case Err(_) => Finish(Rejected)
      case Ok(v) =>
        if headerJkt.Some? && v.dpopJkt.Some? && v.dpopJkt != headerJkt then Finish(Rejected)
        else
          var jkt := if headerJkt.Some? then headerJkt else v.dpopJkt;
          var uri := RequestUriFor(input.random);
          Effect(PutPar(uri, ParRow(client.clientId, PushedParams(v, jkt), jkt, input.now + cfg.parTtlMs, None)),
                 Done(Pushed(uri)), Quiet)
  }

  function AuthorizeStep(cfg: Config, db: Db, p: Authorizing, input: Input): (f: Effect)
    ensures Lawful(Authorizing(p), f)
  {
    match p
    case Enter(clientId, uri, session) =>
      var pushed := PeekPar(db.par, uri, input.now);
      if pushed.None? || pushed.value.clientId != clientId then Finish(Rejected)
      else Go(Authorizing(Reload(clientId, uri, pushed.value.params, session)))
    case Reload(clientId, uri, params, session) =>
      if clientId !in db.clients then Finish(Rejected)
      else
        var client := db.clients[clientId];
        var r := Validate(Lift(params), client);
        if r.Err? then Finish(Rejected)
        else if PromptNone(r.value) then
          if NeedsReauthentication(session, r.value, FloorSec(input.now)) then Finish(Rejected)
          else Go(Issuing(Decide(Ask(uri, r.value, client, UserOf(session.value)))))
        else Go(Authorizing(Park(clientId, uri, input.now)))
    case Park(clientId, uri, at) =>
      Effect(PutInteraction(input.random,
                            InteractionRow(clientId, uri, None, None, None, None, at, at + cfg.interactionTtlMs, None)),
             Done(Parked(input.random)), Quiet)
  }

  function ViewStep(db: Db, p: Viewing, input: Input): (f: Effect)
    ensures Lawful(Viewing(p), f)
  {
    match p
    case Open(id, session) =>
      var row := FindInteraction(db.interactions, id, input.now);
      if row.None? then Finish(Rejected) else Go(Viewing(PeekFor(id, row.value, session)))
    case PeekFor(id, row, session) =>
      var pushed := PeekPar(db.par, row.requestUri, input.now);
      if pushed.None? || pushed.value.clientId != row.clientId then Finish(Rejected)
      else Go(Viewing(CheckFor(id, row, pushed.value.params, session)))
    case CheckFor(id, row, params, session) =>
      if row.clientId !in db.clients then Finish(Rejected)
      else
        var r := Validate(Lift(params), db.clients[row.clientId]);
        if r.Err? then Finish(Rejected)
        else if NeedsReauthentication(session, r.value, FloorSec(input.now)) then Finish(Shown)
        else Go(Viewing(BindTo(id, session.value)))
    case BindTo(id, s) =>
      Effect(Bind(id, s.sub, s.authTime * 1000, s.acr, s.amr), Done(Shown), Quiet)
  }

  function ConsentStep(db: Db, p: Consenting, input: Input): (f: Effect)
    ensures Lawful(Consenting(p), f)
  {
    match p
    case Submit(id, session, approved) =>
      var row := FindInteraction(db.interactions, id, input.now);
      if row.None? then Finish(Rejected) else Go(Consenting(Peek(id, row.value, session, approved)))
    case Peek(id, row, session, approved) =>
      var pushed := PeekPar(db.par, row.requestUri, input.now);
      if pushed.None? || pushed.value.clientId != row.clientId then Finish(Rejected)
      else Go(Consenting(Recheck(id, row, pushed.value.params, session, approved)))
    case Recheck(id, row, params, session, approved) =>
      if row.clientId !in db.clients then Finish(Rejected)
      else
        var client := db.clients[row.clientId];
        var r := Validate(Lift(params), client);
        if r.Err? || row.subject != Some(session.sub) then Finish(Rejected)
        else Go(Consenting(Close(id, Ask(row.requestUri, r.value, client, UserOf(session)), approved)))
    case Close(id, ask, approved) =>
      if FindInteraction(db.interactions, id, input.now).None? then Finish(Rejected)
      else Effect(Complete(id, input.now), Issuing(if approved then Decide(ask) else Decline(ask.uri)), Quiet)
  }

  function IssueStep(cfg: Config, db: Db, p: Issuing, input: Input): (f: Effect)
    ensures Lawful(Issuing(p), f)
  {
    match p
    case Decide(ask) => Go(Issuing(if input.allowed then Take(ask) else Decline(ask.uri)))
    case Decline(uri) =>
      if PeekPar(db.par, uri, input.now).None? then Finish(Declined)
      else Effect(TakePar(uri, input.now), Done(Declined), DeclinedUri(uri))
    case Take(ask) =>
      if PeekPar(db.par, ask.uri, input.now).None? then Finish(Rejected)
      else Effect(TakePar(ask.uri, input.now), Issuing(InsertGrant(ask)), Quiet)
    case InsertGrant(ask) =>
      Effect(PutGrant(input.random, GrantRow(ask.client.clientId, ask.user.sub, ask.request.scope, ask.user.authTime,
                                             input.now, None)),
             Issuing(InsertCode(input.random, ask, input.now)), Granted(input.random, ask))
    case InsertCode(grantId, ask, at) =>
      Effect(PutCode(cfg.sha(input.random),
                     CodeRow(grantId, ask.client.clientId, ask.request.redirectUri, ask.request.codeChallenge,
                             ask.request.dpopJkt, ask.request.nonce, at + cfg.codeTtlMs, None)),
             Done(Code(input.random)), Quiet)
  }

  function RedeemStep(cfg: Config, db: Db, p: Redeeming, input: Input): (f: Effect)
    ensures Lawful(Redeeming(p), f)
  {
    match p
    case Present(client, jkt, code, redirectUri, verifier) =>
      var hash := cfg.sha(code);
      var mint := FromCode(hash, redirectUri, verifier, jkt);
      (match RedeemResult(db.codes, hash, input.now)
       case Invalid => Finish(Rejected)
       case Replayed(row) => Go(Redeeming(CascadeGrant(row.grantId, input.now)))
       case Redeemed(row) =>
         Effect(TakeCode(hash, input.now),
                if Redeemable(cfg, row, client.clientId, mint) then Redeeming(FindGrant(client, row, mint))
                else Done(Rejected),
                Quiet))
    case FindGrant(client, row, mint) =>
      if row.grantId !in db.grants || db.grants[row.grantId].revokedAt.Some? then Finish(Rejected)
      else
        var grant := db.grants[row.grantId];
        Go(Minting(InsertAccess(Earned(client, row.grantId, grant.subject, grant.scope, mint),
                                "refresh_token" in client.grantTypes)))
    case CascadeGrant(grantId, at) => Effect(DropGrant(grantId, at), Redeeming(CascadeAccess(grantId, at)), Quiet)
    case CascadeAccess(grantId, at) => Effect(DropAccessOf(grantId, at), Redeeming(CascadeRefresh(grantId, at)), Quiet)
    case CascadeRefresh(grantId, at) => Effect(DropRefreshOf(grantId, at), Done(Rejected), Quiet)
  }

  /** The narrower scope a refresh asks for; a blank one counts as omitted. */
  function RequestedScope(param: Option<string>, granted: string): string {
    if param.Some? && !Text.Blank(param.value) then param.value else granted
  }

  predicate ScopeSubset(requested: string, granted: string) { Text.Words(requested) <= Text.Words(granted) }

  function RefreshStep(cfg: Config, db: Db, p: Refreshing, input: Input): (f: Effect)
    ensures Lawful(Refreshing(p), f)
  {
    match p
    case PresentRefresh(client, jkt, token, scopeParam) =>
      var hash := cfg.sha(token);
      if hash !in db.refresh then Finish(Rejected)
      else
        var row := db.refresh[hash];
        if row.revokedAt.Some? || row.expiresAt <= input.now || row.clientId != client.clientId then Finish(Rejected)
        else Go(Refreshing(CheckGrant(client, row, scopeParam, FromRefresh(hash, jkt))))
    case CheckGrant(client, row, scopeParam, mint) =>
      if row.grantId !in db.grants || db.grants[row.grantId].revokedAt.Some? then Finish(Rejected)
      else
        var scope := RequestedScope(scopeParam, row.scope);
        if !ScopeSubset(scope, row.scope) then Finish(Rejected)
        else Go(Minting(InsertAccess(Earned(client, row.grantId, db.grants[row.grantId].subject, scope, mint), false)))
  }

  function MintStep(cfg: Config, p: Minting, input: Input): (f: Effect)
    ensures Lawful(Minting(p), f)
  {
    match p
    case InsertAccess(e, withRefresh) =>
      Effect(PutAccess(input.random, AccessRow(e.grantId, e.client.clientId, e.subject, e.scope, Some(e.mint.jkt),
                                               input.now + cfg.accessTtlMs, None)),
             if withRefresh then Minting(InsertRefresh(e, input.random)) else Done(Tokens(input.random, None)),
             Minted(input.random, e.mint))
    case InsertRefresh(e, minted) =>
      Effect(PutRefresh(cfg.sha(input.random),
                        RefreshRow(e.grantId, e.client.clientId, e.scope, input.now + cfg.refreshTtlMs, None)),
             Done(Tokens(minted, Some(input.random))), Quiet)
  }

  function RevokeStep(cfg: Config, db: Db, p: Revoking, input: Input): (f: Effect)
    ensures Lawful(Revoking(p), f)
  {
    match p
    case Resolve(client, token, tokenJti, finders) =>
      if finders == [] then Finish(Answered)
      else if finders[0].AccessFinder? then
        if tokenJti.None? || tokenJti.value !in db.access
        then Go(Revoking(Resolve(client, token, tokenJti, finders[1..])))
        else if db.access[tokenJti.value].clientId != client.clientId then Finish(Answered)
        else Go(Revoking(CutAccess(tokenJti.value)))
      else
        var hash := cfg.sha(token);
        if hash !in db.refresh then Go(Revoking(Resolve(client, token, tokenJti, finders[1..])))
        else if db.refresh[hash].clientId != client.clientId then Finish(Answered)
        else Go(Revoking(CutRefresh(hash, db.refresh[hash].grantId)))
    case CutRefresh(hash, grantId) =>
      Effect(DropRefresh(hash, input.now), Revoking(CutRefreshAccess(hash, grantId, input.now)), Quiet)
    case CutRefreshAccess(hash, grantId, at) => Effect(DropAccessOf(grantId, at), Done(Answered), Quiet)
    case CutAccess(jti) => Effect(DropAccess(jti, input.now), Done(Answered), Quiet)
  }

  function Act(cfg: Config, db: Db, p: Proc, input: Input): (f: Effect)
    requires !p.Done?
    ensures Lawful(p, f)
  {
    match p
    case Push(client, body, headerJkt) => PushStep(cfg, client, body, headerJkt, input)
    case Authorizing(a) => AuthorizeStep(cfg, db, a, input)
    case Viewing(v) => ViewStep(db, v, input)
    case Consenting(c) => ConsentStep(db, c, input)
    case Issuing(i) => IssueStep(cfg, db, i, input)
    case Redeeming(r) => RedeemStep(cfg, db, r, input)
    case Refreshing(r) => RefreshStep(cfg, db, r, input)
    case Minting(m) => MintStep(cfg, m, input)
    case Revoking(r) => RevokeStep(cfg, db, r, input)
  }

  // ------------------------------------------------------------------ world

  /** The storage, every request ever started (finished ones stay), and a record
      of what happened that no handler reads. */
  datatype World = World(
    db: Db, procs: map<nat, Proc>,
    origins: map<string, Ask>, declined: set<string>, mints: map<string, Mint>)

  datatype Event =
    | Start(tid: nat, request: Proc)
    | Step(tid: nat, input: Input)
    | Crash(tid: nat)
    | Register(client: Client)

  /** The states in which a request enters; an authenticated client is one that
      is registered at that moment. */
  predicate Entry(db: Db, p: Proc) {
    match p
    case Push(c, _, headerJkt) => Known(db, c) && (headerJkt.Some? ==> WellFormedJkt(headerJkt.value))
    case Authorizing(a) => a.Enter?
    case Viewing(v) => v.Open?
    case Consenting(c) => c.Submit?
    case Redeeming(r) => r.Present? && Known(db, r.client)
    case Refreshing(r) => r.PresentRefresh? && Known(db, r.client)
    case Revoking(r) =>
      && r.Resolve? && Known(db, r.client)
      && (r.finders == [AccessFinder, RefreshFinder] || r.finders == [RefreshFinder, AccessFinder])
    case _ => false
  }

  predicate Known(db: Db, c: Client) { c.clientId in db.clients && db.clients[c.clientId] == c }

  predicate Legal(cfg: Config, w: World, e: Event) {
    match e
    case Start(t, p) => t !in w.procs && Entry(w.db, p)
    case Step(t, input) => t in w.procs && !w.procs[t].Done? && Fresh(w.db, Act(cfg, w.db, w.procs[t], input).write)
    case Crash(t) => t in w.procs && !w.procs[t].Done?
    case Register(_) => true
  }

  function Record(w: World, n: Note): World {
    match n
    case Quiet => w
    case DeclinedUri(uri) => w.(declined := w.declined + {uri})
    case Granted(g, ask) => w.(origins := w.origins[g := ask])
    case Minted(jti, mint) => w.(mints := w.mints[jti := mint])
  }

  function Commit(w: World, t: nat, f: Effect): World {
    Record(w.(db := Apply(w.db, f.write), procs := w.procs[t := f.next]), f.note)
  }

  function After(cfg: Config, w: World, e: Event): World
    requires Legal(cfg, w, e)
  {
    match e
    case Start(t, p) => w.(procs := w.procs[t := p])
    case Step(t, input) =>
      Commit(w, t, Act(cfg, w.db, w.procs[t], input))
    case Crash(t) => w.(procs := w.procs[t := Done(Crashed)])
    case Register(c) => w.(db := Apply(w.db, PutClient(c)))
  }

  /** Some clients and nothing else. */
  predicate Initial(w: World) {
    && w.db.par == map[] && w.db.grants == map[] && w.db.codes == map[] && w.db.access == map[]
    && w.db.refresh == map[] && w.db.interactions == map[]
    && (forall c | c in w.db.clients :: w.db.clients[c].clientId == c)
    && w.procs == map[] && w.origins == map[] && w.declined == {} && w.mints == map[]
  }

  ghost predicate Run(cfg: Config, worlds: seq<World>, events: seq<Event>) {
    && |worlds| == |events| + 1
    && Initial(worlds[0])
    && forall i | 0 <= i < |events| ::
         Legal(cfg, worlds[i], events[i]) && worlds[i + 1] == After(cfg, worlds[i], events[i])
  }
}
