/** Making runs: one event more, and the run that leads from a registered client alone
    to a code that can be redeemed. */
module Runs {
  import opened Base
  import opened AuthzRequest
  import opened Tables
  import opened Protocol
  import opened Provenance
  import opened Approval
  import Serving
  import Sessions
  import Text

  ghost predicate RunTo(cfg: Config, worlds: seq<World>, events: seq<Event>, w: World) {
    Run(cfg, worlds, events) && worlds[|events|] == w
  }

  /** The second run goes on from the first. */
  ghost predicate GoesOn(
    cfg: Config, worlds: seq<World>, events: seq<Event>, worlds': seq<World>, events': seq<Event>, w: World) {
    RunTo(cfg, worlds', events', w) && worlds <= worlds' && events <= events'
  }

  lemma GoEvent(cfg: Config, worlds: seq<World>, events: seq<Event>, w: World, e: Event)
    returns (worlds': seq<World>, events': seq<Event>)
    requires RunTo(cfg, worlds, events, w) && Legal(cfg, w, e)
    ensures GoesOn(cfg, worlds, events, worlds', events', After(cfg, w, e))
    ensures |events'| == |events| + 1 && events'[|events|] == e
  {
    hide Legal, After, Initial;
    worlds', events' := worlds + [After(cfg, w, e)], events + [e];
    forall i | 0 <= i < |events'|
      ensures Legal(cfg, worlds'[i], events'[i]) && worlds'[i + 1] == After(cfg, worlds'[i], events'[i])
    {
      if i < |events| {
        assert worlds'[i] == worlds[i] && events'[i] == events[i] && worlds'[i + 1] == worlds[i + 1];
      }
    }
  }

  lemma GoStart(cfg: Config, worlds: seq<World>, events: seq<Event>, w: World, p: Proc)
    returns (worlds': seq<World>, events': seq<Event>, w': World, t: nat)
    requires RunTo(cfg, worlds, events, w) && Entry(w.db, p)
    ensures GoesOn(cfg, worlds, events, worlds', events', w')
    ensures t !in w.procs && w' == w.(procs := w.procs[t := p])
  {
    hide RunTo, Entry;
    t := Serving.UnusedId(w.procs.Keys);
    worlds', events' := GoEvent(cfg, worlds, events, w, Start(t, p));
    w' := w.(procs := w.procs[t := p]);
  }

  lemma GoStep(cfg: Config, worlds: seq<World>, events: seq<Event>, w: World, t: nat, input: Input, f: Effect)
    returns (worlds': seq<World>, events': seq<Event>, w': World)
    requires RunTo(cfg, worlds, events, w) && t in w.procs && !w.procs[t].Done?
    requires f == Act(cfg, w.db, w.procs[t], input) && Fresh(w.db, f.write)
    ensures GoesOn(cfg, worlds, events, worlds', events', w')
    ensures w'.db == Apply(w.db, f.write) && w'.procs == w.procs[t := f.next]
    ensures w'.origins == if f.note.Granted? then w.origins[f.note.grantId := f.note.ask] else w.origins
    ensures |events'| == |events| + 1 && Steps(worlds', events', |events|, t, w.procs[t])
    ensures events'[|events|].input == input
  {
    hide RunTo, Act, Fresh, Apply, Commit;
    worlds', events' := GoEvent(cfg, worlds, events, w, Step(t, input));
    w' := Commit(w, t, f);
    CommitParts(w, t, f);
    WentFrom(cfg, worlds, events, w, worlds', events', w');
  }

  lemma WentFrom(cfg: Config, worlds: seq<World>, events: seq<Event>, w: World, worlds': seq<World>,
                 events': seq<Event>, w': World)
    requires RunTo(cfg, worlds, events, w) && GoesOn(cfg, worlds, events, worlds', events', w')
    ensures |events| <= |events'| < |worlds'| && worlds'[|events|] == w
  {
    hide Initial, Legal, After;
  }

  lemma GoesOnOn(cfg: Config, worlds: seq<World>, events: seq<Event>, worlds1: seq<World>, events1: seq<Event>,
                 w1: World, worlds2: seq<World>, events2: seq<Event>, w2: World)
    requires GoesOn(cfg, worlds, events, worlds1, events1, w1) && GoesOn(cfg, worlds1, events1, worlds2, events2, w2)
    ensures GoesOn(cfg, worlds, events, worlds2, events2, w2)
  {
    hide RunTo;
  }

  /** A code that this client can redeem now. */
  predicate OpenCode(cfg: Config, db: Db, client: Client, code: string, mint: Mint, now: int) {
    && Known(db, client) && mint.FromCode? && mint.codeHash == cfg.sha(code)
    && RedeemResult(db.codes, mint.codeHash, now).Redeemed?
    && Redeemable(cfg, db.codes[mint.codeHash], client.clientId, mint)
    && db.codes[mint.codeHash].grantId in db.grants && db.grants[db.codes[mint.codeHash].grantId].revokedAt.None?
  }

  // ------------------------------------------------------------- the consent

  /** An open interaction bound to the subject, for an open request that reads as `v`. */
  predicate AwaitsConsent(db: Db, id: string, sub: string, v: Validated, now: int) {
    && FindInteraction(db.interactions, id, now).Some?
    && var row := db.interactions[id];
    && row.subject == Some(sub)
    && PeekPar(db.par, row.requestUri, now).Some? && db.par[row.requestUri].clientId == row.clientId
    && row.clientId in db.clients
    && Validate(Lift(db.par[row.requestUri].params), db.clients[row.clientId]) == Ok(v)
  }

  function AskOf(db: Db, id: string, s: Sessions.LoginSession, v: Validated): Ask
    requires id in db.interactions && db.interactions[id].clientId in db.clients
  {
    Ask(db.interactions[id].requestUri, v, db.clients[db.interactions[id].clientId], UserOf(s))
  }

  /** Request `u` closes the interaction with the user's approval of `ask` at step `k`,
      and by that inserts the grant `g` at step `j`. */
  ghost predicate ConsentGrants(
    worlds: seq<World>, events: seq<Event>, k: nat, j: nat, u: nat, id: string, ask: Ask, g: string) {
    && k < j && Steps(worlds, events, k, u, Consenting(Close(id, ask, true)))
    && Steps(worlds, events, j, u, Issuing(InsertGrant(ask))) && events[j].input.random == g
  }

  lemma ConsentEffects(db: Db, id: string, s: Sessions.LoginSession, v: Validated, i: Input)
    requires AwaitsConsent(db, id, s.sub, v, i.now)
    ensures var row, ask := db.interactions[id], AskOf(db, id, s, v);
            var params := db.par[row.requestUri].params;
            && ConsentStep(db, Submit(id, s, true), i) == Go(Consenting(Peek(id, row, s, true)))
            && ConsentStep(db, Peek(id, row, s, true), i) == Go(Consenting(Recheck(id, row, params, s, true)))
            && ConsentStep(db, Recheck(id, row, params, s, true), i) == Go(Consenting(Close(id, ask, true)))
  {
    hide Validate, Lift, Lawful;
  }

  lemma CloseEffect(db: Db, id: string, sub: string, v: Validated, ask: Ask, i: Input)
    requires AwaitsConsent(db, id, sub, v, i.now)
    ensures ConsentStep(db, Close(id, ask, true), i) == Effect(Complete(id, i.now), Issuing(Decide(ask)), Quiet)
  {
  }

  lemma SubmitsOn(cfg: Config, worlds: seq<World>, events: seq<Event>, w: World, id: string, s: Sessions.LoginSession,
                  v: Validated, i: Input)
    returns (worlds': seq<World>, events': seq<Event>, w': World, u: nat)
    requires RunTo(cfg, worlds, events, w) && AwaitsConsent(w.db, id, s.sub, v, i.now)
    ensures GoesOn(cfg, worlds, events, worlds', events', w') && w'.db == w.db && w'.origins == w.origins
    ensures u in w'.procs && w'.procs[u] == Consenting(Close(id, AskOf(w.db, id, s, v), true))
  {
    ConsentEffects(w.db, id, s, v, i);
    var row, ask := w.db.interactions[id], AskOf(w.db, id, s, v);
    var params := w.db.par[row.requestUri].params;
    hide RunTo, AwaitsConsent, ConsentStep, AskOf, Lawful;
    var worlds1, events1, w1, worlds2, events2, w2, worlds3, events3, w3;
    worlds1, events1, w1, u := GoStart(cfg, worlds, events, w, Consenting(Submit(id, s, true)));
    worlds2, events2, w2 := GoStep(cfg, worlds1, events1, w1, u, i, Go(Consenting(Peek(id, row, s, true))));
    GoesOnOn(cfg, worlds, events, worlds1, events1, w1, worlds2, events2, w2);
    worlds3, events3, w3 := GoStep(cfg, worlds2, events2, w2, u, i, Go(Consenting(Recheck(id, row, params, s, true))));
    GoesOnOn(cfg, worlds, events, worlds2, events2, w2, worlds3, events3, w3);
    worlds', events', w' := GoStep(cfg, worlds3, events3, w3, u, i, Go(Consenting(Close(id, ask, true))));
    GoesOnOn(cfg, worlds, events, worlds3, events3, w3, worlds', events', w');
  }

  /** Wherever a run has come to with such an interaction: any session of its subject
      can go on to close it. */
  lemma ClosesOn(cfg: Config, worlds: seq<World>, events: seq<Event>, w: World, id: string, s: Sessions.LoginSession,
                 v: Validated, now: Ms)
    returns (worlds': seq<World>, events': seq<Event>, w': World, k: nat, u: nat)
    requires RunTo(cfg, worlds, events, w) && AwaitsConsent(w.db, id, s.sub, v, now)
    ensures GoesOn(cfg, worlds, events, worlds', events', w') && |events| <= k
    ensures var ask := AskOf(w.db, id, s, v);
            && Steps(worlds', events', k, u, Consenting(Close(id, ask, true))) && events'[k].input.now == now
            && u in w'.procs && w'.procs[u] == Issuing(Decide(ask))
    ensures w'.db == w.db.(interactions := CompleteInteraction(w.db.interactions, id, now)) && w'.origins == w.origins
  {
    hide RunTo, AwaitsConsent, ConsentStep, CompleteInteraction, Lawful, AskOf, Steps;
    var i := Input(now, "", true);
    var worlds1, events1, w1;
    worlds1, events1, w1, u := SubmitsOn(cfg, worlds, events, w, id, s, v, i);
    var ask := w1.procs[u].consenting.ask;
    CloseEffect(w.db, id, s.sub, v, ask, i);
    WentFrom(cfg, worlds, events, w, worlds1, events1, w1);
    k := |events1|;
    var f := Effect(Complete(id, now), Issuing(Decide(ask)), Quiet);
    worlds', events', w' := GoStep(cfg, worlds1, events1, w1, u, i, f);
    GoesOnOn(cfg, worlds, events, worlds1, events1, w1, worlds', events', w');
  }

  /** And so to a grant. */
  lemma ConsentsOn(cfg: Config, worlds: seq<World>, events: seq<Event>, w: World, id: string, s: Sessions.LoginSession,
                   v: Validated, now: Ms, g: string)
    returns (worlds': seq<World>, events': seq<Event>, w': World, k: nat, j: nat, u: nat)
    requires RunTo(cfg, worlds, events, w) && AwaitsConsent(w.db, id, s.sub, v, now) && g !in w.db.grants
    ensures GoesOn(cfg, worlds, events, worlds', events', w') && |events| <= k
    ensures var ask := AskOf(w.db, id, s, v);
            && ConsentGrants(worlds', events', k, j, u, id, ask, g) && events'[k].input.now == now
            && w'.db == w.db.(interactions := CompleteInteraction(w.db.interactions, id, now),
                              par := ConsumePar(w.db.par, ask.uri, now),
                              grants := w.db.grants[g :=
                                 GrantRow(ask.client.clientId, s.sub, v.scope, s.authTime * 1000, now, None)])
            && w'.origins == w.origins[g := ask]
            && u in w'.procs && w'.procs[u] == Issuing(InsertCode(g, ask, now))
  {
    var ask := AskOf(w.db, id, s, v);
    var worlds1, events1, w1;
    worlds1, events1, w1, k, u := ClosesOn(cfg, worlds, events, w, id, s, v, now);
    assert PeekPar(w1.db.par, ask.uri, now).Some?;
    hide AwaitsConsent, CompleteInteraction;
    worlds', events', w', j := GrantsOn(cfg, worlds1, events1, w1, u, ask, g, now);
    GoesOnOn(cfg, worlds, events, worlds1, events1, w1, worlds', events', w');
    StepsOn(cfg, worlds1, events1, w1, worlds', events', w', k, u, Consenting(Close(id, ask, true)));
  }

  lemma StepsOn(cfg: Config, worlds: seq<World>, events: seq<Event>, w: World, worlds': seq<World>, events': seq<Event>,
                w': World, k: nat, u: nat, p: Proc)
    requires GoesOn(cfg, worlds, events, worlds', events', w') && Steps(worlds, events, k, u, p)
    ensures Steps(worlds', events', k, u, p) && events'[k] == events[k]
  {
    hide RunTo;
  }

  lemma GrantsOn(cfg: Config, worlds: seq<World>, events: seq<Event>, w: World, u: nat, ask: Ask, g: string, now: Ms)
    returns (worlds': seq<World>, events': seq<Event>, w': World, j: nat)
    requires RunTo(cfg, worlds, events, w) && u in w.procs && w.procs[u] == Issuing(Decide(ask))
    requires PeekPar(w.db.par, ask.uri, now).Some? && g !in w.db.grants
    ensures GoesOn(cfg, worlds, events, worlds', events', w')
    ensures |events| <= j && Steps(worlds', events', j, u, Issuing(InsertGrant(ask))) && events'[j].input.random == g
    ensures w'.db == w.db.(par := ConsumePar(w.db.par, ask.uri, now),
                           grants := w.db.grants[g := GrantRow(ask.client.clientId, ask.user.sub, ask.request.scope,
                                                               ask.user.authTime, now, None)])
    ensures w'.origins == w.origins[g := ask] && u in w'.procs && w'.procs[u] == Issuing(InsertCode(g, ask, now))
  {
    hide RunTo;
    var i := Input(now, g, true);
    var worlds1, events1, w1 := GoStep(cfg, worlds, events, w, u, i, Go(Issuing(Take(ask))));
    var f := Effect(TakePar(ask.uri, now), Issuing(InsertGrant(ask)), Quiet);
    var worlds2, events2, w2 := GoStep(cfg, worlds1, events1, w1, u, i, f);
    hide ConsumePar;
    j := |events2|;
    worlds', events', w' := GoStep(cfg, worlds2, events2, w2, u, i, IssueStep(cfg, w2.db, InsertGrant(ask), i));
  }

  function FirstCode(cfg: Config, ask: Ask, now: Ms): CodeRow {
    CodeRow("a", ask.client.clientId, ask.request.redirectUri, ask.request.codeChallenge, ask.request.dpopJkt,
            ask.request.nonce, now + cfg.codeTtlMs, None)
  }

  /** The code for the grant. */
  lemma IssuesOn(cfg: Config, worlds: seq<World>, events: seq<Event>, w: World, u: nat, ask: Ask, now: Ms)
    returns (worlds': seq<World>, events': seq<Event>, w': World)
    requires RunTo(cfg, worlds, events, w) && u in w.procs && w.procs[u] == Issuing(InsertCode("a", ask, now))
    requires w.db.codes == map[]
    ensures RunTo(cfg, worlds', events', w') && w'.origins == w.origins
    ensures w'.db == w.db.(codes := map[cfg.sha("a") := FirstCode(cfg, ask, now)])
  {
    hide RunTo;
    var i := Input(now, "a", true);
    worlds', events', w' := GoStep(cfg, worlds, events, w, u, i, IssueStep(cfg, w.db, InsertCode("a", ask, now), i));
  }

  // ------------------------------------------------------- from nothing to a code

  /** A registered client, a request of its that validates, a signed-in user whose
      session is fresh enough for it, and the reading at which it all happens. */
  datatype Scene = Scene(client: Client, body: Body, request: Validated, user: Sessions.LoginSession, at: Ms)

  ghost predicate Plays(cfg: Config, s: Scene) {
    && Validate(s.body, s.client) == Ok(s.request) && !AsksNone(s.request)
    && FreshFor(Some(s.user), s.request, FloorSec(s.at))
    && (Name.RequestUri !in s.body || s.body[Name.RequestUri] == Single(""))
    && cfg.parTtlMs > 0 && cfg.interactionTtlMs > 0 && cfg.codeTtlMs > 0
  }

  function BodyOf(redirectUri: string, challenge: string, age: string, jkt: string): Body {
    map[ResponseType := Single("code"), RedirectUri := Single(redirectUri), CodeChallenge := Single(challenge),
        CodeChallengeMethod := Single("S256"), MaxAge := Single(age), DpopJkt := Single(jkt)]
  }

  lemma BodyTarget(client: Client, redirectUri: string, challenge: string, age: string, jkt: string)
    requires redirectUri in client.redirectUris && redirectUri != "" && Vschar(client.scope) && |client.scope| <= 512
    ensures ValidateTarget(BodyOf(redirectUri, challenge, age, jkt), client) == Ok((redirectUri, client.scope))
  {
    hide Vschar;
  }

  lemma BodyBindings(redirectUri: string, challenge: string, age: string, jkt: string)
    requires WellFormedChallenge(challenge) && WellFormedJkt(jkt)
    ensures ValidateBindings(BodyOf(redirectUri, challenge, age, jkt)) == Ok(Bindings(challenge, None, None, Some(jkt)))
  {
    assert challenge != "" && jkt != "";
    hide WellFormedChallenge, WellFormedJkt;
  }

  lemma BodyPassthrough(redirectUri: string, challenge: string, age: string, jkt: string)
    requires |age| <= 2048 && Vschar(age)
    ensures PassthroughAllOk(BodyOf(redirectUri, challenge, age, jkt))
  {
    var body := BodyOf(redirectUri, challenge, age, jkt);
    hide Vschar;
    forall n: Name | Recognised(n) ensures PassthroughOk(body, n) {
      assert n == MaxAge || n !in body;
    }
  }

  lemma BodyDialogue(redirectUri: string, challenge: string, age: string, jkt: string)
    requires age != "" && |age| <= 2048 && Text.AllDigits(age)
    ensures var d := ValidateDialogue(BodyOf(redirectUri, challenge, age, jkt));
            d.Ok? && d.value.prompt.None? && d.value.maxAge == Some(Text.ParseNat(age))
  {
    assert Vschar(age);
    var body := BodyOf(redirectUri, challenge, age, jkt);
    assert Param(body, Prompt) == Ok(None) && Param(body, MaxAge) == Ok(Some(age));
    hide Vschar, Text.AllDigits, Text.ParseNat, PassthroughAllOk, PassthroughValues, BodyOf, Param;
    BodyPassthrough(redirectUri, challenge, age, jkt);
  }

  /** There is one for every client with a redirect URI and a scope that can be asked
      for, every `max_age` and every key. */
  lemma SceneFor(cfg: Config, client: Client, redirectUri: string, challenge: string, age: string, jkt: string,
                 user: Sessions.LoginSession, at: Ms)
    returns (s: Scene)
    requires redirectUri in client.redirectUris && redirectUri != "" && Vschar(client.scope) && |client.scope| <= 512
    requires WellFormedChallenge(challenge) && WellFormedJkt(jkt) && age != "" && |age| <= 2048 && Text.AllDigits(age)
    requires FloorSec(at) - user.authTime <= Text.ParseNat(age)
    requires cfg.parTtlMs > 0 && cfg.interactionTtlMs > 0 && cfg.codeTtlMs > 0
    ensures Plays(cfg, s) && s.client == client && s.user == user && s.at == at
    ensures s.request.maxAge == Some(Text.ParseNat(age)) && s.request.dpopJkt == Some(jkt)
    ensures s.request.codeChallenge == challenge
  {
    var body := BodyOf(redirectUri, challenge, age, jkt);
    BodyTarget(client, redirectUri, challenge, age, jkt);
    BodyBindings(redirectUri, challenge, age, jkt);
    BodyDialogue(redirectUri, challenge, age, jkt);
    assert Name.RequestUri !in body;
    hide BodyOf, ValidateTarget, ValidateBindings, ValidateDialogue, Vschar, WellFormedChallenge, WellFormedJkt,
         Text.AllDigits;
    s := Scene(client, body, Validate(body, client).value, user, at);
  }

  function Beginning(s: Scene): Db {
    Db(map[s.client.clientId := s.client], map[], map[], map[], map[], map[], map[])
  }

  function Pushed(cfg: Config, s: Scene): ParRow {
    ParRow(s.client.clientId, PushedParams(s.request, s.request.dpopJkt), s.request.dpopJkt, s.at + cfg.parTtlMs, None)
  }

  function ParkedRow(cfg: Config, s: Scene, uri: string, subject: bool): InteractionRow {
    if subject then
      InteractionRow(s.client.clientId, uri, Some(s.user.sub), Some(s.user.authTime * 1000), s.user.acr, s.user.amr,
                     s.at, s.at + cfg.interactionTtlMs, None)
    else InteractionRow(s.client.clientId, uri, None, None, None, None, s.at, s.at + cfg.interactionTtlMs, None)
  }

  function At(s: Scene): Input { Input(s.at, "a", true) }

  lemma ReadsBackSame(s: Scene, cfg: Config)
    requires Plays(cfg, s)
    ensures Validate(Lift(Pushed(cfg, s).params), s.client) == Ok(s.request)
  {
    hide Validate, Lift, PushedParams, Sound, Kept;
    SoundParts(s.body, s.client);
    assert s.request.dpopJkt.Some? ==> WellFormedJkt(s.request.dpopJkt.value) by { ValidatedKey(s.body, s.client); }
    SameClientRoundTrip(s.body, s.client, s.request.dpopJkt);
  }

  lemma PushesOn(cfg: Config, s: Scene) returns (worlds: seq<World>, events: seq<Event>, w: World, uri: string)
    requires Plays(cfg, s)
    ensures RunTo(cfg, worlds, events, w) && w.db == Beginning(s).(par := map[uri := Pushed(cfg, s)])
  {
    hide Validate, PushedParams, RequestUriFor;
    w := World(Beginning(s), map[], map[], {}, map[]);
    worlds, events := [w], [];
    assert RunTo(cfg, worlds, events, w);
    hide Run;
    var p := Push(s.client, s.body, None);
    var t, worlds1, events1, w1;
    worlds1, events1, w1, t := GoStart(cfg, worlds, events, w, p);
    uri := RequestUriFor("a");
    var f := PushStep(cfg, s.client, s.body, None, At(s));
    assert f.write == PutPar(uri, Pushed(cfg, s));
    worlds, events, w := GoStep(cfg, worlds1, events1, w1, t, At(s), f);
    assert w.db.par == map[uri := Pushed(cfg, s)];
  }

  ghost predicate Stored(cfg: Config, s: Scene, db: Db, uri: string) {
    db.clients == Beginning(s).clients && db.par == map[uri := Pushed(cfg, s)]
  }

  lemma AuthorizeEffects(cfg: Config, s: Scene, db: Db, uri: string)
    requires Plays(cfg, s) && Stored(cfg, s, db, uri)
    ensures var id, session, params := s.client.clientId, Some(s.user), Pushed(cfg, s).params;
            && AuthorizeStep(cfg, db, Enter(id, uri, session), At(s))
               == Go(Authorizing(Reload(id, uri, params, session)))
            && AuthorizeStep(cfg, db, Reload(id, uri, params, session), At(s)) == Go(Authorizing(Park(id, uri, s.at)))
  {
    ReadsBackSame(s, cfg);
    AsksNoneExactly(s.request);
    hide Validate, PushedParams, Lift, Lawful, AsksNone, PromptNone, FreshFor, NeedsReauthentication;
  }

  lemma ParksOn(cfg: Config, s: Scene) returns (worlds: seq<World>, events: seq<Event>, w: World, uri: string)
    requires Plays(cfg, s)
    ensures RunTo(cfg, worlds, events, w)
    ensures w.db == Beginning(s).(par := map[uri := Pushed(cfg, s)],
                                  interactions := map["a" := ParkedRow(cfg, s, uri, false)])
  {
    worlds, events, w, uri := PushesOn(cfg, s);
    AuthorizeEffects(cfg, s, w.db, uri);
    hide RunTo, Pushed, AuthorizeStep, Plays, ParkedRow, Lawful;
    var id, session, params := s.client.clientId, Some(s.user), Pushed(cfg, s).params;
    var t;
    worlds, events, w, t := GoStart(cfg, worlds, events, w, Authorizing(Enter(id, uri, session)));
    worlds, events, w := GoStep(cfg, worlds, events, w, t, At(s), Go(Authorizing(Reload(id, uri, params, session))));
    worlds, events, w := GoStep(cfg, worlds, events, w, t, At(s), Go(Authorizing(Park(id, uri, s.at))));
    worlds, events, w := Parks(cfg, s, worlds, events, w, t, uri);
  }

  lemma Parks(cfg: Config, s: Scene, worlds: seq<World>, events: seq<Event>, w: World, t: nat, uri: string)
    returns (worlds': seq<World>, events': seq<Event>, w': World)
    requires RunTo(cfg, worlds, events, w) && w.db.interactions == map[]
    requires t in w.procs && w.procs[t] == Authorizing(Park(s.client.clientId, uri, s.at))
    ensures RunTo(cfg, worlds', events', w')
    ensures w'.db == w.db.(interactions := map["a" := ParkedRow(cfg, s, uri, false)])
  {
    hide RunTo;
    worlds', events', w' := GoStep(cfg, worlds, events, w, t, At(s),
                                   AuthorizeStep(cfg, w.db, Park(s.client.clientId, uri, s.at), At(s)));
    assert w'.db.interactions == map["a" := ParkedRow(cfg, s, uri, false)];
  }

  lemma ViewEffects(cfg: Config, s: Scene, db: Db, uri: string)
    requires Plays(cfg, s) && Stored(cfg, s, db, uri) && db.interactions == map["a" := ParkedRow(cfg, s, uri, false)]
    ensures var row, session, params := ParkedRow(cfg, s, uri, false), Some(s.user), Pushed(cfg, s).params;
            && ViewStep(db, Viewing.Open("a", session), At(s)) == Go(Viewing(PeekFor("a", row, session)))
            && ViewStep(db, PeekFor("a", row, session), At(s)) == Go(Viewing(CheckFor("a", row, params, session)))
            && ViewStep(db, CheckFor("a", row, params, session), At(s)) == Go(Viewing(BindTo("a", s.user)))
  {
    CheckEffect(cfg, s, db, ParkedRow(cfg, s, uri, false));
    hide Validate, PushedParams, Lift, Lawful, NeedsReauthentication;
  }

  lemma CheckEffect(cfg: Config, s: Scene, db: Db, row: InteractionRow)
    requires Plays(cfg, s) && db.clients == Beginning(s).clients && row.clientId == s.client.clientId
    ensures ViewStep(db, CheckFor("a", row, Pushed(cfg, s).params, Some(s.user)), At(s))
            == Go(Viewing(BindTo("a", s.user)))
  {
    ReadsBackSame(s, cfg);
    FreshExactly(Some(s.user), s.request, FloorSec(s.at));
    hide Validate, Pushed, Lift, Lawful, FreshFor, NeedsReauthentication, AsksNone;
  }

  lemma BoundRow(cfg: Config, s: Scene, uri: string)
    ensures BindSubject(map["a" := ParkedRow(cfg, s, uri, false)], "a", s.user.sub, s.user.authTime * 1000, s.user.acr,
                        s.user.amr)
            == map["a" := ParkedRow(cfg, s, uri, true)]
  {
  }

  lemma ShowsOn(cfg: Config, s: Scene) returns (worlds: seq<World>, events: seq<Event>, w: World, uri: string)
    requires Plays(cfg, s)
    ensures RunTo(cfg, worlds, events, w)
    ensures w.db == Beginning(s).(par := map[uri := Pushed(cfg, s)],
                                  interactions := map["a" := ParkedRow(cfg, s, uri, true)])
  {
    worlds, events, w, uri := ParksOn(cfg, s);
    ViewEffects(cfg, s, w.db, uri);
    BoundRow(cfg, s, uri);
    hide RunTo, Pushed, ViewStep, Plays, ParkedRow, BindSubject, Lawful, At, NeedsReauthentication, Beginning, Validate;
    var row, session, params := ParkedRow(cfg, s, uri, false), Some(s.user), Pushed(cfg, s).params;
    var t;
    worlds, events, w, t := GoStart(cfg, worlds, events, w, Viewing(Viewing.Open("a", session)));
    worlds, events, w := GoStep(cfg, worlds, events, w, t, At(s), Go(Viewing(PeekFor("a", row, session))));
    worlds, events, w := GoStep(cfg, worlds, events, w, t, At(s), Go(Viewing(CheckFor("a", row, params, session))));
    worlds, events, w := GoStep(cfg, worlds, events, w, t, At(s), Go(Viewing(BindTo("a", s.user))));
    worlds, events, w := Binds(cfg, s, worlds, events, w, t);
  }

  lemma Binds(cfg: Config, s: Scene, worlds: seq<World>, events: seq<Event>, w: World, t: nat)
    returns (worlds': seq<World>, events': seq<Event>, w': World)
    requires RunTo(cfg, worlds, events, w) && t in w.procs && w.procs[t] == Viewing(BindTo("a", s.user))
    ensures RunTo(cfg, worlds', events', w')
    ensures w'.db == w.db.(interactions :=
                           BindSubject(w.db.interactions, "a", s.user.sub, s.user.authTime * 1000, s.user.acr,
                                                       s.user.amr))
  {
    hide RunTo, BindSubject;
    worlds', events', w' := GoStep(cfg, worlds, events, w, t, At(s), ViewStep(w.db, BindTo("a", s.user), At(s)));
  }

  lemma SceneAwaits(cfg: Config, s: Scene, db: Db, uri: string, now: Ms)
    requires Plays(cfg, s) && now < s.at + cfg.parTtlMs && now < s.at + cfg.interactionTtlMs
    requires db == Beginning(s).(par := map[uri := Pushed(cfg, s)],
                                 interactions := map["a" := ParkedRow(cfg, s, uri, true)])
    ensures AwaitsConsent(db, "a", s.user.sub, s.request, now)
    ensures AskOf(db, "a", s.user, s.request) == Ask(uri, s.request, s.client, UserOf(s.user))
  {
    ReadsBackSame(s, cfg);
    hide Validate, PushedParams, Lift, NeedsReauthentication;
  }

  /** Any such request can come to a code that is open to the client. */
  lemma ReachesOpenCode(cfg: Config, s: Scene, verifier: string, jkt: string)
    returns (worlds: seq<World>, events: seq<Event>, w: World, mint: Mint)
    requires Plays(cfg, s) && WellFormedChallenge(verifier) && cfg.sha(verifier) == s.request.codeChallenge
    requires s.request.dpopJkt.Some? ==> s.request.dpopJkt.value == jkt
    ensures RunTo(cfg, worlds, events, w) && OpenCode(cfg, w.db, s.client, "a", mint, s.at) && w.db.access == map[]
    ensures w.db.refresh == map[] && "a" in w.origins && w.origins["a"].request == s.request
    ensures w.db.codes[mint.codeHash].grantId == "a" && mint.jkt == jkt
  {
    var uri, t;
    worlds, events, w, uri, t := ReachesGrant(cfg, s);
    var ask := Ask(uri, s.request, s.client, UserOf(s.user));
    ghost var granted := w.db;
    mint := FromCode(cfg.sha("a"), Some(s.request.redirectUri), Some(verifier), jkt);
    OpensFor(cfg, s, granted, ask, mint);
    hide Plays, RunTo, WellFormedChallenge, OpenCode;
    worlds, events, w := IssuesOn(cfg, worlds, events, w, t, ask, s.at);
  }

  lemma OpensFor(cfg: Config, s: Scene, db: Db, ask: Ask, mint: Mint)
    requires ask.client == s.client && ask.request == s.request && cfg.codeTtlMs > 0
    requires mint.FromCode? && mint.codeHash == cfg.sha("a") && mint.redirectUri == Some(s.request.redirectUri)
    requires VerifyS256(cfg, mint.verifier, s.request.codeChallenge)
    requires s.request.dpopJkt.Some? ==> s.request.dpopJkt.value == mint.jkt
    requires db.clients == Beginning(s).clients && "a" in db.grants && db.grants["a"].revokedAt.None?
    ensures OpenCode(cfg, db.(codes := map[cfg.sha("a") := FirstCode(cfg, ask, s.at)]), s.client, "a", mint, s.at)
  {
  }

  lemma ReachesGrant(cfg: Config, s: Scene)
    returns (worlds: seq<World>, events: seq<Event>, w: World, uri: string, t: nat)
    requires Plays(cfg, s)
    ensures var ask := Ask(uri, s.request, s.client, UserOf(s.user));
            && RunTo(cfg, worlds, events, w) && t in w.procs && w.procs[t] == Issuing(InsertCode("a", ask, s.at))
            && "a" in w.origins && w.origins["a"] == ask
    ensures w.db.clients == Beginning(s).clients && "a" in w.db.grants && w.db.grants["a"].revokedAt.None?
    ensures w.db.codes == map[] && w.db.access == map[] && w.db.refresh == map[]
  {
    var k, j;
    worlds, events, w, uri := ShowsOn(cfg, s);
    SceneAwaits(cfg, s, w.db, uri, s.at);
    hide Plays, AwaitsConsent, RunTo, Steps, AskOf, ConsumePar, CompleteInteraction, Pushed, ParkedRow;
    worlds, events, w, k, j, t := ConsentsOn(cfg, worlds, events, w, "a", s.user, s.request, s.at, "a");
  }
}
