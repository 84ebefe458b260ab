/** What the invariant means for whole runs. */
module Descent {
  import opened Base
  import opened AuthzRequest
  import opened Tables
  import opened Protocol
  import opened Provenance
  import Text

  // ------------------------------------------------------ registered clients

  /** The client was registered exactly so in one of these worlds. */
  ghost predicate OnceRegistered(worlds: seq<World>, c: Client) {
    exists k :: 0 <= k < |worlds| && Known(worlds[k].db, c)
  }

  /** The request a process or a grant is about. */
  function AskOf(p: Proc): Option<Ask> {
    match p
    case Consenting(c) => if c.Close? then Some(c.ask) else None
    case Issuing(i) => if i.Decline? then None else Some(i.ask)
    case _ => None
  }

  ghost predicate AsksRegistered(worlds: seq<World>, w: World) {
    && (forall t | t in w.procs :: AskOf(w.procs[t]).Some? ==> OnceRegistered(worlds, AskOf(w.procs[t]).value.client))
    && (forall g | g in w.origins :: OnceRegistered(worlds, w.origins[g].client))
  }

  /** A step keeps the request it is about, or has just read its client. */
  lemma AskFromClient(cfg: Config, db: Db, p: Proc, input: Input)
    requires !p.Done? && ClientsOk(db)
    ensures var f := Act(cfg, db, p, input);
            && (AskOf(f.next).Some? ==> AskOf(f.next) == AskOf(p) || Known(db, AskOf(f.next).value.client))
            && (f.note.Granted? ==> AskOf(p) == Some(f.note.ask))
  {
    hide Lawful, PushStep, RedeemStep, RefreshStep, MintStep, RevokeStep;
    match p
    case Issuing(_) =>
    case Consenting(_) =>
    case Authorizing(_) =>
    case Viewing(_) =>
    case _ => NoAsk(cfg, db, p, input);
  }

  lemma NoAsk(cfg: Config, db: Db, p: Proc, input: Input)
    requires p.Push? || p.Redeeming? || p.Refreshing? || p.Minting? || p.Revoking?
    ensures var f := Act(cfg, db, p, input); AskOf(f.next).None? && !f.note.Granted?
  {
  }

  lemma {:induction false} RunRegistered(cfg: Config, worlds: seq<World>, events: seq<Event>, i: nat)
    requires Run(cfg, worlds, events) && i < |worlds|
    ensures AsksRegistered(worlds[..i + 1], worlds[i])
  {
    hide Legal, After, Inv, OnceRegistered, AskOf;
    if i > 0 {
      RunRegistered(cfg, worlds, events, i - 1);
      RunInv(cfg, worlds, events, i - 1);
      assert worlds[..i] + [worlds[i]] == worlds[..i + 1];
      RegisteredKept(cfg, worlds[..i], worlds[i - 1], events[i - 1]);
    }
  }

  lemma RegisteredKept(cfg: Config, past: seq<World>, w: World, e: Event)
    requires Inv(cfg, w) && Legal(cfg, w, e) && past != [] && past[|past| - 1] == w && AsksRegistered(past, w)
    ensures AsksRegistered(past + [After(cfg, w, e)], After(cfg, w, e))
  {
    hide Act, Inv, Commit, AskOf, Apply, Fresh, Entry, OnceRegistered;
    var w' := After(cfg, w, e);
    StillRegistered(past, w', w);
    match e
    case Step(t, input) =>
      assert ClientsOk(w.db) by { InvClients(cfg, w); }
      var f := Act(cfg, w.db, w.procs[t], input);
      AskFromClient(cfg, w.db, w.procs[t], input);
      if AskOf(f.next).Some? && Known(w.db, AskOf(f.next).value.client) {
        RegisteredNow(past, w, w', AskOf(f.next).value.client);
      }
      CommitParts(w, t, f);
    case Start(t, p) => EntryAsksNothing(cfg, w, t, p);
    case Crash(t) => assert AskOf(Done(Crashed)).None? by { NoAskDone(); }
    case Register(c) =>
  }

  lemma RegisteredNow(past: seq<World>, w: World, w': World, c: Client)
    requires past != [] && past[|past| - 1] == w && Known(w.db, c)
    ensures OnceRegistered(past + [w'], c)
  {
    assert (past + [w'])[|past| - 1] == w;
  }

  lemma StillRegistered(worlds: seq<World>, w': World, w: World)
    requires AsksRegistered(worlds, w)
    ensures AsksRegistered(worlds + [w'], w)
  {
    hide Known, AskOf;
    forall c | OnceRegistered(worlds, c) ensures OnceRegistered(worlds + [w'], c) {
      var k :| 0 <= k < |worlds| && Known(worlds[k].db, c);
      assert (worlds + [w'])[k] == worlds[k];
    }
  }

  lemma LegalStep(cfg: Config, w: World, t: nat, input: Input)
    requires Legal(cfg, w, Step(t, input))
    ensures t in w.procs && !w.procs[t].Done?
  {
    hide Fresh, Act;
  }

  lemma InvClients(cfg: Config, w: World)
    requires Inv(cfg, w)
    ensures ClientsOk(w.db)
  {
    hide ClientsOk, ParRowsOk, GrantsOk, CodesOk, AccessesOk, RefreshesOk, AllHold, ClaimsOk;
  }

  lemma EntryAsksNothing(cfg: Config, w: World, t: nat, p: Proc)
    requires Legal(cfg, w, Start(t, p))
    ensures AskOf(p).None?
  {
    hide Known, Act;
  }

  lemma NoAskDone()
    ensures AskOf(Done(Crashed)).None?
  {
  }

  // ------------------------------------------------- provenance, attenuation

  /** Everything the stored token `jti` goes back to: one grant, one redeemed code
      and one consumed pushed request, whose validated form was `v`; nothing on
      the way changes client or subject, and nothing widens the scope. */
  ghost predicate Descends(worlds: seq<World>, w: World, jti: string, code: string, v: Validated) {
    && jti in w.db.access
    && var token := w.db.access[jti];
    && token.grantId in w.db.grants && token.grantId in w.origins && code in w.db.codes
    && var grant, ask, row := w.db.grants[token.grantId], w.origins[token.grantId], w.db.codes[code];
    && ask.uri in w.db.par
    && var pushed := w.db.par[ask.uri];
    && row.grantId == token.grantId && row.consumedAt.Some? && pushed.consumedAt.Some?
    && (forall h | h in w.db.codes && w.db.codes[h].grantId == token.grantId :: h == code)
    && (forall g | g in w.origins && w.origins[g].uri == ask.uri :: g == token.grantId)
    && token.clientId == grant.clientId == row.clientId == pushed.clientId == ask.client.clientId
    && token.subject == grant.subject == ask.user.sub
    && Text.WordsWithin(token.scope, grant.scope) && Text.WordsWithin(grant.scope, ask.client.scope)
    && OnceRegistered(worlds, ask.client)
    && row.redirectUri == v.redirectUri && row.redirectUri in ask.client.redirectUris
    && row.codeChallenge == v.codeChallenge && row.dpopJkt == pushed.dpopJkt
    && pushed.params == PushedParams(v, pushed.dpopJkt)
    && ask.request == v.(scope := RereadScope(v, ask.client), dpopJkt := pushed.dpopJkt)
    && grant.scope == ask.request.scope
  }

  /** Validating what was pushed gave the request that was asked. */
  lemma AskFromPushed(row: ParRow, a: Ask) returns (v: Validated)
    requires ParOk(row) && a.client.clientId == row.clientId
    requires Validate(Lift(row.params), a.client) == Ok(a.request)
    ensures row.params == PushedParams(v, row.dpopJkt)
    ensures a.request == v.(scope := RereadScope(v, a.client), dpopJkt := row.dpopJkt)
    ensures RedirectUriRegistered(a.client, v.redirectUri) && ScopeAllowed(a.client, a.request.scope)
  {
    hide Validate, Sound, PushedParams, RereadScope, ScopeAllowed, WellFormedJkt;
    var u, registration :| PushedAs(row, u, registration);
    v := u;
    StoredFormRoundTrip(v, registration, a.client, row.dpopJkt);
  }

  lemma TokenDescends(cfg: Config, worlds: seq<World>, events: seq<Event>, i: nat, jti: string)
    returns (code: string, v: Validated)
    requires Run(cfg, worlds, events) && i < |worlds| && jti in worlds[i].db.access
    ensures Descends(worlds[..i + 1], worlds[i], jti, code, v)
  {
    hide Run, Validate, ParOk, MintOk, Sound, PushedParams, RereadScope, OnceRegistered, AllHold, ClaimsOk, ClientsOk,
         Text.Words, Text.WordsWithin;
    var w := worlds[i];
    RunInv(cfg, worlds, events, i);
    RunRegistered(cfg, worlds, events, i);
    assert AccessOk(cfg, w, jti);
    var g := w.db.access[jti].grantId;
    assert GrantOk(w, g);
    code := CodeOfMint(cfg, w, g, w.mints[jti]);
    assert CodeOk(w, code);
    v := AskFromPushed(w.db.par[w.origins[g].uri], w.origins[g]);
    Text.WithinExactly(w.db.access[jti].scope, w.db.grants[g].scope);
    Text.WithinExactly(w.db.grants[g].scope, w.origins[g].client.scope);
  }

  lemma CodeOfMint(cfg: Config, w: World, g: string, mint: Mint) returns (code: string)
    requires RowsOk(cfg, w) && MintOk(cfg, w.db, g, mint)
    ensures RedeemedCode(w.db, g, code)
  {
    hide ClientsOk, ParRowsOk, GrantsOk, CodesOk, AccessesOk;
    match mint
    case FromCode(h, _, _, _) => code := h;
    case FromRefresh(h, _) =>
      assert RefreshOk(w, h);
      code :| RedeemedCode(w.db, g, code);
  }

  /** The token minted with a code went to whoever showed the redirect URI of the
      pushed request, the verifier of its challenge, and the key PAR bound. */
  lemma MintedForTheHolder(cfg: Config, worlds: seq<World>, events: seq<Event>, i: nat, jti: string)
    requires Run(cfg, worlds, events) && i < |worlds| && jti in worlds[i].db.access
    requires jti in worlds[i].mints ==> worlds[i].mints[jti].FromCode?
    ensures var w := worlds[i];
            && jti in w.mints
            && var mint, token := w.mints[jti], w.db.access[jti];
            && mint.codeHash in w.db.codes
            && var row := w.db.codes[mint.codeHash];
            && row.grantId == token.grantId && row.grantId in w.origins && w.origins[row.grantId].uri in w.db.par
            && var pushed := w.db.par[w.origins[row.grantId].uri];
            && mint.redirectUri == Some(w.origins[row.grantId].request.redirectUri)
            && mint.verifier.Some? && 43 <= |mint.verifier.value| <= 128
            && cfg.sha(mint.verifier.value) == w.origins[row.grantId].request.codeChallenge
            && token.cnfJkt == Some(mint.jkt) && (pushed.dpopJkt.Some? ==> token.cnfJkt == pushed.dpopJkt)
  {
    hide Run, Validate, ParOk, VerifyS256, PushedParams, OnceRegistered, AllHold, ClaimsOk, ClientsOk;
    var w := worlds[i];
    RunInv(cfg, worlds, events, i);
    assert AccessOk(cfg, w, jti);
    var g := w.db.access[jti].grantId;
    assert GrantOk(w, g) && CodeOk(w, w.mints[jti].codeHash);
    VerifiesExactly(cfg, w.mints[jti].verifier, w.db.codes[w.mints[jti].codeHash].codeChallenge);
    var v := AskFromPushed(w.db.par[w.origins[g].uri], w.origins[g]);
  }

  // ------------------------------------------------------- growth over a run

  lemma EventGrows(cfg: Config, w: World, e: Event)
    requires Inv(cfg, w) && Legal(cfg, w, e)
    ensures Grows(w, After(cfg, w, e)) && w.declined <= After(cfg, w, e).declined
  {
    hide Act, Fresh, Apply, Evolves, RowsOk, AllHold, ClaimsOk, OneGrantPerRequest, OneCodePerGrant, OneRefreshPerGrant;
    match e
    case Step(t, input) =>
      CommitGrows(w, t, w.procs[t], Act(cfg, w.db, w.procs[t], input));
      CommitParts(w, t, Act(cfg, w.db, w.procs[t], input));
    case Start(t, p) => SameGrows(w, After(cfg, w, e));
    case Crash(t) => SameGrows(w, After(cfg, w, e));
    case Register(c) => RegisterGrows(cfg, w, c);
  }

  lemma RegisterGrows(cfg: Config, w: World, c: Client)
    ensures Grows(w, After(cfg, w, Register(c)))
  {
    SameGrows(w, After(cfg, w, Register(c)));
  }

  lemma GrowsTransitive(a: World, b: World, c: World)
    requires Grows(a, b) && Grows(b, c)
    ensures Grows(a, c)
  {
    hide Evolves;
    EvolvesTransitive(a.db, b.db, c.db);
  }

  /** From any moment of a run to any later one, rows stay, keep what they were
      inserted with, and their death marks are written once. */
  lemma {:induction false} RunGrows(cfg: Config, worlds: seq<World>, events: seq<Event>, i: nat, j: nat)
    requires Run(cfg, worlds, events) && i <= j < |worlds|
    ensures Grows(worlds[i], worlds[j]) && worlds[i].declined <= worlds[j].declined
    decreases j
  {
    hide Inv, Legal, After, Initial, Grows;
    if i == j {
      SameGrows(worlds[i], worlds[j]);
    } else {
      RunGrows(cfg, worlds, events, i, j - 1);
      RunInv(cfg, worlds, events, j - 1);
      EventGrows(cfg, worlds[j - 1], events[j - 1]);
      GrowsTransitive(worlds[i], worlds[j - 1], worlds[j]);
    }
  }

  // -------------------------------------------------------- use before expiry

  predicate Timely(usedAt: Option<int>, expiresAt: int) { usedAt.Some? ==> usedAt.value < expiresAt }

  /** Whatever was used up was used up before it expired. */
  ghost predicate UsedInTime(db: Db) {
    && (forall u | u in db.par :: Timely(db.par[u].consumedAt, db.par[u].expiresAt))
    && (forall h | h in db.codes :: Timely(db.codes[h].consumedAt, db.codes[h].expiresAt))
    && (forall x | x in db.interactions :: Timely(db.interactions[x].completedAt, db.interactions[x].expiresAt))
  }

  /** What a step inserts is unused. */
  lemma InsertsUnused(cfg: Config, db: Db, p: Proc, input: Input)
    requires !p.Done?
    ensures var write := Act(cfg, db, p, input).write;
            && (write.PutPar? ==> write.par.consumedAt.None?)
            && (write.PutCode? ==> write.code.consumedAt.None?)
            && (write.PutInteraction? ==> write.interaction.completedAt.None?)
  {
    hide Validate, PushedParams, NeedsReauthentication, PromptNone, ScopeSubset, RequestedScope, Redeemable;
  }

  lemma UseKeepsTime(db: Db, write: Write)
    requires UsedInTime(db)
    requires write.PutPar? ==> write.par.consumedAt.None?
    requires write.PutCode? ==> write.code.consumedAt.None?
    requires write.PutInteraction? ==> write.interaction.completedAt.None?
    ensures UsedInTime(Apply(db, write))
  {
  }

  /** In every world of a run, by the clock reading of the very step that used it:
      pushed requests, codes and interactions. */
  lemma {:induction false} RunUsedInTime(cfg: Config, worlds: seq<World>, events: seq<Event>, i: nat)
    requires Run(cfg, worlds, events) && i < |worlds|
    ensures UsedInTime(worlds[i].db)
  {
    hide Act, Legal, Apply;
    if i > 0 {
      RunUsedInTime(cfg, worlds, events, i - 1);
      var w, e := worlds[i - 1], events[i - 1];
      match e
      case Step(t, input) =>
        LegalStep(cfg, w, t, input);
        var f := Act(cfg, w.db, w.procs[t], input);
        InsertsUnused(cfg, w.db, w.procs[t], input);
        UseKeepsTime(w.db, f.write);
        CommitParts(w, t, f);
      case Register(c) => UseKeepsTime(w.db, PutClient(c));
      case _ =>
    }
  }

  // ------------------------------------------- one outcome per request_uri

  /** The pushed request that a stored code was issued for. */
  ghost predicate IssuedFor(w: World, code: string, uri: string) {
    code in w.db.codes && w.db.codes[code].grantId in w.origins && w.origins[w.db.codes[code].grantId].uri == uri
  }

  lemma IssuedForKept(w: World, w': World, code: string, uri: string)
    requires Grows(w, w') && IssuedFor(w, code, uri)
    ensures IssuedFor(w', code, uri)
  {
  }

  /** However interactions, consents and prompt=none requests interleave, at any two
      moments of a run: one pushed request has at most one code, and none if a
      refusal consumes it, before or after. */
  lemma OneOutcome(cfg: Config, worlds: seq<World>, events: seq<Event>, i: nat, j: nat, uri: string, c: string,
                   d: string)
    requires Run(cfg, worlds, events) && i < |worlds| && j < |worlds|
    requires IssuedFor(worlds[i], c, uri)
    ensures IssuedFor(worlds[j], d, uri) ==> d == c
    ensures uri !in worlds[j].declined
  {
    hide Run, RowsOk, AllHold, ClaimsOk, Grows, OneRefreshPerGrant;
    var last := |worlds| - 1;
    RunGrows(cfg, worlds, events, i, last);
    RunGrows(cfg, worlds, events, j, last);
    RunInv(cfg, worlds, events, last);
    IssuedForKept(worlds[i], worlds[last], c, uri);
    if IssuedFor(worlds[j], d, uri) {
      IssuedForKept(worlds[j], worlds[last], d, uri);
    }
  }
}
