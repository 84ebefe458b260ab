/** Runs that show the two races: a token comes to life after the replay cascade, or the
    revocation of the refresh token, has done all its work. */
module Races {
  import opened Base
  import opened AuthzRequest
  import opened Tables
  import opened Protocol
  import opened Provenance
  import opened Cascade
  import opened Runs

  /** Everything done that a revocation can do, and yet a token to come. */
  ghost predicate OpenAfterAll(w: World, g: string) {
    Closed(w.db, g) && AllRevoked(w.db, g) && !NoneAble(w, g)
  }

  ghost predicate LiveToken(db: Db, j: string, g: string) {
    j in db.access && db.access[j].grantId == g && db.access[j].revokedAt.None?
  }

  // ------------------------------------------------------------- the cascade

  function Presents(client: Client, code: string, mint: Mint): Proc
    requires mint.FromCode?
  {
    Redeeming(Present(client, mint.jkt, code, mint.redirectUri, mint.verifier))
  }

  /** One presentation redeems the code and finds the grant. */
  lemma Wins(cfg: Config, worlds: seq<World>, events: seq<Event>, w: World, t: nat, client: Client, code: string,
             mint: Mint, now: Ms)
    returns (worlds': seq<World>, events': seq<Event>, w': World)
    requires RunTo(cfg, worlds, events, w) && OpenCode(cfg, w.db, client, code, mint, now)
    requires t in w.procs && w.procs[t] == Presents(client, code, mint)
    ensures GoesOn(cfg, worlds, events, worlds', events', w')
    ensures w'.db == w.db.(codes := RedeemRows(w.db.codes, mint.codeHash, now)) && w'.origins == w.origins
    ensures var g := w.db.codes[mint.codeHash].grantId;
            var earned := Earned(client, g, w.db.grants[g].subject, w.db.grants[g].scope, mint);
            w'.procs == w.procs[t := Minting(InsertAccess(earned, "refresh_token" in client.grantTypes))]
  {
    hide RunTo, Redeemable;
    var i := Input(now, "", true);
    var f := RedeemStep(cfg, w.db, w.procs[t].redeeming, i);
    assert f.write == TakeCode(mint.codeHash, now) && f.next.Redeeming? && f.next.redeeming.FindGrant?;
    var worlds1, events1, w1 := GoStep(cfg, worlds, events, w, t, i, f);
    hide RedeemRows;
    var f1 := RedeemStep(cfg, w1.db, f.next.redeeming, i);
    assert f1.write == Nothing && f1.next.Minting?;
    worlds', events', w' := GoStep(cfg, worlds1, events1, w1, t, i, f1);
    GoesOnOn(cfg, worlds, events, worlds1, events1, w1, worlds', events', w');
  }

  /** Another presentation of the code runs the whole cascade. */
  lemma CascadesOn(cfg: Config, worlds: seq<World>, events: seq<Event>, w: World, t: nat, client: Client, code: string,
                   mint: Mint, now: Ms)
    returns (worlds': seq<World>, events': seq<Event>, w': World)
    requires RunTo(cfg, worlds, events, w) && t in w.procs && mint.FromCode? && mint.codeHash == cfg.sha(code)
    requires w.procs[t] == Presents(client, code, mint)
    requires mint.codeHash in w.db.codes && w.db.codes[mint.codeHash].consumedAt.Some?
    requires w.db.codes[mint.codeHash].grantId in w.db.grants
    ensures GoesOn(cfg, worlds, events, worlds', events', w')
    ensures var g := w.db.codes[mint.codeHash].grantId;
            Closed(w'.db, g) && AllRevoked(w'.db, g) && g in w'.db.grants && w'.db.grants[g].revokedAt.Some?
    ensures w'.db.access.Keys == w.db.access.Keys
    ensures w'.procs == w.procs[t := Done(Rejected)]
  {
    hide RunTo, AllRevoked, Closed;
    var i := Input(now, "", true);
    var g := w.db.codes[mint.codeHash].grantId;
    var worlds1, events1, w1 := GoStep(cfg, worlds, events, w, t, i, RedeemStep(cfg, w.db, w.procs[t].redeeming, i));
    assert w1.db == w.db && w1.procs[t] == Redeeming(CascadeGrant(g, now));
    worlds', events', w' := CutsOn(cfg, worlds1, events1, w1, t, g, now);
    GoesOnOn(cfg, worlds, events, worlds1, events1, w1, worlds', events', w');
  }

  lemma CutsOn(cfg: Config, worlds: seq<World>, events: seq<Event>, w: World, t: nat, g: string, now: Ms)
    returns (worlds': seq<World>, events': seq<Event>, w': World)
    requires RunTo(cfg, worlds, events, w) && t in w.procs && w.procs[t] == Redeeming(CascadeGrant(g, now))
    requires g in w.db.grants
    ensures GoesOn(cfg, worlds, events, worlds', events', w')
    ensures Closed(w'.db, g) && AllRevoked(w'.db, g) && g in w'.db.grants && w'.db.grants[g].revokedAt.Some?
    ensures w'.db.access.Keys == w.db.access.Keys && w'.procs == w.procs[t := Done(Rejected)]
  {
    hide RunTo, AllRevoked, Closed, RevokeGrant, RevokeAccessOf, RevokeRefreshOf;
    var i := Input(now, "", true);
    var f1 := Effect(DropGrant(g, now), Redeeming(CascadeAccess(g, now)), Quiet);
    var worlds2, events2, w2 := GoStep(cfg, worlds, events, w, t, i, f1);
    var f2 := Effect(DropAccessOf(g, now), Redeeming(CascadeRefresh(g, now)), Quiet);
    var worlds3, events3, w3 := GoStep(cfg, worlds2, events2, w2, t, i, f2);
    var f3 := Effect(DropRefreshOf(g, now), Done(Rejected), Quiet);
    worlds', events', w' := GoStep(cfg, worlds3, events3, w3, t, i, f3);
    GoesOnOn(cfg, worlds, events, worlds2, events2, w2, worlds3, events3, w3);
    GoesOnOn(cfg, worlds, events, worlds3, events3, w3, worlds', events', w');
    CutAll(w.db, w'.db, g, now);
  }

  /** A request past its checks puts in a live token. */
  lemma MintsOn(cfg: Config, worlds: seq<World>, events: seq<Event>, w: World, t: nat, g: string, jti: string, now: Ms)
    returns (worlds': seq<World>, events': seq<Event>, w': World)
    requires RunTo(cfg, worlds, events, w) && t in w.procs && w.procs[t].Minting? && w.procs[t].minting.InsertAccess?
    requires w.procs[t].minting.earned.grantId == g && jti !in w.db.access
    ensures GoesOn(cfg, worlds, events, worlds', events', w') && LiveToken(w'.db, jti, g) && w'.db.grants == w.db.grants
    ensures w'.db.access[jti].cnfJkt == Some(w.procs[t].minting.earned.mint.jkt)
  {
    hide RunTo;
    var i := Input(now, jti, true);
    worlds', events', w' := GoStep(cfg, worlds, events, w, t, i, MintStep(cfg, w.procs[t].minting, i));
  }

  /** Wherever a run has come to with an open code: it can go on so that a replay of
      the code cuts the grant and every token of it, with all of its steps, and then a
      token of the grant comes to life. */
  lemma CascadeRace(cfg: Config, worlds: seq<World>, events: seq<Event>, w: World, client: Client, code: string,
                    mint: Mint, now: Ms, jti: string)
    returns (worlds1: seq<World>, events1: seq<Event>, w1: World, worlds2: seq<World>, events2: seq<Event>,
             w2: World, t: nat)
    requires RunTo(cfg, worlds, events, w) && OpenCode(cfg, w.db, client, code, mint, now) && jti !in w.db.access
    ensures GoesOn(cfg, worlds, events, worlds1, events1, w1) && GoesOn(cfg, worlds1, events1, worlds2, events2, w2)
    ensures var g := w.db.codes[mint.codeHash].grantId;
            && OpenAfterAll(w1, g) && t in w1.procs && w1.procs[t] == Done(Rejected)
            && LiveToken(w2.db, jti, g) && g in w2.db.grants && w2.db.grants[g].revokedAt.Some?
  {
    hide RunTo, Redeemable, Closed, AllRevoked, RedeemRows;
    var g := w.db.codes[mint.codeHash].grantId;
    var p := Presents(client, code, mint);
    assert Entry(w.db, p) by { OpenEnters(cfg, w.db, client, code, mint, now); }
    var wa, ea, xa, first := GoStart(cfg, worlds, events, w, p);
    var wb, eb, xb, second := GoStart(cfg, wa, ea, xa, p);
    GoesOnOn(cfg, worlds, events, wa, ea, xa, wb, eb, xb);
    var wc, ec, xc := Wins(cfg, wb, eb, xb, first, client, code, mint, now);
    GoesOnOn(cfg, worlds, events, wb, eb, xb, wc, ec, xc);
    UsedUp(cfg, w.db, client, code, mint, now);
    worlds1, events1, w1 := CascadesOn(cfg, wc, ec, xc, second, client, code, mint, now);
    GoesOnOn(cfg, worlds, events, wc, ec, xc, worlds1, events1, w1);
    t := second;
    assert Able(w1.db, w1.procs[first], g);
    worlds2, events2, w2 := MintsOn(cfg, worlds1, events1, w1, first, g, jti, now);
  }

  lemma OpenEnters(cfg: Config, db: Db, client: Client, code: string, mint: Mint, now: int)
    requires OpenCode(cfg, db, client, code, mint, now)
    ensures Entry(db, Presents(client, code, mint))
  {
  }

  lemma UsedUp(cfg: Config, db: Db, client: Client, code: string, mint: Mint, now: int)
    requires OpenCode(cfg, db, client, code, mint, now)
    ensures var rows := RedeemRows(db.codes, mint.codeHash, now);
            && mint.codeHash in rows && rows[mint.codeHash].consumedAt.Some?
            && rows[mint.codeHash].grantId == db.codes[mint.codeHash].grantId
            && rows[mint.codeHash].grantId in db.grants
  {
  }

  // ---------------------------------------------------------- the revocation

  /** A refresh token that this client can use now. */
  predicate Usable(cfg: Config, db: Db, client: Client, token: string, now: int) {
    && Known(db, client)
    && var h := cfg.sha(token);
    && h in db.refresh && db.refresh[h].revokedAt.None? && db.refresh[h].expiresAt > now
    && db.refresh[h].clientId == client.clientId
    && db.refresh[h].grantId in db.grants && db.grants[db.refresh[h].grantId].revokedAt.None?
  }

  /** The owner revokes the refresh token, with all steps of the revocation. */
  lemma RevokesOn(cfg: Config, worlds: seq<World>, events: seq<Event>, w: World, t: nat, client: Client, token: string,
                  now: Ms)
    returns (worlds': seq<World>, events': seq<Event>, w': World)
    requires RunTo(cfg, worlds, events, w) && Usable(cfg, w.db, client, token, now)
    requires t in w.procs && w.procs[t] == Revoking(Resolve(client, token, None, [RefreshFinder, AccessFinder]))
    ensures GoesOn(cfg, worlds, events, worlds', events', w')
    ensures w'.db == w.db.(refresh := RevokeRefresh(w.db.refresh, cfg.sha(token), now),
                           access := RevokeAccessOf(w.db.access, w.db.refresh[cfg.sha(token)].grantId, now))
    ensures w'.procs == w.procs[t := Done(Answered)]
  {
    hide RunTo, RevokeAccessOf, RevokeRefresh;
    var i := Input(now, "", true);
    var h := cfg.sha(token);
    var g := w.db.refresh[h].grantId;
    var worlds1, events1, w1 := GoStep(cfg, worlds, events, w, t, i,
                                       Effect(Nothing, Revoking(CutRefresh(h, g)), Quiet));
    var f1 := Effect(DropRefresh(h, now), Revoking(CutRefreshAccess(h, g, now)), Quiet);
    var worlds2, events2, w2 := GoStep(cfg, worlds1, events1, w1, t, i, f1);
    var f2 := Effect(DropAccessOf(g, now), Done(Answered), Quiet);
    worlds', events', w' := GoStep(cfg, worlds2, events2, w2, t, i, f2);
    GoesOnOn(cfg, worlds, events, worlds1, events1, w1, worlds2, events2, w2);
    GoesOnOn(cfg, worlds, events, worlds2, events2, w2, worlds', events', w');
  }

  /** The revocation leaves no token of the grant: its refresh token was the only one. */
  lemma RevocationCutsAll(
    cfg: Config, worlds: seq<World>, events: seq<Event>, w: World, db': Db, h: string, g: string, now: int)
    requires RunTo(cfg, worlds, events, w) && h in w.db.refresh && w.db.refresh[h].grantId == g && g in w.db.grants
    requires db' == w.db.(refresh := RevokeRefresh(w.db.refresh, h, now), access := RevokeAccessOf(w.db.access, g, now))
    ensures Closed(db', g) && AllRevoked(db', g)
  {
    hide Legal, After, Initial, RowsOk, AllHold, ClaimsOk, OneGrantPerRequest, OneCodePerGrant;
    RunInv(cfg, worlds, events, |events|);
    assert h in db'.refresh && db'.refresh[h].revokedAt.Some?;
  }

  /** A refresh with the token gets past its lookup. */
  lemma LooksUp(cfg: Config, worlds: seq<World>, events: seq<Event>, w: World, t: nat, client: Client, jkt: string,
                token: string, now: Ms)
    returns (worlds': seq<World>, events': seq<Event>, w': World)
    requires RunTo(cfg, worlds, events, w) && Usable(cfg, w.db, client, token, now)
    requires t in w.procs && w.procs[t] == Refreshing(PresentRefresh(client, jkt, token, None))
    ensures GoesOn(cfg, worlds, events, worlds', events', w') && w'.db == w.db
    ensures var row := w.db.refresh[cfg.sha(token)];
            w'.procs == w.procs[t := Refreshing(CheckGrant(client, row, None, FromRefresh(cfg.sha(token), jkt)))]
  {
    hide RunTo;
    var i := Input(now, "", true);
    var f := RefreshStep(cfg, w.db, w.procs[t].refreshing, i);
    worlds', events', w' := GoStep(cfg, worlds, events, w, t, i, f);
  }

  lemma GoesToMint(
    cfg: Config, worlds: seq<World>, events: seq<Event>, w: World, t: nat, client: Client, row: RefreshRow, mint: Mint)
    returns (worlds': seq<World>, events': seq<Event>, w': World)
    requires RunTo(cfg, worlds, events, w) && t in w.procs
    requires w.procs[t] == Refreshing(CheckGrant(client, row, None, mint))
    requires row.grantId in w.db.grants && w.db.grants[row.grantId].revokedAt.None?
    ensures GoesOn(cfg, worlds, events, worlds', events', w') && w'.db == w.db
    ensures t in w'.procs && w'.procs[t].Minting? && w'.procs[t].minting.InsertAccess?
    ensures w'.procs[t].minting.earned.grantId == row.grantId && w'.procs[t].minting.earned.mint == mint
  {
    hide RunTo;
    var i := Input(0, "", true);
    worlds', events', w' := GoStep(cfg, worlds, events, w, t, i, RefreshStep(cfg, w.db, w.procs[t].refreshing, i));
  }

  /** Wherever a run has come to with a usable refresh token: it can go on so that its
      owner revokes it, with all steps of the revocation and every token of the grant
      cut, and then a token of the grant comes to life. */
  lemma RevocationRace(cfg: Config, worlds: seq<World>, events: seq<Event>, w: World, client: Client, jkt: string,
                       token: string, now: Ms, jti: string)
    returns (worlds1: seq<World>, events1: seq<Event>, w1: World, worlds2: seq<World>, events2: seq<Event>,
             w2: World, t: nat)
    requires RunTo(cfg, worlds, events, w) && Usable(cfg, w.db, client, token, now) && jti !in w.db.access
    ensures GoesOn(cfg, worlds, events, worlds1, events1, w1) && GoesOn(cfg, worlds1, events1, worlds2, events2, w2)
    ensures var g := w.db.refresh[cfg.sha(token)].grantId;
            && OpenAfterAll(w1, g) && t in w1.procs && w1.procs[t] == Done(Answered)
            && cfg.sha(token) in w1.db.refresh && w1.db.refresh[cfg.sha(token)].revokedAt.Some?
            && LiveToken(w2.db, jti, g)
  {
    hide RunTo, Closed, AllRevoked;
    var h := cfg.sha(token);
    var row := w.db.refresh[h];
    var g, mint := row.grantId, FromRefresh(h, jkt);
    var wa, ea, xa, first := GoStart(cfg, worlds, events, w, Refreshing(PresentRefresh(client, jkt, token, None)));
    var wb, eb, xb, second := GoStart(cfg, wa, ea, xa,
                                      Revoking(Resolve(client, token, None, [RefreshFinder, AccessFinder])));
    GoesOnOn(cfg, worlds, events, wa, ea, xa, wb, eb, xb);
    var wc, ec, xc := LooksUp(cfg, wb, eb, xb, first, client, jkt, token, now);
    GoesOnOn(cfg, worlds, events, wb, eb, xb, wc, ec, xc);
    worlds1, events1, w1 := RevokesOn(cfg, wc, ec, xc, second, client, token, now);
    GoesOnOn(cfg, worlds, events, wc, ec, xc, worlds1, events1, w1);
    RevocationCutsAll(cfg, wc, ec, xc, w1.db, h, g, now);
    t := second;
    assert w1.procs[first] == Refreshing(CheckGrant(client, row, None, mint));
    assert Able(w1.db, w1.procs[first], g);
    var wd, ed, xd := GoesToMint(cfg, worlds1, events1, w1, first, client, row, mint);
    worlds2, events2, w2 := MintsOn(cfg, wd, ed, xd, first, g, jti, now);
    GoesOnOn(cfg, worlds1, events1, wd, ed, xd, worlds2, events2, w2);
    assert w1.db.access.Keys == w.db.access.Keys;
  }

  /** So from nothing but a registered client there is a run in which a replay of the
      code has cut the grant with every token of it, and a token of it lives. */
  lemma CascadeIsNotFinal(cfg: Config, s: Scene, verifier: string, jkt: string)
    returns (worlds: seq<World>, events: seq<Event>, n: nat, g: string)
    requires Plays(cfg, s) && WellFormedChallenge(verifier) && cfg.sha(verifier) == s.request.codeChallenge
    requires s.request.dpopJkt.Some? ==> s.request.dpopJkt.value == jkt
    ensures Run(cfg, worlds, events) && n < |events|
    ensures OpenAfterAll(worlds[n], g) && LiveToken(worlds[|events|].db, "a", g)
  {
    var mint, t;
    var worlds0, events0, w0;
    worlds0, events0, w0, mint := ReachesOpenCode(cfg, s, verifier, jkt);
    g := w0.db.codes[mint.codeHash].grantId;
    var worlds1, events1, w1, w2;
    worlds1, events1, w1, worlds, events, w2, t :=
      CascadeRace(cfg, worlds0, events0, w0, s.client, "a", mint, s.at, "a");
    n := |events1|;
    assert worlds[n] == worlds1[n];
  }
}
