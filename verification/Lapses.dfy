/** Two things that a request asks for and that do not last to the end: `max_age`, which
    is met when the consent form is shown, and the key that PAR bound, which the code is
    held to and a refresh is not. */
module Lapses {
  import opened Base
  import opened AuthzRequest
  import opened Tables
  import opened Protocol
  import opened Provenance
  import opened Approval
  import opened Runs
  import Cascade
  import Descent
  import Races
  import Sessions
  import Text

  // ---------------------------------------------------------------- max_age

  /** The session is no older than the request allows. */
  predicate InAge(v: Validated, s: Sessions.LoginSession, now: int) {
    v.maxAge.Some? ==> FloorSec(now) - s.authTime <= v.maxAge.value
  }

  /** In every continuation, each grant that this session consents to on the interaction,
      closing it at a reading of `latest` or before, is in age at that reading. */
  ghost predicate AgeKept(
    cfg: Config, worlds: seq<World>, events: seq<Event>, id: string, s: Sessions.LoginSession, latest: int) {
    forall worlds': seq<World>, events': seq<Event>, w', k: nat, j: nat, u: nat, ask: Ask, g ::
      GoesOn(cfg, worlds, events, worlds', events', w') && |events| <= k
      && ConsentGrants(worlds', events', k, j, u, id, ask, g) && ask.user == UserOf(s)
      && events'[k].input.now <= latest ==>
      InAge(ask.request, s, events'[k].input.now)
  }

  /** What is approved on an interaction is the request that was parked there, at its
      registration then. */
  lemma ApprovedIsParked(cfg: Config, worlds: seq<World>, events: seq<Event>, k: nat, u: nat, id: string, ask: Ask)
    requires Run(cfg, worlds, events) && Steps(worlds, events, k, u, Consenting(Close(id, ask, true)))
    ensures id in worlds[k].db.interactions && worlds[k].db.interactions[id].requestUri == ask.uri
    ensures Stands(worlds[k].db, ask)
  {
    hide Run, RowsOk, ClaimsOk, Stands, NeedsReauthentication;
    RunInv(cfg, worlds, events, k);
    assert Holds(cfg, worlds[k], worlds[k].procs[u]);
    var p := Consenting(Close(id, ask, true));
    var submitted, viewer, checked, bound, s, signedIn := ShownBefore(cfg, worlds, events, k, k, u, p);
  }

  lemma SameAgeAsked(cfg: Config, worlds: seq<World>, events: seq<Event>, w: World, worlds': seq<World>,
                     events': seq<Event>, w': World, id: string, sub: string, v: Validated, at: int, k: nat, u: nat,
                     ask: Ask)
    requires RunTo(cfg, worlds, events, w) && GoesOn(cfg, worlds, events, worlds', events', w')
    requires AwaitsConsent(w.db, id, sub, v, at) && |events| <= k
    requires Steps(worlds', events', k, u, Consenting(Close(id, ask, true)))
    ensures ask.request.maxAge == v.maxAge
  {
    WentFrom(cfg, worlds, events, w, worlds', events', w');
    ApprovedIsParked(cfg, worlds', events', k, u, id, ask);
    Descent.RunGrows(cfg, worlds', events', |events|, k);
    hide Run, Validate, Grows, Lift;
    var uri := w.db.interactions[id].requestUri;
    RowsStay(w, worlds'[k], id, uri);
    SameDialogue(Lift(w.db.par[uri].params), ask.client, w.db.clients[w.db.interactions[id].clientId], ask.request, v);
  }

  /** Wherever a run has come to with an interaction that awaits consent: what a session
      of its subject consents to up to `latest` is sure to be in age exactly if the
      request has no `max_age`, or the session will still be in age at `latest`. */
  lemma AgeKeptExactly(cfg: Config, worlds: seq<World>, events: seq<Event>, w: World, id: string,
                       s: Sessions.LoginSession, v: Validated, latest: Ms)
    requires RunTo(cfg, worlds, events, w) && AwaitsConsent(w.db, id, s.sub, v, latest)
    ensures AgeKept(cfg, worlds, events, id, s, latest) <==> InAge(v, s, latest)
  {
    hide RunTo, AwaitsConsent;
    if InAge(v, s, latest) {
      forall worlds': seq<World>, events': seq<Event>, w', k: nat, j: nat, u: nat, ask: Ask, g |
        GoesOn(cfg, worlds, events, worlds', events', w') && |events| <= k
        && ConsentGrants(worlds', events', k, j, u, id, ask, g) && ask.user == UserOf(s)
        && events'[k].input.now <= latest
        ensures InAge(ask.request, s, events'[k].input.now)
      {
        SameAgeAsked(cfg, worlds, events, w, worlds', events', w', id, s.sub, v, latest, k, u, ask);
      }
    } else {
      var worlds', events', w', k, j, u, g := Overstays(cfg, worlds, events, w, id, s, v, latest);
    }
  }

  /** The run that shows it: a grant in a session that is too old by then. */
  lemma Overstays(cfg: Config, worlds: seq<World>, events: seq<Event>, w: World, id: string, s: Sessions.LoginSession,
                  v: Validated, now: Ms)
    returns (worlds': seq<World>, events': seq<Event>, w': World, k: nat, j: nat, u: nat, g: string)
    requires RunTo(cfg, worlds, events, w) && AwaitsConsent(w.db, id, s.sub, v, now) && !InAge(v, s, now)
    ensures GoesOn(cfg, worlds, events, worlds', events', w') && |events| <= k
    ensures exists ask ::
              && ConsentGrants(worlds', events', k, j, u, id, ask, g) && ask.user == UserOf(s) && ask.request == v
              && events'[k].input.now == now && !InAge(ask.request, s, now)
              && g in w'.origins && w'.origins[g] == ask
              && g in w'.db.grants && w'.db.grants[g].subject == s.sub && w'.db.grants[g].authTime == s.authTime * 1000
  {
    g := Cascade.FreshIdentifier(x => x, w.db.grants.Keys, 0);
    worlds', events', w', k, j, u := ConsentsOn(cfg, worlds, events, w, id, s, v, now, g);
    hide RunTo, ConsentGrants, GoesOn, InAge;
    var ask := AskOf(w.db, id, s, v);
    assert ConsentGrants(worlds', events', k, j, u, id, ask, g) && ask.user == UserOf(s) && ask.request == v;
  }

  /** So `max_age` is kept whoever of the subject's sessions submits, exactly if the
      request does not ask for it. */
  lemma AgeKeptByAllExactly(cfg: Config, worlds: seq<World>, events: seq<Event>, w: World, id: string, sub: string,
                            v: Validated, latest: Ms)
    requires RunTo(cfg, worlds, events, w) && AwaitsConsent(w.db, id, sub, v, latest)
    ensures (forall s: Sessions.LoginSession :: s.sub == sub ==> AgeKept(cfg, worlds, events, id, s, latest))
            <==> v.maxAge.None?
  {
    hide RunTo, AwaitsConsent, AgeKept;
    forall s: Sessions.LoginSession | s.sub == sub
      ensures AgeKept(cfg, worlds, events, id, s, latest) <==> InAge(v, s, latest)
    {
      AgeKeptExactly(cfg, worlds, events, w, id, s, v, latest);
    }
    if v.maxAge.Some? {
      var old' := Sessions.LoginSession("", sub, FloorSec(latest) - v.maxAge.value - 1, 0, None, None);
      assert !InAge(v, old', latest);
    }
  }

  /** The form that a single grant can be held to: if the session that submitted is the
      one recorded in the interaction when it was read, it was found fresh enough for
      this request earlier, and so at the closing it is too old by at most the time
      that has passed since. */
  lemma RecordedSessionWasInAge(cfg: Config, worlds: seq<World>, events: seq<Event>, k: nat, j: nat, u: nat, id: string,
                                ask: Ask, g: string)
    returns (submitted: nat, checked: nat, signedIn: Sessions.LoginSession)
    requires Run(cfg, worlds, events) && ConsentGrants(worlds, events, k, j, u, id, ask, g)
    ensures submitted < k && Steps(worlds, events, submitted, u, Consenting(Submit(id, signedIn, true)))
    ensures ask.user == UserOf(signedIn) && id in worlds[submitted].db.interactions
    ensures worlds[submitted].db.interactions[id].authTime == Some(ask.user.authTime) ==>
              && checked < submitted && events[checked].Step?
              && InAge(ask.request, signedIn, events[checked].input.now)
              && (ask.request.maxAge.Some? ==>
                    FloorSec(events[k].input.now) - signedIn.authTime
                    <= ask.request.maxAge.value + FloorSec(events[k].input.now) - FloorSec(events[checked].input.now))
  {
    hide Run, RowsOk, ClaimsOk, Stands;
    ApprovedIsParked(cfg, worlds, events, k, u, id, ask);
    var viewer, bound, s;
    submitted, viewer, checked, bound, s, signedIn :=
      ShownBefore(cfg, worlds, events, k, k, u, Consenting(Close(id, ask, true)));
  }

  /** From a client alone: the user is shown the form in time, thinks it over, and the
      grant is made in that same session when it is too old. */
  lemma OverstaysFromNothing(cfg: Config, s: Scene, now: Ms)
    returns (worlds: seq<World>, events: seq<Event>, w: World, k: nat, j: nat, u: nat, g: string)
    requires Plays(cfg, s) && !InAge(s.request, s.user, now)
    requires now < s.at + cfg.parTtlMs && now < s.at + cfg.interactionTtlMs
    ensures RunTo(cfg, worlds, events, w)
    ensures exists ask ::
              && ConsentGrants(worlds, events, k, j, u, "a", ask, g) && ask.request == s.request
              && events[k].input.now == now && !InAge(ask.request, s.user, now)
              && g in w.origins && w.origins[g] == ask && g in w.db.grants
              && w.db.grants[g].authTime == s.user.authTime * 1000
  {
    var uri;
    worlds, events, w, uri := ShowsOn(cfg, s);
    SceneAwaits(cfg, s, w.db, uri, now);
    hide RunTo, Plays, AwaitsConsent, ConsentGrants, InAge;
    worlds, events, w, k, j, u, g := Overstays(cfg, worlds, events, w, "a", s.user, s.request, now);
  }

  /** And there is such a request: for every client with a redirect URI, every `max_age`
      that leaves room before the request expires, and a user who has just signed in. */
  lemma MaxAgeNotKept(cfg: Config, client: Client, redirectUri: string, challenge: string, age: string, jkt: string,
                      user: Sessions.LoginSession, at: Ms)
    returns (s: Scene, worlds: seq<World>, events: seq<Event>, w: World, k: nat, g: string)
    requires redirectUri in client.redirectUris && redirectUri != "" && Vschar(client.scope) && |client.scope| <= 512
    requires WellFormedChallenge(challenge) && WellFormedJkt(jkt) && age != "" && |age| <= 2048 && Text.AllDigits(age)
    requires user.authTime == FloorSec(at) && cfg.codeTtlMs > 0
    requires cfg.parTtlMs > (Text.ParseNat(age) + 1) * 1000 && cfg.interactionTtlMs > (Text.ParseNat(age) + 1) * 1000
    ensures RunTo(cfg, worlds, events, w) && k < |events| && events[k].Step?
    ensures g in w.origins && w.origins[g].request.maxAge == Some(Text.ParseNat(age))
    ensures g in w.db.grants && w.db.grants[g].authTime == user.authTime * 1000
    ensures FloorSec(events[k].input.now) - user.authTime == Text.ParseNat(age) + 1
    ensures exists u, id, ask :: Steps(worlds, events, k, u, Consenting(Close(id, ask, true)))
                                 && w.origins[g] == ask
  {
    s := SceneFor(cfg, client, redirectUri, challenge, age, jkt, user, at);
    hide Plays, Vschar, WellFormedChallenge, WellFormedJkt, Text.AllDigits, Text.ParseNat, RunTo;
    var now := at + (Text.ParseNat(age) + 1) * 1000;
    assert FloorSec(now) == FloorSec(at) + Text.ParseNat(age) + 1;
    var j, u;
    worlds, events, w, k, j, u, g := OverstaysFromNothing(cfg, s, now);
  }

  // -------------------------------------------------------- the key of a refresh

  /** Where PAR bound a key, a token minted with the code has it; one minted with the
      refresh token has whatever key was presented with that. */
  lemma KeyKeptExactly(cfg: Config, worlds: seq<World>, events: seq<Event>, i: nat, jti: string)
    requires Run(cfg, worlds, events) && i < |worlds| && jti in worlds[i].db.access
    ensures var w, g := worlds[i], worlds[i].db.access[jti].grantId;
            && g in w.origins && jti in w.mints
            && (w.origins[g].request.dpopJkt.Some? ==>
                  (w.db.access[jti].cnfJkt == w.origins[g].request.dpopJkt
                   <==> w.mints[jti].FromCode? || Some(w.mints[jti].jkt) == w.origins[g].request.dpopJkt))
  {
    hide Run, AllHold, ClaimsOk, OneGrantPerRequest, OneCodePerGrant, OneRefreshPerGrant, ParRowsOk, RefreshesOk,
         Stands;
    RunInv(cfg, worlds, events, i);
    var w := worlds[i];
    assert AccessOk(cfg, w, jti);
    var mint := w.mints[jti];
    if mint.FromCode? {
      assert CodeOk(w, mint.codeHash);
    }
  }

  /** Wherever a run has come to with a usable refresh token: it can be used with any key. */
  lemma RefreshTakesAnyKey(cfg: Config, worlds: seq<World>, events: seq<Event>, w: World, client: Client, jkt: string,
                           token: string, now: Ms, jti: string)
    returns (worlds': seq<World>, events': seq<Event>, w': World)
    requires RunTo(cfg, worlds, events, w) && Races.Usable(cfg, w.db, client, token, now) && jti !in w.db.access
    ensures GoesOn(cfg, worlds, events, worlds', events', w')
    ensures Races.LiveToken(w'.db, jti, w.db.refresh[cfg.sha(token)].grantId) && w'.db.access[jti].cnfJkt == Some(jkt)
  {
    hide RunTo;
    var worlds1, events1, w1, worlds2, events2, w2, worlds3, events3, w3, t;
    worlds1, events1, w1, t := GoStart(cfg, worlds, events, w, Refreshing(PresentRefresh(client, jkt, token, None)));
    worlds2, events2, w2 := Races.LooksUp(cfg, worlds1, events1, w1, t, client, jkt, token, now);
    GoesOnOn(cfg, worlds, events, worlds1, events1, w1, worlds2, events2, w2);
    var row, mint := w.db.refresh[cfg.sha(token)], FromRefresh(cfg.sha(token), jkt);
    worlds3, events3, w3 := Races.GoesToMint(cfg, worlds2, events2, w2, t, client, row, mint);
    GoesOnOn(cfg, worlds, events, worlds2, events2, w2, worlds3, events3, w3);
    worlds', events', w' := Races.MintsOn(cfg, worlds3, events3, w3, t, row.grantId, jti, now);
    GoesOnOn(cfg, worlds, events, worlds3, events3, w3, worlds', events', w');
  }

  /** A code redeemed to the end, with a refresh token. */
  lemma ReachesRefreshToken(cfg: Config, s: Scene, verifier: string, jkt: string)
    returns (worlds: seq<World>, events: seq<Event>, w: World)
    requires Plays(cfg, s) && WellFormedChallenge(verifier) && cfg.sha(verifier) == s.request.codeChallenge
    requires s.request.dpopJkt == Some(jkt) && "refresh_token" in s.client.grantTypes && cfg.refreshTtlMs > 0
    ensures RunTo(cfg, worlds, events, w) && Races.Usable(cfg, w.db, s.client, "a", s.at)
    ensures w.db.refresh[cfg.sha("a")].grantId == "a" && "b" !in w.db.access
    ensures "a" in w.origins && w.origins["a"].request == s.request
  {
    var mint;
    worlds, events, w, mint := ReachesOpenCode(cfg, s, verifier, jkt);
    var db := w.db;
    assert Known(db, s.client) && db.codes[mint.codeHash].clientId == s.client.clientId;
    Races.OpenEnters(cfg, w.db, s.client, "a", mint, s.at);
    hide Plays, WellFormedChallenge, RunTo, OpenCode, Entry;
    var t;
    worlds, events, w, t := GoStart(cfg, worlds, events, w, Races.Presents(s.client, "a", mint));
    worlds, events, w := Races.Wins(cfg, worlds, events, w, t, s.client, "a", mint, s.at);
    worlds, events, w := MintsBoth(cfg, worlds, events, w, t, s.at);
  }

  lemma MintsBoth(cfg: Config, worlds: seq<World>, events: seq<Event>, w: World, t: nat, now: Ms)
    returns (worlds': seq<World>, events': seq<Event>, w': World)
    requires RunTo(cfg, worlds, events, w) && t in w.procs && w.procs[t].Minting? && w.procs[t].minting.InsertAccess?
    requires w.procs[t].minting.withRefresh && w.db.access == map[] && w.db.refresh == map[]
    ensures RunTo(cfg, worlds', events', w') && w'.origins == w.origins
    ensures w'.db.clients == w.db.clients && w'.db.grants == w.db.grants && w'.db.access.Keys == {"a"}
    ensures var e := w.procs[t].minting.earned;
            w'.db.refresh == map[cfg.sha("a") :=
              RefreshRow(e.grantId, e.client.clientId, e.scope, now + cfg.refreshTtlMs, None)]
  {
    hide RunTo;
    var i := Input(now, "a", true);
    var worlds1, events1, w1 := GoStep(cfg, worlds, events, w, t, i, MintStep(cfg, w.procs[t].minting, i));
    worlds', events', w' := GoStep(cfg, worlds1, events1, w1, t, i, MintStep(cfg, w1.procs[t].minting, i));
  }

  /** So there is a run in which a request bound to one key gets a token bound to another. */
  lemma KeyChanges(cfg: Config, s: Scene, verifier: string, jkt: string, other: string)
    returns (worlds: seq<World>, events: seq<Event>, w: World, g: string)
    requires Plays(cfg, s) && WellFormedChallenge(verifier) && cfg.sha(verifier) == s.request.codeChallenge
    requires s.request.dpopJkt == Some(jkt) && "refresh_token" in s.client.grantTypes && cfg.refreshTtlMs > 0
    ensures RunTo(cfg, worlds, events, w) && g in w.origins && w.origins[g].request.dpopJkt == Some(jkt)
    ensures Races.LiveToken(w.db, "b", g) && w.db.access["b"].cnfJkt == Some(other)
  {
    hide Plays, WellFormedChallenge, RunTo;
    var worlds0, events0, w0 := ReachesRefreshToken(cfg, s, verifier, jkt);
    g := "a";
    worlds, events, w := RefreshTakesAnyKey(cfg, worlds0, events0, w0, s.client, other, "a", s.at, "b");
    OriginStays(cfg, worlds0, events0, w0, worlds, events, w, g);
  }

  lemma OriginStays(cfg: Config, worlds: seq<World>, events: seq<Event>, w: World, worlds': seq<World>,
                    events': seq<Event>, w': World, g: string)
    requires RunTo(cfg, worlds, events, w) && GoesOn(cfg, worlds, events, worlds', events', w') && g in w.origins
    ensures g in w'.origins && w'.origins[g] == w.origins[g]
  {
    WentFrom(cfg, worlds, events, w, worlds', events', w');
    Descent.RunGrows(cfg, worlds', events', |events|, |events'|);
    hide Run, Evolves;
  }
}
