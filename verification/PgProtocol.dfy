/** The protocol machine over PostgreSQL, whose `redeem` is two statements with other
    requests in between: its worlds are exactly those of the machine that redeems in one
    step, and so what is proved of all runs of that machine holds of it. */
module PgProtocol {
  import opened Base
  import opened Tables
  import opened Protocol
  import opened Provenance
  import opened Cascade
  import AuthzRequest
  import Descent
  import PgRedeem

  /** `waiting` has the requests whose UPDATE found nothing, with the reading that it was
      given; they are where they were, at the presentation of the code. */
  datatype PgWorld = PgWorld(world: World, waiting: map<nat, Ms>)

  predicate Presents(p: Proc) { p.Redeeming? && p.redeeming.Present? }

  function HashOf(cfg: Config, p: Proc): string
    requires Presents(p)
  {
    cfg.sha(p.redeeming.code)
  }

  /** The SELECT: a consumed row is a replay, anything else an invalid code. */
  function Selected(db: Db, hash: string, at: Ms): Effect {
    if hash in db.codes && db.codes[hash].consumedAt.Some?
    then Go(Redeeming(CascadeGrant(db.codes[hash].grantId, at)))
    else Finish(Rejected)
  }

  function PgAfter(cfg: Config, pw: PgWorld, e: Event): PgWorld
    requires Legal(cfg, pw.world, e)
  {
    var w := pw.world;
    if e.Step? && Presents(w.procs[e.tid]) then
      var hash := HashOf(cfg, w.procs[e.tid]);
      if e.tid in pw.waiting then pw.(world := Commit(w, e.tid, Selected(w.db, hash, pw.waiting[e.tid])))
      else if PgRedeem.Consumable(w.db.codes, hash, e.input.now) then pw.(world := After(cfg, w, e))
      else pw.(waiting := pw.waiting[e.tid := e.input.now])
    else pw.(world := After(cfg, w, e))
  }

  ghost predicate PgRunFrom(cfg: Config, pw: PgWorld, worlds: seq<PgWorld>, events: seq<Event>) {
    && |worlds| == |events| + 1 && worlds[0] == pw
    && forall i | 0 <= i < |events| ::
         Legal(cfg, worlds[i].world, events[i]) && worlds[i + 1] == PgAfter(cfg, worlds[i], events[i])
  }

  ghost predicate PgRun(cfg: Config, worlds: seq<PgWorld>, events: seq<Event>) {
    && |worlds| == |events| + 1 && Initial(worlds[0].world) && worlds[0].waiting == map[]
    && PgRunFrom(cfg, worlds[0], worlds, events)
  }

  // --------------------------------------------------- its steps are the machine's

  /** The one-step redeem that the SELECT amounts to: with the reading of the UPDATE for
      a replay, with one past its expiry for a code that is not consumed. */
  function SelectedAt(db: Db, hash: string, at: Ms): Ms {
    if hash in db.codes && db.codes[hash].consumedAt.None? && db.codes[hash].expiresAt > 0
    then db.codes[hash].expiresAt else at
  }

  /** The machine's event, if it is one that the machine sees. */
  function Seen(cfg: Config, pw: PgWorld, e: Event): Option<Event>
    requires Legal(cfg, pw.world, e)
  {
    var w := pw.world;
    if e.Step? && Presents(w.procs[e.tid]) then
      var hash := HashOf(cfg, w.procs[e.tid]);
      if e.tid in pw.waiting then Some(Step(e.tid, Input(SelectedAt(w.db, hash, pw.waiting[e.tid]), "", true)))
      else if PgRedeem.Consumable(w.db.codes, hash, e.input.now) then Some(e)
      else None
    else Some(e)
  }

  lemma SelectedIsRedeem(cfg: Config, db: Db, p: Proc, at: Ms)
    requires Presents(p)
    ensures var hash := HashOf(cfg, p);
            Selected(db, hash, at) == Act(cfg, db, p, Input(SelectedAt(db, hash, at), "", true))
  {
    hide Lawful, Redeemable;
  }

  /** Every event is one of the machine, or none. */
  lemma EventSeen(cfg: Config, pw: PgWorld, e: Event)
    requires Legal(cfg, pw.world, e)
    ensures match Seen(cfg, pw, e)
            case None => PgAfter(cfg, pw, e).world == pw.world
            case Some(m) => Legal(cfg, pw.world, m) && PgAfter(cfg, pw, e).world == After(cfg, pw.world, m)
  {
    hide Act, Commit, Selected, SelectedAt, PgRedeem.Consumable, Entry, HashOf;
    var w := pw.world;
    if e.Step? && Presents(w.procs[e.tid]) && e.tid in pw.waiting {
      SelectedIsRedeem(cfg, w.db, w.procs[e.tid], pw.waiting[e.tid]);
      WritesNothing(w.db, HashOf(cfg, w.procs[e.tid]), pw.waiting[e.tid]);
    }
  }

  lemma WritesNothing(db: Db, hash: string, at: Ms)
    ensures Fresh(db, Selected(db, hash, at).write)
  {
  }

  /** `places[i]` is where the machine's run has come to at world `i`. */
  ghost predicate Follows(worlds: seq<PgWorld>, seen: seq<World>, places: seq<nat>) {
    && |places| == |worlds|
    && (forall i | 0 <= i < |worlds| :: places[i] < |seen| && seen[places[i]] == worlds[i].world)
    && (forall i, j | 0 <= i <= j < |worlds| :: places[i] <= places[j])
  }

  lemma {:induction false} SeenRun(cfg: Config, pw: PgWorld, worlds: seq<PgWorld>, events: seq<Event>, n: nat)
    returns (seen: seq<World>, log: seq<Event>, places: seq<nat>)
    requires PgRunFrom(cfg, pw, worlds, events) && n < |worlds|
    ensures RunFrom(cfg, pw.world, seen, log) && Follows(worlds[..n + 1], seen, places) && places[n] == |log|
  {
    hide Legal, After, PgAfter, Seen;
    if n == 0 {
      seen, log, places := [pw.world], [], [0];
    } else {
      seen, log, places := SeenRun(cfg, pw, worlds, events, n - 1);
      var w := worlds[n - 1];
      EventSeen(cfg, w, events[n - 1]);
      match Seen(cfg, w, events[n - 1])
      case None => places := places + [places[n - 1]];
      case Some(m) =>
        SeenLonger(cfg, pw.world, seen, log, m);
        seen, log, places := seen + [After(cfg, w.world, m)], log + [m], places + [|log| + 1];
    }
  }

  lemma SeenLonger(cfg: Config, w: World, seen: seq<World>, log: seq<Event>, m: Event)
    requires RunFrom(cfg, w, seen, log) && Legal(cfg, seen[|log|], m)
    ensures RunFrom(cfg, w, seen + [After(cfg, seen[|log|], m)], log + [m])
  {
    hide Legal, After;
    var s, l := seen + [After(cfg, seen[|log|], m)], log + [m];
    forall i | 0 <= i < |l| ensures Legal(cfg, s[i], l[i]) && s[i + 1] == After(cfg, s[i], l[i]) {
      if i < |log| {
        assert s[i] == seen[i] && l[i] == log[i] && s[i + 1] == seen[i + 1];
      }
    }
  }

  /** The whole run, seen as one of the machine. */
  lemma RunSeen(cfg: Config, worlds: seq<PgWorld>, events: seq<Event>)
    returns (seen: seq<World>, log: seq<Event>, places: seq<nat>)
    requires PgRun(cfg, worlds, events)
    ensures Run(cfg, seen, log) && Follows(worlds, seen, places)
  {
    hide Legal, After, PgAfter, Follows, Initial;
    assert worlds[..|events| + 1] == worlds;
    seen, log, places := SeenRun(cfg, worlds[0], worlds, events, |events|);
  }

  // ------------------------------------------------ and the machine's steps are its

  lemma PgGo(cfg: Config, worlds: seq<PgWorld>, events: seq<Event>, e: Event)
    returns (worlds': seq<PgWorld>, events': seq<Event>)
    requires PgRun(cfg, worlds, events) && Legal(cfg, worlds[|events|].world, e)
    ensures |worlds'| == |events'| + 1
    ensures PgRun(cfg, worlds', events') && worlds'[|events'|] == PgAfter(cfg, worlds[|events|], e)
  {
    hide Legal, PgAfter, Initial;
    worlds', events' := worlds + [PgAfter(cfg, worlds[|events|], e)], events + [e];
    forall i | 0 <= i < |events'|
      ensures Legal(cfg, worlds'[i].world, events'[i]) && worlds'[i + 1] == PgAfter(cfg, worlds'[i], events'[i])
    {
      if i < |events| {
        assert worlds'[i] == worlds[i] && events'[i] == events[i] && worlds'[i + 1] == worlds[i + 1];
      }
    }
  }

  /** The one-step redeem is the two statements with nothing in between. */
  lemma BothStatements(cfg: Config, db: Db, p: Proc, input: Input)
    requires Presents(p) && !PgRedeem.Consumable(db.codes, HashOf(cfg, p), input.now)
    ensures Act(cfg, db, p, input) == Selected(db, HashOf(cfg, p), input.now)
  {
    hide Lawful, Redeemable;
  }

  lemma PresentsNoMore(cfg: Config, db: Db, p: Proc, input: Input)
    requires !p.Done?
    ensures !Presents(Act(cfg, db, p, input).next)
  {
    hide Lawful, PushStep, AuthorizeStep, ViewStep, ConsentStep, RefreshStep, MintStep, RevokeStep;
    match p
    case Redeeming(r) => RedeemsOnce(cfg, db, r, input);
    case _ => OthersPresentNone(cfg, db, p, input);
  }

  lemma RedeemsOnce(cfg: Config, db: Db, r: Redeeming, input: Input)
    ensures !Presents(RedeemStep(cfg, db, r, input).next)
  {
    hide Redeemable, Lawful;
  }

  lemma OthersPresentNone(cfg: Config, db: Db, p: Proc, input: Input)
    requires !p.Done? && !p.Redeeming?
    ensures !Presents(Act(cfg, db, p, input).next)
  {
    hide AuthzRequest.Validate, Lawful, NeedsReauthentication, PromptNone, RequestedScope, ScopeSubset;
  }

  /** No event brings a request back to a presentation that it has made. */
  ghost predicate WaitsNoMore(pw: PgWorld) {
    forall t | t in pw.waiting :: t in pw.world.procs && !Presents(pw.world.procs[t])
  }

  lemma WaitsNoMoreKept(cfg: Config, w: World, waiting: map<nat, Ms>, e: Event)
    requires Legal(cfg, w, e)
    requires forall t | t in waiting && !(e.Step? && t == e.tid) :: t in w.procs && !Presents(w.procs[t])
    ensures WaitsNoMore(PgWorld(After(cfg, w, e), waiting))
  {
    hide Act, Fresh, Entry, Apply, Commit, Presents;
    if e.Step? {
      CommitParts(w, e.tid, Act(cfg, w.db, w.procs[e.tid], e.input));
      PresentsNoMore(cfg, w.db, w.procs[e.tid], e.input);
    } else if e.Crash? {
      assert !Presents(Done(Crashed)) by { DoneIsNoPresentation(); }
    }
  }

  lemma DoneIsNoPresentation()
    ensures !Presents(Done(Crashed))
  {
  }

  /** One event of the machine, as one or two of this one. */
  lemma PgFollows(cfg: Config, worlds: seq<PgWorld>, events: seq<Event>, e: Event)
    returns (worlds': seq<PgWorld>, events': seq<Event>)
    requires PgRun(cfg, worlds, events) && WaitsNoMore(worlds[|events|]) && Legal(cfg, worlds[|events|].world, e)
    ensures PgRun(cfg, worlds', events') && WaitsNoMore(worlds'[|events'|])
    ensures worlds'[|events'|].world == After(cfg, worlds[|events|].world, e)
  {
    var pw := worlds[|events|];
    hide Act, Fresh, Entry, Commit, PgRun, Selected, PgRedeem.Consumable, HashOf;
    worlds', events' := PgGo(cfg, worlds, events, e);
    if e.Step? && Presents(pw.world.procs[e.tid])
       && !PgRedeem.Consumable(pw.world.db.codes, HashOf(cfg, pw.world.procs[e.tid]), e.input.now) {
      BothStatements(cfg, pw.world.db, pw.world.procs[e.tid], e.input);
      worlds', events' := PgGo(cfg, worlds', events', e);
      WaitsNoMoreKept(cfg, pw.world, pw.waiting[e.tid := e.input.now], e);
    } else {
      WaitsNoMoreKept(cfg, pw.world, pw.waiting, e);
    }
  }

  lemma {:induction false} RunFollowed(cfg: Config, worlds: seq<World>, events: seq<Event>, n: nat)
    returns (worlds': seq<PgWorld>, events': seq<Event>)
    requires Run(cfg, worlds, events) && n < |worlds|
    ensures PgRun(cfg, worlds', events') && WaitsNoMore(worlds'[|events'|]) && worlds'[|events'|].world == worlds[n]
  {
    hide Legal, After, PgAfter, Initial;
    if n == 0 {
      worlds', events' := [PgWorld(worlds[0], map[])], [];
    } else {
      worlds', events' := RunFollowed(cfg, worlds, events, n - 1);
      hide PgRun, WaitsNoMore;
      worlds', events' := PgFollows(cfg, worlds', events', events[n - 1]);
    }
  }

  ghost predicate Reached(cfg: Config, w: World) {
    exists worlds: seq<World>, events: seq<Event> :: Run(cfg, worlds, events) && worlds[|events|] == w
  }

  ghost predicate PgReached(cfg: Config, w: World) {
    exists worlds: seq<PgWorld>, events: seq<Event> :: PgRun(cfg, worlds, events) && worlds[|events|].world == w
  }

  /** The two machines come to the same worlds. */
  lemma SameWorlds(cfg: Config, w: World)
    ensures PgReached(cfg, w) <==> Reached(cfg, w)
  {
    if PgReached(cfg, w) {
      var worlds: seq<PgWorld>, events: seq<Event> :| PgRun(cfg, worlds, events) && worlds[|events|].world == w;
      var seen, log, place := WorldSeen(cfg, worlds, events, |events|);
      RunCut(cfg, seen, log, place);
    }
    if Reached(cfg, w) {
      hide Run, PgRun;
      var worlds: seq<World>, events: seq<Event> :| Run(cfg, worlds, events) && worlds[|events|] == w;
      assert |events| < |worlds| by { RunLength(cfg, worlds, events); }
      var worlds', events' := RunFollowed(cfg, worlds, events, |events|);
    }
  }

  lemma RunLength(cfg: Config, worlds: seq<World>, events: seq<Event>)
    requires Run(cfg, worlds, events)
    ensures |worlds| == |events| + 1
  {
    hide Legal, After;
  }

  lemma RunCut(cfg: Config, worlds: seq<World>, events: seq<Event>, n: nat)
    requires Run(cfg, worlds, events) && n < |worlds|
    ensures Reached(cfg, worlds[n])
  {
    hide Legal, After, Initial;
    assert Run(cfg, worlds[..n + 1], events[..n]);
  }

  /** A world of its runs is one of the machine's. */
  lemma WorldSeen(cfg: Config, worlds: seq<PgWorld>, events: seq<Event>, i: nat)
    returns (seen: seq<World>, log: seq<Event>, place: nat)
    requires PgRun(cfg, worlds, events) && i < |worlds|
    ensures Run(cfg, seen, log) && place < |seen| && seen[place] == worlds[i].world
  {
    hide Legal, After, PgAfter, Initial;
    var places;
    seen, log, places := RunSeen(cfg, worlds, events);
    place := places[i];
  }

  // ------------------------------------------------------------ what carries over

  /** The whole invariant. */
  lemma PgRunInv(cfg: Config, worlds: seq<PgWorld>, events: seq<Event>, i: nat)
    requires PgRun(cfg, worlds, events) && i < |worlds|
    ensures Inv(cfg, worlds[i].world)
  {
    hide PgRun, Run, Inv;
    var seen, log, place := WorldSeen(cfg, worlds, events, i);
    RunInv(cfg, seen, log, place);
  }

  /** At any two moments one pushed request has at most one code, and none if a refusal
      consumes it. */
  lemma PgOneOutcome(cfg: Config, worlds: seq<PgWorld>, events: seq<Event>, i: nat, j: nat, uri: string, c: string,
                     d: string)
    requires PgRun(cfg, worlds, events) && i < |worlds| && j < |worlds|
    requires Descent.IssuedFor(worlds[i].world, c, uri)
    ensures Descent.IssuedFor(worlds[j].world, d, uri) ==> d == c
    ensures uri !in worlds[j].world.declined
  {
    hide PgRun, Run, Descent.IssuedFor;
    var seen, log, places := RunSeen(cfg, worlds, events);
    Descent.OneOutcome(cfg, seen, log, places[i], places[j], uri, c, d);
  }

  /** In no continuation is any token of the grant ever unrevoked. */
  ghost predicate PgFinallyDead(cfg: Config, pw: PgWorld, g: string) {
    forall worlds: seq<PgWorld>, events: seq<Event>, k: nat ::
      PgRunFrom(cfg, pw, worlds, events) && k < |worlds| ==> AllRevoked(worlds[k].world.db, g)
  }

  lemma PgDeadNext(cfg: Config, pw: PgWorld, e: Event, g: string)
    requires PgFinallyDead(cfg, pw, g) && Legal(cfg, pw.world, e)
    ensures PgFinallyDead(cfg, PgAfter(cfg, pw, e), g) && AllRevoked(PgAfter(cfg, pw, e).world.db, g)
  {
    hide AllRevoked, Legal, PgAfter;
    var next := PgAfter(cfg, pw, e);
    forall worlds: seq<PgWorld>, events: seq<Event>, k: nat | PgRunFrom(cfg, next, worlds, events) && k < |worlds|
      ensures AllRevoked(worlds[k].world.db, g)
    {
      var longer, all := [pw] + worlds, [e] + events;
      forall i | 0 <= i < |all|
        ensures Legal(cfg, longer[i].world, all[i]) && longer[i + 1] == PgAfter(cfg, longer[i], all[i])
      {
        if i > 0 {
          assert longer[i] == worlds[i - 1] && all[i] == events[i - 1] && longer[i + 1] == worlds[i];
        }
      }
      assert PgRunFrom(cfg, pw, longer, all) && longer[k + 1] == worlds[k];
    }
    var worlds, events := [next], [];
    assert PgRunFrom(cfg, next, worlds, events);
    assert AllRevoked(worlds[0].world.db, g);
  }

  /** A request past its checks goes on to a token here too. */
  lemma PgMints(cfg: Config, pw: PgWorld, t: nat, g: string)
    requires t in pw.world.procs && pw.world.procs[t].Minting? && pw.world.procs[t].minting.earned.grantId == g
    requires Injective(cfg.sha)
    ensures !PgFinallyDead(cfg, pw, g)
  {
    hide PgFinallyDead, Legal, After, AllRevoked, Injective;
    var db, random: string := pw.world.db, "";
    if pw.world.procs[t].minting.InsertAccess? {
      assert Injective((x: string) => x) by { SameIsInjective(); }
      random := FreshIdentifier(x => x, db.access.Keys, 0);
    } else {
      random := FreshIdentifier(cfg.sha, db.refresh.Keys, 0);
    }
    MintLeavesLive(cfg, pw.world, t, random);
    if PgFinallyDead(cfg, pw, g) {
      PgDeadNext(cfg, pw, Step(t, Input(0, random, true)), g);
    }
  }

  lemma SameIsInjective()
    ensures Injective((x: string) => x)
  {
  }

  lemma PgAbleMints(cfg: Config, pw: PgWorld, t: nat, g: string)
    requires t in pw.world.procs && Able(pw.world.db, pw.world.procs[t], g) && Injective(cfg.sha)
    ensures !PgFinallyDead(cfg, pw, g)
  {
    hide PgFinallyDead, Legal, After, Injective, AllRevoked;
    if pw.world.procs[t].Minting? {
      PgMints(cfg, pw, t, g);
    } else {
      AbleGoesOn(cfg, pw.world, t, g);
      var e := Step(t, Input(0, "", true));
      PgMints(cfg, PgAfter(cfg, pw, e), t, g);
      if PgFinallyDead(cfg, pw, g) {
        PgDeadNext(cfg, pw, e, g);
      }
    }
  }

  /** When the end of a grant is final, with the two-statement redeem: exactly when it
      is with the one-step one. */
  lemma PgFinalExactly(cfg: Config, worlds: seq<PgWorld>, events: seq<Event>, i: nat, g: string)
    requires PgRun(cfg, worlds, events) && i < |worlds| && Closed(worlds[i].world.db, g) && Injective(cfg.sha)
    ensures PgFinallyDead(cfg, worlds[i], g) <==> AllRevoked(worlds[i].world.db, g) && NoneAble(worlds[i].world, g)
  {
    hide PgRun, Run, Closed, AllRevoked, Injective, Able, PgRunFrom, RunFrom;
    var pw := worlds[i];
    var seen, log, place := WorldSeen(cfg, worlds, events, i);
    FinalExactly(cfg, seen, log, place, g);
    if AllRevoked(pw.world.db, g) && NoneAble(pw.world, g) {
      forall worlds': seq<PgWorld>, events': seq<Event>, k: nat | PgRunFrom(cfg, pw, worlds', events') && k < |worlds'|
        ensures AllRevoked(worlds'[k].world.db, g)
      {
        var seen', log', places := SeenRun(cfg, pw, worlds', events', k);
        assert worlds'[..k + 1][k] == worlds'[k];
        assert seen'[places[k]] == worlds'[k].world;
      }
    }
    if PgFinallyDead(cfg, pw, g) {
      PgDeadNow(cfg, pw, g);
      forall t | t in pw.world.procs ensures !Able(pw.world.db, pw.world.procs[t], g) {
        if Able(pw.world.db, pw.world.procs[t], g) {
          PgAbleMints(cfg, pw, t, g);
        }
      }
    }
  }

  lemma PgDeadNow(cfg: Config, pw: PgWorld, g: string)
    requires PgFinallyDead(cfg, pw, g)
    ensures AllRevoked(pw.world.db, g)
  {
    hide AllRevoked;
    var worlds, events := [pw], [];
    assert PgRunFrom(cfg, pw, worlds, events);
    assert AllRevoked(worlds[0].world.db, g);
  }
}
