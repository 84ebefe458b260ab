/** The end of a grant: replay of its code (section 10.5 of RFC 6749) and revocation of
    its refresh token (section 2.2 of RFC 7009), exactly when each is final. */
module Cascade {
  import opened AuthzRequest
  import opened Tables
  import opened Protocol
  import opened Provenance
  import Descent

  // ------------------------------------------------------- who can still mint

  /** The grant is revoked, or its refresh token is. */
  ghost predicate Closed(db: Db, g: string) {
    && g in db.grants
    && (db.grants[g].revokedAt.Some?
        || exists h :: h in db.refresh && db.refresh[h].grantId == g && db.refresh[h].revokedAt.Some?)
  }

  /** The request has passed every check between it and a token of the grant, or
      would pass the last one now. */
  predicate Able(db: Db, p: Proc, g: string) {
    || (p.Minting? && p.minting.earned.grantId == g)
    || (p.Refreshing? && p.refreshing.CheckGrant? && p.refreshing.refreshRow.grantId == g
        && g in db.grants && db.grants[g].revokedAt.None?
        && ScopeSubset(RequestedScope(p.refreshing.scopeParam, p.refreshing.refreshRow.scope),
                       p.refreshing.refreshRow.scope))
  }

  ghost predicate NoneAble(w: World, g: string) { forall t | t in w.procs :: !Able(w.db, w.procs[t], g) }

  /** No token of the grant is left unrevoked. */
  ghost predicate AllRevoked(db: Db, g: string) {
    && (forall j | j in db.access && db.access[j].grantId == g :: db.access[j].revokedAt.Some?)
    && (forall h | h in db.refresh && db.refresh[h].grantId == g :: db.refresh[h].revokedAt.Some?)
  }

  /** What the three statements of the cascade leave. */
  lemma CutAll(db: Db, db': Db, g: string, now: int)
    requires db'.grants == RevokeGrant(db.grants, g, now)
    requires db'.access == RevokeAccessOf(db.access, g, now) && db'.refresh == RevokeRefreshOf(db.refresh, g, now)
    ensures g in db.grants ==> Closed(db', g) && db'.grants[g].revokedAt.Some?
    ensures AllRevoked(db', g) && db'.access.Keys == db.access.Keys
  {
  }

  ghost predicate Sealed(cfg: Config, w: World, g: string) {
    Inv(cfg, w) && Closed(w.db, g) && AllRevoked(w.db, g) && NoneAble(w, g)
  }

  // ------------------------------------------------------ a sealed grant stays

  /** While the grant is closed nobody comes to be able to mint who was not. */
  lemma NoNewMinter(cfg: Config, w: World, t: nat, p: Proc, f: Effect, g: string, input: Input)
    requires Inv(cfg, w) && Closed(w.db, g) && t in w.procs && w.procs[t] == p && !p.Done?
    requires f == Act(cfg, w.db, p, input) && Able(w.db, f.next, g)
    ensures Able(w.db, p, g)
  {
    hide Inv, Lawful, ClientsOk, ParOk, GrantOk, AccessOk, PushStep, AuthorizeStep, ViewStep, ConsentStep, IssueStep,
         RedeemStep, RefreshStep, MintStep, RevokeStep;
    match p
    case Redeeming(r) =>
      RedeemReaches(cfg, w.db, r, g, input);
      if r.FindGrant? { ClosedHasNoCodeClaim(cfg, w, t, g); }
    case Refreshing(r) =>
      RefreshReaches(cfg, w.db, r, g, input);
      if r.PresentRefresh? { ClosedHasNoRefresh(cfg, w, g, cfg.sha(r.token)); }
    case Minting(m) => MintReaches(cfg, m, input);
    case _ => ReachesNoMint(cfg, w.db, p, g, input);
  }

  lemma RedeemReaches(cfg: Config, db: Db, r: Redeeming, g: string, input: Input)
    requires Able(db, RedeemStep(cfg, db, r, input).next, g)
    ensures r.FindGrant? && r.codeRow.grantId == g && g in db.grants && db.grants[g].revokedAt.None?
  {
  }

  lemma RefreshReaches(cfg: Config, db: Db, r: Refreshing, g: string, input: Input)
    requires Able(db, RefreshStep(cfg, db, r, input).next, g)
    ensures r.CheckGrant? ==> Able(db, Refreshing(r), g)
    ensures r.PresentRefresh? ==>
              var h := cfg.sha(r.token);
              && h in db.refresh && db.refresh[h].grantId == g && db.refresh[h].revokedAt.None?
              && g in db.grants && db.grants[g].revokedAt.None?
  {
    hide ScopeSubset, RequestedScope;
  }

  lemma MintReaches(cfg: Config, m: Minting, input: Input)
    ensures var next := MintStep(cfg, m, input).next; next.Done? || (next.Minting? && next.minting.earned == m.earned)
  {
  }

  lemma ReachesNoMint(cfg: Config, db: Db, p: Proc, g: string, input: Input)
    requires !p.Done? && !p.Redeeming? && !p.Refreshing? && !p.Minting?
    ensures !Able(db, Act(cfg, db, p, input).next, g)
  {
    hide Validate, PeekPar, FindInteraction, NeedsReauthentication, PromptNone, Lawful;
  }

  /** The code of a grant whose refresh token exists is used up. */
  lemma ClosedHasNoCodeClaim(cfg: Config, w: World, t: nat, g: string)
    requires Inv(cfg, w) && Closed(w.db, g) && t in w.procs
    requires w.procs[t].Redeeming? && w.procs[t].redeeming.FindGrant? && w.procs[t].redeeming.codeRow.grantId == g
    ensures w.db.grants[g].revokedAt.Some?
  {
    hide RowsOk, OneGrantPerRequest, OneCodePerGrant, OneRefreshPerGrant, Redeemable;
    assert Holds(cfg, w, w.procs[t]) && Unspent(w, ClaimOf(w.procs[t]));
  }

  lemma ClosedHasNoRefresh(cfg: Config, w: World, g: string, h: string)
    requires Inv(cfg, w) && Closed(w.db, g)
    requires h in w.db.refresh && w.db.refresh[h].grantId == g && w.db.refresh[h].revokedAt.None?
    ensures w.db.grants[g].revokedAt.Some?
  {
    hide RowsOk, AllHold, ClaimsOk, OneGrantPerRequest, OneCodePerGrant;
  }

  lemma ClosedKept(db: Db, db': Db, g: string)
    requires Closed(db, g) && GrantsKept(db.grants, db'.grants) && RefreshKept(db.refresh, db'.refresh)
    ensures Closed(db', g)
  {
  }

  lemma AbleKept(db: Db, db': Db, p: Proc, g: string)
    requires g in db.grants && GrantsKept(db.grants, db'.grants) && Able(db', p, g)
    ensures Able(db, p, g)
  {
    hide ScopeSubset, RequestedScope;
  }

  /** New tokens come only from a request that is able to mint them. */
  lemma NoNewToken(cfg: Config, db: Db, p: Proc, f: Effect, g: string, input: Input)
    requires !p.Done? && f == Act(cfg, db, p, input) && !Able(db, p, g)
    ensures f.write.PutAccess? ==> f.write.access.grantId != g
    ensures f.write.PutRefresh? ==> f.write.refresh.grantId != g
  {
    hide PushStep, AuthorizeStep, ViewStep, ConsentStep, IssueStep, RedeemStep, RefreshStep, RevokeStep;
    if p.Minting? {
      assert f == MintStep(cfg, p.minting, input);
    }
  }

  lemma AllRevokedKept(db: Db, write: Write, g: string)
    requires AllRevoked(db, g) && Fresh(db, write)
    requires write.PutAccess? ==> write.access.grantId != g
    requires write.PutRefresh? ==> write.refresh.grantId != g
    ensures AllRevoked(Apply(db, write), g)
    ensures forall j :: j in Apply(db, write).access && Apply(db, write).access[j].grantId == g ==> j in db.access
    ensures forall h :: h in Apply(db, write).refresh && Apply(db, write).refresh[h].grantId == g ==> h in db.refresh
  {
    hide Apply;
    AccessSurvives(db, write);
    RefreshSurvives(db, write);
    KeysAfter(db, write);
    PutRows(db, write);
  }

  lemma PutRows(db: Db, write: Write)
    ensures write.PutAccess? ==> Apply(db, write).access == db.access[write.jti := write.access]
    ensures write.PutRefresh? ==> Apply(db, write).refresh == db.refresh[write.hash := write.refresh]
  {
  }

  /** No token of the grant that was not there before. */
  ghost predicate NoneMinted(db: Db, db': Db, g: string) {
    && (forall j | j in db'.access && db'.access[j].grantId == g :: j in db.access)
    && (forall h | h in db'.refresh && db'.refresh[h].grantId == g :: h in db.refresh)
  }

  lemma SealedStep(cfg: Config, w: World, t: nat, input: Input, g: string)
    requires Sealed(cfg, w, g) && t in w.procs && !w.procs[t].Done?
    requires Fresh(w.db, Act(cfg, w.db, w.procs[t], input).write)
    ensures var w' := Commit(w, t, Act(cfg, w.db, w.procs[t], input)); Sealed(cfg, w', g) && NoneMinted(w.db, w'.db, g)
  {
    hide Inv, Act, Able, Closed, AllRevoked, Fresh, Commit, Apply;
    var p := w.procs[t];
    var f := Act(cfg, w.db, p, input);
    var w' := Commit(w, t, f);
    StepKeeps(cfg, w, t, input);
    CommitParts(w, t, f);
    ApplyEvolves(w.db, f.write);
    ClosedKept(w.db, w'.db, g);
    assert g in w.db.grants by { ClosedGrant(w.db, g); }
    NoNewToken(cfg, w.db, p, f, g, input);
    AllRevokedKept(w.db, f.write, g);
    forall u | u in w'.procs ensures !Able(w'.db, w'.procs[u], g) {
      if Able(w'.db, w'.procs[u], g) {
        AbleKept(w.db, w'.db, w'.procs[u], g);
        if u == t {
          NoNewMinter(cfg, w, t, p, f, g, input);
        }
      }
    }
  }

  lemma ClosedGrant(db: Db, g: string)
    requires Closed(db, g)
    ensures g in db.grants
  {
  }

  /** Whatever happens next, a sealed grant stays sealed. */
  lemma SealedKept(cfg: Config, w: World, e: Event, g: string)
    requires Sealed(cfg, w, g) && Legal(cfg, w, e)
    ensures Sealed(cfg, After(cfg, w, e), g) && NoneMinted(w.db, After(cfg, w, e).db, g)
  {
    hide Inv, Act, Fresh, Commit, Known;
    InvKept(cfg, w, e);
    match e
    case Step(t, input) => SealedStep(cfg, w, t, input, g);
    case Start(t, p) => assert !Able(w.db, p, g);
    case Crash(t) =>
    case Register(c) =>
  }

  ghost predicate RunFrom(cfg: Config, w: World, worlds: seq<World>, events: seq<Event>) {
    && |worlds| == |events| + 1 && worlds[0] == w
    && forall i | 0 <= i < |events| ::
         Legal(cfg, worlds[i], events[i]) && worlds[i + 1] == After(cfg, worlds[i], events[i])
  }

  lemma {:induction false} SealedForever(cfg: Config, w: World, worlds: seq<World>, events: seq<Event>, g: string,
                                         k: nat)
    requires Sealed(cfg, w, g) && RunFrom(cfg, w, worlds, events) && k < |worlds|
    ensures Sealed(cfg, worlds[k], g) && NoneMinted(w.db, worlds[k].db, g)
  {
    hide Sealed, Legal, After;
    if k > 0 {
      SealedForever(cfg, w, worlds, events, g, k - 1);
      SealedKept(cfg, worlds[k - 1], events[k - 1], g);
      NoneMintedTrans(cfg, worlds[k - 1], events[k - 1], w, g);
    }
  }

  lemma NoneMintedTrans(cfg: Config, w1: World, e: Event, w: World, g: string)
    requires Sealed(cfg, w1, g) && Legal(cfg, w1, e)
    requires NoneMinted(w.db, w1.db, g) && NoneMinted(w1.db, After(cfg, w1, e).db, g)
    ensures NoneMinted(w.db, After(cfg, w1, e).db, g)
  {
    hide Inv, Closed, AllRevoked, NoneAble, Evolves, Legal, After;
    Descent.EventGrows(cfg, w1, e);
    AccessGrants(w1, After(cfg, w1, e));
  }

  lemma AccessGrants(w: World, w': World)
    requires Grows(w, w')
    ensures forall j | j in w.db.access :: j in w'.db.access && w'.db.access[j].grantId == w.db.access[j].grantId
    ensures forall h | h in w.db.refresh :: h in w'.db.refresh && w'.db.refresh[h].grantId == w.db.refresh[h].grantId
  {
  }

  // ----------------------------------------------------------- exactly when

  ghost predicate Injective(f: string -> string) { forall a, b :: f(a) == f(b) ==> a == b }

  function Repeated(n: nat): string { seq(n, _ => 'a') }

  /** There is always another random identifier whose image is not in use. */
  lemma {:induction false} FreshIdentifier(f: string -> string, used: set<string>, n: nat) returns (s: string)
    requires Injective(f)
    ensures f(s) !in used && |s| >= n
    decreases |used|
  {
    s := Repeated(n);
    if f(s) in used {
      var longer := FreshIdentifier(f, used - {f(s)}, n + 1);
      assert f(longer) != f(s);
      s := longer;
    }
  }

  /** In no continuation is any token of the grant ever unrevoked. */
  ghost predicate FinallyDead(cfg: Config, w: World, g: string) {
    forall worlds: seq<World>, events: seq<Event>, k: nat ::
      RunFrom(cfg, w, worlds, events) && k < |worlds| ==> AllRevoked(worlds[k].db, g)
  }

  lemma ContinuationDead(cfg: Config, w: World, e: Event, g: string)
    requires FinallyDead(cfg, w, g) && Legal(cfg, w, e)
    ensures FinallyDead(cfg, After(cfg, w, e), g)
  {
    hide AllRevoked, Legal, After;
    forall worlds: seq<World>, events: seq<Event>, k: nat
           | RunFrom(cfg, After(cfg, w, e), worlds, events) && k < |worlds|
      ensures AllRevoked(worlds[k].db, g)
    {
      var longer, all := [w] + worlds, [e] + events;
      forall i | 0 <= i < |all|
        ensures Legal(cfg, longer[i], all[i]) && longer[i + 1] == After(cfg, longer[i], all[i]) {
        if i > 0 {
          assert longer[i] == worlds[i - 1] && all[i] == events[i - 1] && longer[i + 1] == worlds[i];
        }
      }
      assert RunFrom(cfg, w, longer, all) && longer[k + 1] == worlds[k];
    }
  }

  lemma DeadNow(cfg: Config, w: World, g: string)
    requires FinallyDead(cfg, w, g)
    ensures AllRevoked(w.db, g)
  {
    hide AllRevoked;
    var worlds, events := [w], [];
    assert RunFrom(cfg, w, worlds, events);
    assert AllRevoked(worlds[0].db, g);
  }

  /** A request past its checks inserts a token that nobody has revoked. */
  lemma MinterMints(cfg: Config, w: World, t: nat, g: string)
    requires t in w.procs && w.procs[t].Minting? && w.procs[t].minting.earned.grantId == g
    requires Injective(cfg.sha)
    ensures !FinallyDead(cfg, w, g)
  {
    hide FinallyDead, Legal, After, AllRevoked;
    var m := w.procs[t].minting;
    var random: string;
    if m.InsertAccess? {
      random := FreshIdentifier(x => x, w.db.access.Keys, 0);
    } else {
      random := FreshIdentifier(cfg.sha, w.db.refresh.Keys, 0);
    }
    var e := Step(t, Input(0, random, true));
    assert Legal(cfg, w, e) && !AllRevoked(After(cfg, w, e).db, g) by { MintLeavesLive(cfg, w, t, random); }
    if FinallyDead(cfg, w, g) {
      ContinuationDead(cfg, w, e, g);
      DeadNow(cfg, After(cfg, w, e), g);
    }
  }

  lemma MintLeavesLive(cfg: Config, w: World, t: nat, random: string)
    requires t in w.procs && w.procs[t].Minting?
    requires w.procs[t].minting.InsertAccess? ==> random !in w.db.access
    requires w.procs[t].minting.InsertRefresh? ==> cfg.sha(random) !in w.db.refresh
    ensures Legal(cfg, w, Step(t, Input(0, random, true)))
    ensures !AllRevoked(After(cfg, w, Step(t, Input(0, random, true))).db, w.procs[t].minting.earned.grantId)
  {
    hide Commit;
    var f := MintStep(cfg, w.procs[t].minting, Input(0, random, true));
    CommitParts(w, t, f);
    PutRows(w.db, f.write);
    if w.procs[t].minting.InsertAccess? {
      assert Apply(w.db, f.write).access[random].revokedAt.None?;
    } else {
      assert Apply(w.db, f.write).refresh[cfg.sha(random)].revokedAt.None?;
    }
  }

  lemma AbleGoesOn(cfg: Config, w: World, t: nat, g: string)
    requires t in w.procs && Able(w.db, w.procs[t], g) && w.procs[t].Refreshing?
    ensures var e := Step(t, Input(0, "", true));
            && Legal(cfg, w, e)
            && var w' := After(cfg, w, e);
            && t in w'.procs && w'.procs[t].Minting? && w'.procs[t].minting.earned.grantId == g
  {
    hide ScopeSubset, RequestedScope, Commit;
    CommitParts(w, t, RefreshStep(cfg, w.db, w.procs[t].refreshing, Input(0, "", true)));
  }

  /** At any moment of any run, once a grant or its refresh token is revoked: the
      grant's tokens are dead for good exactly if all are revoked now and no
      request under way has already passed the checks that would stop it. */
  lemma FinalExactly(cfg: Config, worlds: seq<World>, events: seq<Event>, i: nat, g: string)
    requires Run(cfg, worlds, events) && i < |worlds|
    requires Closed(worlds[i].db, g) && Injective(cfg.sha)
    ensures FinallyDead(cfg, worlds[i], g) <==> AllRevoked(worlds[i].db, g) && NoneAble(worlds[i], g)
  {
    hide Inv, Closed, AllRevoked, Able, Injective, RunFrom, FinallyDead, Run;
    var w := worlds[i];
    RunInv(cfg, worlds, events, i);
    if FinallyDead(cfg, w, g) {
      DeadNow(cfg, w, g);
      forall t | t in w.procs ensures !Able(w.db, w.procs[t], g) {
        if Able(w.db, w.procs[t], g) {
          AbleMints(cfg, w, t, g);
        }
      }
    } else if AllRevoked(w.db, g) && NoneAble(w, g) {
      SealedIsDead(cfg, w, g);
    }
  }

  lemma AbleMints(cfg: Config, w: World, t: nat, g: string)
    requires t in w.procs && Able(w.db, w.procs[t], g) && Injective(cfg.sha)
    ensures !FinallyDead(cfg, w, g)
  {
    hide FinallyDead, Legal, After, Injective;
    if w.procs[t].Minting? {
      MinterMints(cfg, w, t, g);
    } else {
      AbleGoesOn(cfg, w, t, g);
      var e := Step(t, Input(0, "", true));
      MinterMints(cfg, After(cfg, w, e), t, g);
      if FinallyDead(cfg, w, g) {
        ContinuationDead(cfg, w, e, g);
      }
    }
  }

  lemma SealedIsDead(cfg: Config, w: World, g: string)
    requires Sealed(cfg, w, g)
    ensures FinallyDead(cfg, w, g)
  {
    hide Sealed, AllRevoked, RunFrom;
    forall worlds: seq<World>, events: seq<Event>, k: nat | RunFrom(cfg, w, worlds, events) && k < |worlds|
      ensures AllRevoked(worlds[k].db, g)
    {
      SealedForever(cfg, w, worlds, events, g, k);
      SealedRevoked(cfg, worlds[k], g);
    }
  }

  lemma SealedRevoked(cfg: Config, w: World, g: string)
    requires Sealed(cfg, w, g)
    ensures AllRevoked(w.db, g)
  {
    hide Inv, Closed, AllRevoked, NoneAble;
  }
}
