/** The end of a grant over whole runs: what can slip through when requests interleave,
    and that nothing does when each request is served before the next one starts. */
module GrantEnd {
  import opened AuthzRequest
  import opened Tables
  import opened Protocol
  import opened Provenance
  import opened Cascade
  import Descent

  // ------------------------------------------------------------ await grain

  /** Event `k` is the storage lookup by which `u` finds the grant unrevoked. */
  ghost predicate FindsGrant(worlds: seq<World>, events: seq<Event>, k: nat, u: nat, g: string) {
    && k < |events| && k < |worlds| && events[k].Step? && events[k].tid == u && u in worlds[k].procs
    && var p := worlds[k].procs[u];
    && ((p.Redeeming? && p.redeeming.FindGrant? && p.redeeming.codeRow.grantId == g)
        || (p.Refreshing? && p.refreshing.CheckGrant? && p.refreshing.refreshRow.grantId == g))
    && g in worlds[k].db.grants && worlds[k].db.grants[g].revokedAt.None?
  }

  /** Event `k` is the storage lookup by which `u` finds the refresh token `h` unrevoked. */
  ghost predicate FindsRefresh(cfg: Config, worlds: seq<World>, events: seq<Event>, k: nat, u: nat, h: string) {
    && k < |events| && k < |worlds| && events[k].Step? && events[k].tid == u && u in worlds[k].procs
    && var p := worlds[k].procs[u];
    && p.Refreshing? && p.refreshing.PresentRefresh? && cfg.sha(p.refreshing.token) == h
    && h in worlds[k].db.refresh && worlds[k].db.refresh[h].revokedAt.None?
  }

  /** Where a step that leads into the minting states comes from. */
  lemma MintingComesFrom(cfg: Config, db: Db, p: Proc, input: Input)
    requires !p.Done?
    ensures var next := Act(cfg, db, p, input).next;
            next.Minting? ==>
              var e := next.minting.earned;
              || (p.Minting? && p.minting.earned == e)
              || (&& ((p.Redeeming? && p.redeeming.FindGrant? && p.redeeming.codeRow.grantId == e.grantId
                       && p.redeeming.mint == e.mint)
                      || (p.Refreshing? && p.refreshing.CheckGrant? && p.refreshing.refreshRow.grantId == e.grantId
                          && p.refreshing.mint == e.mint))
                  && e.grantId in db.grants && db.grants[e.grantId].revokedAt.None?)
  {
    hide Lawful, PushStep, AuthorizeStep, ViewStep, ConsentStep, IssueStep, RedeemStep, RefreshStep, MintStep,
         RevokeStep;
    match p
    case Redeeming(r) => RedeemMints(cfg, db, r, input);
    case Refreshing(r) => RefreshMints(cfg, db, r, input);
    case Minting(m) => MintReaches(cfg, m, input);
    case _ => NeverMints(cfg, db, p, input);
  }

  lemma RedeemMints(cfg: Config, db: Db, r: Redeeming, input: Input)
    ensures var next := RedeemStep(cfg, db, r, input).next;
            next.Minting? ==>
              && r.FindGrant? && r.codeRow.grantId == next.minting.earned.grantId && r.mint == next.minting.earned.mint
              && r.codeRow.grantId in db.grants && db.grants[r.codeRow.grantId].revokedAt.None?
  {
  }

  lemma RefreshMints(cfg: Config, db: Db, r: Refreshing, input: Input)
    ensures var next := RefreshStep(cfg, db, r, input).next;
            next.Minting? ==>
              && r.CheckGrant? && r.refreshRow.grantId == next.minting.earned.grantId
              && r.mint == next.minting.earned.mint
              && r.refreshRow.grantId in db.grants && db.grants[r.refreshRow.grantId].revokedAt.None?
    ensures var next := RefreshStep(cfg, db, r, input).next;
            next.Refreshing? ==>
              && r.PresentRefresh? && next.refreshing.CheckGrant?
              && next.refreshing.mint == FromRefresh(cfg.sha(r.token), r.jkt)
              && cfg.sha(r.token) in db.refresh && db.refresh[cfg.sha(r.token)].revokedAt.None?
  {
  }

  lemma NeverMints(cfg: Config, db: Db, p: Proc, input: Input)
    requires !p.Done? && !p.Redeeming? && !p.Refreshing? && !p.Minting?
    ensures !Act(cfg, db, p, input).next.Minting? && !Act(cfg, db, p, input).next.Refreshing?
  {
    hide Validate, PeekPar, FindInteraction, NeedsReauthentication, PromptNone, Lawful;
  }

  /** The request `u` at two successive moments of a run. */
  lemma OneStepBack(cfg: Config, worlds: seq<World>, events: seq<Event>, s: nat, u: nat)
    requires Run(cfg, worlds, events) && 0 < s < |worlds| && u in worlds[s].procs
    ensures var w, e := worlds[s - 1], events[s - 1];
            || (u in w.procs && worlds[s].procs[u] == w.procs[u])
            || (e.Start? && e.tid == u && worlds[s].procs[u] == e.request && Entry(w.db, e.request))
            || (e.Crash? && e.tid == u && worlds[s].procs[u] == Done(Crashed))
            || (e.Step? && e.tid == u && u in w.procs && !w.procs[u].Done?
                && worlds[s].procs[u] == Act(cfg, w.db, w.procs[u], e.input).next)
  {
    hide Act, Fresh, Entry, Commit, Apply;
    var w, e := worlds[s - 1], events[s - 1];
    assert Legal(cfg, w, e) && worlds[s] == After(cfg, w, e);
    if e.Step? {
      CommitParts(w, e.tid, Act(cfg, w.db, w.procs[e.tid], e.input));
    }
  }

  lemma EntryKinds(db: Db, p: Proc)
    requires Entry(db, p)
    ensures !p.Minting? && (p.Refreshing? ==> p.refreshing.PresentRefresh?)
  {
    hide Known;
  }

  /** Whoever is about to mint a token of `g` has found the grant unrevoked before. */
  lemma {:induction false} MinterFoundGrant(cfg: Config, worlds: seq<World>, events: seq<Event>, s: nat, u: nat,
                                            g: string)
    returns (k: nat)
    requires Run(cfg, worlds, events) && s < |worlds|
    requires u in worlds[s].procs && worlds[s].procs[u].Minting? && worlds[s].procs[u].minting.earned.grantId == g
    ensures k < s && FindsGrant(worlds, events, k, u, g)
  {
    hide Run, Act, Entry;
    NotAtStart(cfg, worlds, events, s, u);
    OneStepBack(cfg, worlds, events, s, u);
    var w, e := worlds[s - 1], events[s - 1];
    if u in w.procs && worlds[s].procs[u] == w.procs[u] {
      k := MinterFoundGrant(cfg, worlds, events, s - 1, u, g);
    } else if e.Start? {
      EntryKinds(w.db, e.request);
    } else {
      MintingComesFrom(cfg, w.db, w.procs[u], e.input);
      if w.procs[u].Minting? {
        k := MinterFoundGrant(cfg, worlds, events, s - 1, u, g);
      } else {
        k := s - 1;
      }
    }
  }

  lemma NotAtStart(cfg: Config, worlds: seq<World>, events: seq<Event>, s: nat, u: nat)
    requires Run(cfg, worlds, events) && s < |worlds| && u in worlds[s].procs
    ensures 0 < s <= |events|
  {
  }

  /** Whoever is refreshing has found the refresh token unrevoked before. */
  lemma {:induction false} RefresherFoundToken(cfg: Config, worlds: seq<World>, events: seq<Event>, s: nat, u: nat,
                                               h: string)
    returns (k: nat)
    requires Run(cfg, worlds, events) && s < |worlds| && u in worlds[s].procs
    requires var p := worlds[s].procs[u];
             || (p.Refreshing? && p.refreshing.CheckGrant? && p.refreshing.mint.FromRefresh?
                 && p.refreshing.mint.refreshHash == h)
             || (p.Minting? && p.minting.earned.mint.FromRefresh? && p.minting.earned.mint.refreshHash == h)
    ensures k < s && FindsRefresh(cfg, worlds, events, k, u, h)
    decreases s, 1
  {
    hide Run, Act, Entry;
    NotAtStart(cfg, worlds, events, s, u);
    OneStepBack(cfg, worlds, events, s, u);
    var w, e := worlds[s - 1], events[s - 1];
    if u in w.procs && worlds[s].procs[u] == w.procs[u] {
      k := RefresherFoundToken(cfg, worlds, events, s - 1, u, h);
    } else if e.Start? {
      EntryKinds(w.db, e.request);
    } else {
      k := RefresherStep(cfg, worlds, events, s, u, h);
    }
  }

  lemma {:induction false} RefresherStep(cfg: Config, worlds: seq<World>, events: seq<Event>, s: nat, u: nat, h: string)
    returns (k: nat)
    requires Run(cfg, worlds, events) && 0 < s < |worlds| && u in worlds[s].procs
    requires var p := worlds[s].procs[u];
             || (p.Refreshing? && p.refreshing.CheckGrant? && p.refreshing.mint.FromRefresh?
                 && p.refreshing.mint.refreshHash == h)
             || (p.Minting? && p.minting.earned.mint.FromRefresh? && p.minting.earned.mint.refreshHash == h)
    requires var w, e := worlds[s - 1], events[s - 1];
             && e.Step? && e.tid == u && u in w.procs && !w.procs[u].Done?
             && worlds[s].procs[u] == Act(cfg, w.db, w.procs[u], e.input).next
    ensures k < s && FindsRefresh(cfg, worlds, events, k, u, h)
    decreases s, 0
  {
    hide Run, Act;
    NotAtStart(cfg, worlds, events, s, u);
    var w, e := worlds[s - 1], events[s - 1];
    var p, next := w.procs[u], worlds[s].procs[u];
    if next.Minting? {
      MintingComesFrom(cfg, w.db, p, e.input);
      if p.Redeeming? {
        RunInv(cfg, worlds, events, s - 1);
        CodeMintFromCode(cfg, w, u);
      }
      k := RefresherFoundToken(cfg, worlds, events, s - 1, u, h);
    } else {
      RefreshingComesFrom(cfg, w.db, p, e.input);
      k := s - 1;
    }
  }

  lemma RefreshingComesFrom(cfg: Config, db: Db, p: Proc, input: Input)
    requires !p.Done? && Act(cfg, db, p, input).next.Refreshing?
    requires Act(cfg, db, p, input).next.refreshing.CheckGrant?
    requires Act(cfg, db, p, input).next.refreshing.mint.FromRefresh?
    ensures p.Refreshing? && p.refreshing.PresentRefresh?
    ensures var h := Act(cfg, db, p, input).next.refreshing.mint.refreshHash;
            h == cfg.sha(p.refreshing.token) && h in db.refresh && db.refresh[h].revokedAt.None?
  {
    hide Lawful, PushStep, AuthorizeStep, ViewStep, ConsentStep, IssueStep, RefreshStep, RevokeStep;
    match p
    case Refreshing(r) => RefreshMints(cfg, db, r, input);
    case Redeeming(_) =>
    case Minting(_) =>
    case _ => NeverMints(cfg, db, p, input);
  }

  lemma CodeMintFromCode(cfg: Config, w: World, u: nat)
    requires Inv(cfg, w) && u in w.procs && w.procs[u].Redeeming? && w.procs[u].redeeming.FindGrant?
    ensures w.procs[u].redeeming.mint.FromCode?
  {
    hide RowsOk, ClaimsOk, OneGrantPerRequest, OneCodePerGrant, OneRefreshPerGrant, MintOk;
    assert Holds(cfg, w, w.procs[u]);
  }

  /** Event `s` inserts the access token `j`, of grant `g`, for request `u`. */
  ghost predicate InsertsAccess(worlds: seq<World>, events: seq<Event>, s: nat, u: nat, j: string, g: string) {
    && s < |events| && s < |worlds| && events[s].Step? && events[s].tid == u && events[s].input.random == j
    && u in worlds[s].procs
    && var p := worlds[s].procs[u];
    && p.Minting? && p.minting.InsertAccess? && p.minting.earned.grantId == g
  }

  lemma AccessComesFrom(cfg: Config, w: World, e: Event, j: string)
    requires Legal(cfg, w, e) && j !in w.db.access && j in After(cfg, w, e).db.access
    ensures e.Step? && e.tid in w.procs && e.input.random == j
    ensures var p := w.procs[e.tid];
            && p.Minting? && p.minting.InsertAccess?
            && After(cfg, w, e).db.access[j].grantId == p.minting.earned.grantId
  {
    hide PushStep, AuthorizeStep, ViewStep, ConsentStep, IssueStep, RedeemStep, RefreshStep, RevokeStep, Fresh, Entry,
         Known, Apply, Commit;
    if e.Step? {
      var f := Act(cfg, w.db, w.procs[e.tid], e.input);
      CommitParts(w, e.tid, f);
      KeysAfter(w.db, f.write);
      PutRows(w.db, f.write);
    } else {
      SameAccess(cfg, w, e);
    }
  }

  lemma SameAccess(cfg: Config, w: World, e: Event)
    requires Legal(cfg, w, e) && !e.Step?
    ensures After(cfg, w, e).db.access == w.db.access && After(cfg, w, e).db.refresh == w.db.refresh
  {
  }

  lemma {:induction false} AccessInserted(cfg: Config, worlds: seq<World>, events: seq<Event>, a: nat, m: nat,
                                              j: string, g: string)
    returns (s: nat, u: nat)
    requires Run(cfg, worlds, events) && a <= m < |worlds|
    requires j !in worlds[a].db.access && j in worlds[m].db.access && worlds[m].db.access[j].grantId == g
    ensures a <= s < m && InsertsAccess(worlds, events, s, u, j, g)
    decreases m
  {
    hide Legal, After, Grows, Initial;
    assert a < m;
    if j in worlds[m - 1].db.access {
      Descent.RunGrows(cfg, worlds, events, m - 1, m);
      AccessGrants(worlds[m - 1], worlds[m]);
      s, u := AccessInserted(cfg, worlds, events, a, m - 1, j, g);
    } else {
      AccessComesFrom(cfg, worlds[m - 1], events[m - 1], j);
      s, u := m - 1, events[m - 1].tid;
    }
  }

  /** Event `c` is a `revokeByGrant` on the access tokens. */
  ghost predicate CutsAccess(worlds: seq<World>, events: seq<Event>, c: nat, g: string) {
    && c < |events| && c < |worlds| && events[c].Step? && events[c].tid in worlds[c].procs
    && var p := worlds[c].procs[events[c].tid];
    && ((p.Redeeming? && p.redeeming.CascadeAccess? && p.redeeming.grantId == g)
        || (p.Revoking? && p.revoking.CutRefreshAccess? && p.revoking.grantId == g))
  }

  /** A step event, by what the step does. */
  lemma StepDoes(cfg: Config, w: World, e: Event)
    requires Legal(cfg, w, e) && e.Step?
    ensures e.tid in w.procs && !w.procs[e.tid].Done?
    ensures Fresh(w.db, Act(cfg, w.db, w.procs[e.tid], e.input).write)
    ensures After(cfg, w, e).db == Apply(w.db, Act(cfg, w.db, w.procs[e.tid], e.input).write)
  {
    hide Act, Fresh, Apply, Commit;
    CommitParts(w, e.tid, Act(cfg, w.db, w.procs[e.tid], e.input));
  }

  /** What the cutting places write. */
  lemma CutWrites(cfg: Config, db: Db, p: Proc, input: Input)
    ensures p.Redeeming? && p.redeeming.CascadeGrant? ==>
              Act(cfg, db, p, input).write == DropGrant(p.redeeming.grantId, p.redeeming.at)
    ensures p.Redeeming? && p.redeeming.CascadeAccess? ==>
              Act(cfg, db, p, input).write == DropAccessOf(p.redeeming.grantId, p.redeeming.at)
    ensures p.Redeeming? && p.redeeming.CascadeRefresh? ==>
              Act(cfg, db, p, input).write == DropRefreshOf(p.redeeming.grantId, p.redeeming.at)
    ensures p.Revoking? && p.revoking.CutRefresh? ==>
              Act(cfg, db, p, input).write == DropRefresh(p.revoking.hash, input.now)
    ensures p.Revoking? && p.revoking.CutRefreshAccess? ==>
              Act(cfg, db, p, input).write == DropAccessOf(p.revoking.grantId, p.revoking.at)
  {
    hide PushStep, AuthorizeStep, ViewStep, ConsentStep, IssueStep, RefreshStep, MintStep, Lawful;
  }

  lemma CutLeavesNone(cfg: Config, worlds: seq<World>, events: seq<Event>, c: nat, g: string, j: string)
    requires Run(cfg, worlds, events) && CutsAccess(worlds, events, c, g)
    requires j in worlds[c + 1].db.access && worlds[c + 1].db.access[j].grantId == g
    ensures worlds[c + 1].db.access[j].revokedAt.Some?
  {
    hide Act, Legal, After;
    RunStep(cfg, worlds, events, c);
    StepDoes(cfg, worlds[c], events[c]);
    CutWrites(cfg, worlds[c].db, worlds[c].procs[events[c].tid], events[c].input);
  }

  /** Event `c` is the cascade's `revokeByGrant` on the refresh tokens. */
  ghost predicate CutsRefresh(worlds: seq<World>, events: seq<Event>, c: nat, g: string) {
    && c < |events| && c < |worlds| && events[c].Step? && events[c].tid in worlds[c].procs
    && var p := worlds[c].procs[events[c].tid];
    && p.Redeeming? && p.redeeming.CascadeRefresh? && p.redeeming.grantId == g
  }

  lemma CutLeavesNoRefresh(cfg: Config, worlds: seq<World>, events: seq<Event>, c: nat, g: string, h: string)
    requires Run(cfg, worlds, events) && CutsRefresh(worlds, events, c, g)
    requires h in worlds[c + 1].db.refresh && worlds[c + 1].db.refresh[h].grantId == g
    ensures worlds[c + 1].db.refresh[h].revokedAt.Some?
  {
    hide Act, Legal, After;
    RunStep(cfg, worlds, events, c);
    StepDoes(cfg, worlds[c], events[c]);
    CutWrites(cfg, worlds[c].db, worlds[c].procs[events[c].tid], events[c].input);
  }

  /** Event `s` inserts the refresh token `h`, of grant `g`, for request `u`. */
  ghost predicate InsertsRefresh(cfg: Config, worlds: seq<World>, events: seq<Event>, s: nat, u: nat, h: string,
                                 g: string) {
    && s < |events| && s < |worlds| && events[s].Step? && events[s].tid == u && cfg.sha(events[s].input.random) == h
    && u in worlds[s].procs
    && var p := worlds[s].procs[u];
    && p.Minting? && p.minting.InsertRefresh? && p.minting.earned.grantId == g
  }

  lemma RefreshComesFrom(cfg: Config, w: World, e: Event, h: string)
    requires Legal(cfg, w, e) && h !in w.db.refresh && h in After(cfg, w, e).db.refresh
    ensures e.Step? && e.tid in w.procs && cfg.sha(e.input.random) == h
    ensures var p := w.procs[e.tid];
            && p.Minting? && p.minting.InsertRefresh?
            && After(cfg, w, e).db.refresh[h].grantId == p.minting.earned.grantId
  {
    hide PushStep, AuthorizeStep, ViewStep, ConsentStep, IssueStep, RedeemStep, RefreshStep, RevokeStep, Fresh, Entry,
         Known, Apply, Commit;
    if e.Step? {
      var f := Act(cfg, w.db, w.procs[e.tid], e.input);
      CommitParts(w, e.tid, f);
      KeysAfter(w.db, f.write);
      PutRows(w.db, f.write);
    } else {
      SameAccess(cfg, w, e);
    }
  }

  lemma {:induction false} RefreshInserted(cfg: Config, worlds: seq<World>, events: seq<Event>, a: nat, m: nat,
                                           h: string, g: string)
    returns (s: nat, u: nat)
    requires Run(cfg, worlds, events) && a <= m < |worlds|
    requires h !in worlds[a].db.refresh && h in worlds[m].db.refresh && worlds[m].db.refresh[h].grantId == g
    ensures a <= s < m && InsertsRefresh(cfg, worlds, events, s, u, h, g)
    decreases m
  {
    hide Run, Legal, After, Grows, Initial;
    assert a < m;
    RunStep(cfg, worlds, events, m - 1);
    if h in worlds[m - 1].db.refresh {
      Descent.RunGrows(cfg, worlds, events, m - 1, m);
      AccessGrants(worlds[m - 1], worlds[m]);
      s, u := RefreshInserted(cfg, worlds, events, a, m - 1, h, g);
    } else {
      RefreshComesFrom(cfg, worlds[m - 1], events[m - 1], h);
      s, u := m - 1, events[m - 1].tid;
    }
  }

  /** A token still live after the cut was inserted after it. */
  lemma LiveIsLate(cfg: Config, worlds: seq<World>, events: seq<Event>, c: nat, m: nat, g: string, j: string)
    returns (s: nat, u: nat)
    requires Run(cfg, worlds, events) && CutsAccess(worlds, events, c, g) && c < m < |worlds|
    requires j in worlds[m].db.access && worlds[m].db.access[j].grantId == g && worlds[m].db.access[j].revokedAt.None?
    ensures c < s < m && InsertsAccess(worlds, events, s, u, j, g)
  {
    hide Run, Evolves;
    Descent.RunGrows(cfg, worlds, events, c + 1, m);
    if j in worlds[c + 1].db.access {
      AccessMarks(worlds[c + 1], worlds[m], j);
      CutLeavesNone(cfg, worlds, events, c, g, j);
    }
    s, u := AccessInserted(cfg, worlds, events, c + 1, m, j, g);
  }

  lemma AccessMarks(w: World, w': World, j: string)
    requires Grows(w, w') && j in w.db.access
    ensures j in w'.db.access && w'.db.access[j].grantId == w.db.access[j].grantId
    ensures w.db.access[j].revokedAt.Some? ==> w'.db.access[j].revokedAt.Some?
  {
  }

  /** Event `r` is the `grants.revoke` of a replay cascade. */
  ghost predicate RevokesGrant(worlds: seq<World>, events: seq<Event>, r: nat, g: string) {
    && r < |events| && r < |worlds| && events[r].Step? && events[r].tid in worlds[r].procs
    && var p := worlds[r].procs[events[r].tid];
    && p.Redeeming? && p.redeeming.CascadeGrant? && p.redeeming.grantId == g
  }

  lemma CascadeHasGrant(cfg: Config, worlds: seq<World>, events: seq<Event>, r: nat, g: string)
    requires Run(cfg, worlds, events) && RevokesGrant(worlds, events, r, g)
    ensures g in worlds[r].db.grants
  {
    hide Run, RowsOk, ClaimsOk, OneGrantPerRequest, OneCodePerGrant, OneRefreshPerGrant;
    RunInv(cfg, worlds, events, r);
    assert Holds(cfg, worlds[r], worlds[r].procs[events[r].tid]);
  }

  lemma GrantRevoked(cfg: Config, worlds: seq<World>, events: seq<Event>, r: nat, k: nat, g: string)
    requires Run(cfg, worlds, events) && RevokesGrant(worlds, events, r, g) && r < k < |worlds|
    ensures g in worlds[k].db.grants && worlds[k].db.grants[g].revokedAt.Some?
  {
    hide Run, Act, Legal, After;
    CascadeHasGrant(cfg, worlds, events, r, g);
    RunStep(cfg, worlds, events, r);
    StepDoes(cfg, worlds[r], events[r]);
    CutWrites(cfg, worlds[r].db, worlds[r].procs[events[r].tid], events[r].input);
    Descent.RunGrows(cfg, worlds, events, r + 1, k);
  }

  /** Any interleaving: whatever access token of the grant is live after a cascade has
      cut its access tokens was inserted by a request whose `grants.find` step came
      before the cascade's `grants.revoke` step. */
  lemma CascadeMissesOnlyEarlier(cfg: Config, worlds: seq<World>, events: seq<Event>, r: nat, c: nat, m: nat,
                                 g: string, j: string)
    returns (s: nat, u: nat, k: nat)
    requires Run(cfg, worlds, events) && r < c < m < |worlds|
    requires RevokesGrant(worlds, events, r, g) && CutsAccess(worlds, events, c, g)
    requires j in worlds[m].db.access && worlds[m].db.access[j].grantId == g && worlds[m].db.access[j].revokedAt.None?
    ensures c < s < m && InsertsAccess(worlds, events, s, u, j, g)
    ensures k < r && FindsGrant(worlds, events, k, u, g)
  {
    hide Run;
    s, u := LiveIsLate(cfg, worlds, events, c, m, g, j);
    k := MinterFoundGrant(cfg, worlds, events, s, u, g);
    if r < k {
      GrantRevoked(cfg, worlds, events, r, k, g);
    }
  }

  /** And so was whatever refresh token of the grant is live after the cascade has
      cut its refresh tokens, its last step. */
  lemma CascadeMissesOnlyEarlierRefresh(cfg: Config, worlds: seq<World>, events: seq<Event>, r: nat, c: nat, m: nat,
                                        g: string, h: string)
    returns (s: nat, u: nat, k: nat)
    requires Run(cfg, worlds, events) && r < c < m < |worlds|
    requires RevokesGrant(worlds, events, r, g) && CutsRefresh(worlds, events, c, g)
    requires h in worlds[m].db.refresh && worlds[m].db.refresh[h].grantId == g
    requires worlds[m].db.refresh[h].revokedAt.None?
    ensures c < s < m && InsertsRefresh(cfg, worlds, events, s, u, h, g)
    ensures k < r && FindsGrant(worlds, events, k, u, g)
  {
    hide Run, Evolves;
    Descent.RunGrows(cfg, worlds, events, c + 1, m);
    if h in worlds[c + 1].db.refresh {
      RefreshMarks(worlds[c + 1], worlds[m], h);
      CutLeavesNoRefresh(cfg, worlds, events, c, g, h);
    }
    s, u := RefreshInserted(cfg, worlds, events, c + 1, m, h, g);
    k := MinterFoundGrant(cfg, worlds, events, s, u, g);
    if r < k {
      GrantRevoked(cfg, worlds, events, r, k, g);
    }
  }

  lemma RefreshMarks(w: World, w': World, h: string)
    requires Grows(w, w') && h in w.db.refresh
    ensures h in w'.db.refresh && w'.db.refresh[h].grantId == w.db.refresh[h].grantId
    ensures w.db.refresh[h].revokedAt.Some? ==> w'.db.refresh[h].revokedAt.Some?
  {
  }

  /** Event `r` is the `refreshTokens.revoke` of a revocation of the token `h` of `g`. */
  ghost predicate RevokesRefresh(worlds: seq<World>, events: seq<Event>, r: nat, h: string, g: string) {
    && r < |events| && r < |worlds| && events[r].Step? && events[r].tid in worlds[r].procs
    && var p := worlds[r].procs[events[r].tid];
    && p.Revoking? && p.revoking.CutRefresh? && p.revoking.hash == h && p.revoking.grantId == g
  }

  lemma RevokesOwnGrant(cfg: Config, worlds: seq<World>, events: seq<Event>, r: nat, h: string, g: string)
    requires Run(cfg, worlds, events) && RevokesRefresh(worlds, events, r, h, g)
    ensures h in worlds[r].db.refresh && worlds[r].db.refresh[h].grantId == g
  {
    hide Run, RowsOk, ClaimsOk, OneGrantPerRequest, OneCodePerGrant, OneRefreshPerGrant;
    RunInv(cfg, worlds, events, r);
    assert Holds(cfg, worlds[r], worlds[r].procs[events[r].tid]);
  }

  lemma RefreshRevoked(cfg: Config, worlds: seq<World>, events: seq<Event>, r: nat, k: nat, h: string, g: string)
    requires Run(cfg, worlds, events) && RevokesRefresh(worlds, events, r, h, g) && r < k < |worlds|
    ensures h in worlds[k].db.refresh && worlds[k].db.refresh[h].revokedAt.Some?
  {
    hide Run, Legal, After, Act;
    RevokesOwnGrant(cfg, worlds, events, r, h, g);
    RunStep(cfg, worlds, events, r);
    StepDoes(cfg, worlds[r], events[r]);
    CutWrites(cfg, worlds[r].db, worlds[r].procs[events[r].tid], events[r].input);
    Descent.RunGrows(cfg, worlds, events, r + 1, k);
  }

  /** No refresh token of the grant survives the revocation: it was the only one. */
  lemma RevocationEndsRefresh(cfg: Config, worlds: seq<World>, events: seq<Event>, r: nat, m: nat,
                              h: string, g: string, other: string)
    requires Run(cfg, worlds, events) && r < m < |worlds| && RevokesRefresh(worlds, events, r, h, g)
    requires other in worlds[m].db.refresh && worlds[m].db.refresh[other].grantId == g
    ensures other == h && worlds[m].db.refresh[other].revokedAt.Some?
  {
    hide Run, RowsOk, AllHold, ClaimsOk, OneGrantPerRequest, OneCodePerGrant, Evolves;
    RunInv(cfg, worlds, events, m);
    RefreshRevoked(cfg, worlds, events, r, m, h, g);
    RevokesOwnGrant(cfg, worlds, events, r, h, g);
    Descent.RunGrows(cfg, worlds, events, r, m);
    AccessGrants(worlds[r], worlds[m]);
  }

  /** The mint of a request about to insert a token of a grant whose refresh token
      exists: that very refresh token. */
  lemma OnlyByRefresh(cfg: Config, w: World, u: nat, g: string, h: string)
    requires Inv(cfg, w) && h in w.db.refresh && w.db.refresh[h].grantId == g
    requires u in w.procs && w.procs[u].Minting? && w.procs[u].minting.earned.grantId == g
    ensures w.procs[u].minting.earned.mint.FromRefresh? && w.procs[u].minting.earned.mint.refreshHash == h
  {
    hide RowsOk, OneGrantPerRequest, OneCodePerGrant, Redeemable;
    assert Holds(cfg, w, w.procs[u]) && Unspent(w, ClaimOf(w.procs[u]));
  }

  /** Any interleaving: whatever token of the grant is live after the revocation of
      its refresh token was inserted by a refresh request that had found the
      refresh token unrevoked before the revocation. */
  lemma RevocationMissesOnlyEarlier(cfg: Config, worlds: seq<World>, events: seq<Event>, r: nat, c: nat, m: nat,
                                    h: string, g: string, j: string)
    returns (s: nat, u: nat, k: nat)
    requires Run(cfg, worlds, events) && r < c < m < |worlds|
    requires RevokesRefresh(worlds, events, r, h, g) && CutsAccess(worlds, events, c, g)
    requires j in worlds[m].db.access && worlds[m].db.access[j].grantId == g && worlds[m].db.access[j].revokedAt.None?
    ensures c < s < m && InsertsAccess(worlds, events, s, u, j, g)
    ensures k < r && FindsRefresh(cfg, worlds, events, k, u, h)
  {
    hide Run, Inv, Evolves;
    s, u := LiveIsLate(cfg, worlds, events, c, m, g, j);
    RunInv(cfg, worlds, events, s);
    RevokesOwnGrant(cfg, worlds, events, r, h, g);
    Descent.RunGrows(cfg, worlds, events, r, s);
    AccessGrants(worlds[r], worlds[s]);
    OnlyByRefresh(cfg, worlds[s], u, g, h);
    k := RefresherFoundToken(cfg, worlds, events, s, u, h);
    if r < k {
      RefreshRevoked(cfg, worlds, events, r, k, h, g);
    }
  }

  // ----------------------------------------------------------- request grain

  /** Each request ends before the next one starts. */
  ghost predicate Serial(worlds: seq<World>, events: seq<Event>) {
    forall i | 0 <= i < |events| && i < |worlds| && events[i].Start? ::
      forall t | t in worlds[i].procs :: worlds[i].procs[t].Done?
  }

  ghost predicate Alone(w: World, t: nat) { forall u | u in w.procs && u != t :: w.procs[u].Done? }

  /** While one request is under way in a serial run, no other is. */
  lemma {:induction false} ServedAlone(cfg: Config, worlds: seq<World>, events: seq<Event>, i: nat, t: nat)
    requires Run(cfg, worlds, events) && Serial(worlds, events) && i < |worlds|
    requires t in worlds[i].procs && !worlds[i].procs[t].Done?
    ensures Alone(worlds[i], t)
  {
    hide Act, Fresh, Entry, Commit, Apply;
    NotAtStart(cfg, worlds, events, i, t);
    var w, e := worlds[i - 1], events[i - 1];
    assert Legal(cfg, w, e) && worlds[i] == After(cfg, w, e);
    if e.Step? {
      CommitParts(w, e.tid, Act(cfg, w.db, w.procs[e.tid], e.input));
    }
    if t in w.procs && !w.procs[t].Done? {
      ServedAlone(cfg, worlds, events, i - 1, t);
    }
  }

  /** How a grant ends: its code is presented again, or its refresh token is revoked. */
  datatype End = Replay | Revocation

  /** Where a request that ends `g` can be, and what it has already done. */
  ghost predicate OnTrack(cfg: Config, db: Db, p: Proc, end: End, g: string) {
    && g in db.grants
    && match p
       case Redeeming(r) => end.Replay? && TrackReplay(cfg, db, r, g)
       case Revoking(r) => end.Revocation? && TrackRevocation(cfg, db, r, g)
       case Done(o) => o == Crashed || (Ended(db, end, g) && AllRevoked(db, g))
       case _ => false
  }

  ghost predicate Ended(db: Db, end: End, g: string) {
    && g in db.grants
    && match end
       case Replay => db.grants[g].revokedAt.Some?
       case Revocation => exists h :: h in db.refresh && db.refresh[h].grantId == g && db.refresh[h].revokedAt.Some?
  }

  ghost predicate TrackReplay(cfg: Config, db: Db, r: Redeeming, g: string) {
    match r
    case Present(_, _, code, _, _) => RedeemedCode(db, g, cfg.sha(code))
    case FindGrant(_, _, _) => false
    case CascadeGrant(x, _) => x == g
    case CascadeAccess(x, _) => x == g && Ended(db, Replay, g)
    case CascadeRefresh(x, _) =>
      x == g && Ended(db, Replay, g)
      && forall j | j in db.access && db.access[j].grantId == g :: db.access[j].revokedAt.Some?
  }

  ghost predicate TrackRevocation(cfg: Config, db: Db, r: Revoking, g: string) {
    match r
    case Resolve(client, token, jti, finders) =>
      && jti.None? && RefreshFinder in finders
      && cfg.sha(token) in db.refresh
      && db.refresh[cfg.sha(token)].grantId == g && db.refresh[cfg.sha(token)].clientId == client.clientId
    case CutRefresh(h, x) => x == g && h in db.refresh && db.refresh[h].grantId == g
    case CutRefreshAccess(h, x, _) =>
      x == g && h in db.refresh && db.refresh[h].grantId == g && db.refresh[h].revokedAt.Some?
    case CutAccess(_) => false
  }

  lemma ReplayTrackStep(cfg: Config, db: Db, r: Redeeming, g: string, input: Input)
    requires g in db.grants && TrackReplay(cfg, db, r, g)
    ensures var f := RedeemStep(cfg, db, r, input); OnTrack(cfg, Apply(db, f.write), f.next, Replay, g)
  {
  }

  lemma RevocationTrackStep(cfg: Config, db: Db, r: Revoking, g: string, input: Input)
    requires g in db.grants && TrackRevocation(cfg, db, r, g) && OneRefreshPerGrant(db)
    ensures var f := RevokeStep(cfg, db, r, input);
            OnTrack(cfg, Apply(db, f.write), f.next, Revocation, g) && Apply(db, f.write).grants == db.grants
  {
  }

  /** The storage as far as a grant's end depends on it. */
  lemma TrackSame(cfg: Config, db: Db, db': Db, p: Proc, end: End, g: string)
    requires OnTrack(cfg, db, p, end, g) && db' == db.(clients := db'.clients)
    ensures OnTrack(cfg, db', p, end, g)
  {
  }

  /** One event of a serial run, while the ending request is under way. */
  lemma TrackKept(cfg: Config, w: World, e: Event, t: nat, end: End, g: string)
    requires Inv(cfg, w) && Legal(cfg, w, e) && !e.Start? && t in w.procs && !w.procs[t].Done? && Alone(w, t)
    requires OnTrack(cfg, w.db, w.procs[t], end, g)
    ensures var w' := After(cfg, w, e);
            && t in w'.procs && OnTrack(cfg, w'.db, w'.procs[t], end, g) && Alone(w', t)
            && (end.Revocation? ==> w'.db.grants == w.db.grants)
  {
    hide Fresh, Commit, Apply, RowsOk, AllHold, ClaimsOk, OneGrantPerRequest, OneCodePerGrant, TrackReplay,
         TrackRevocation, AllRevoked, RedeemStep, RevokeStep, PushStep, AuthorizeStep, ViewStep, ConsentStep, IssueStep,
         RefreshStep, MintStep, Lawful;
    match e
    case Step(u, input) =>
      var f := Act(cfg, w.db, w.procs[u], input);
      CommitParts(w, u, f);
      if end.Replay? {
        ReplayTrackStep(cfg, w.db, w.procs[u].redeeming, g, input);
      } else {
        RevocationTrackStep(cfg, w.db, w.procs[u].revoking, g, input);
      }
    case Crash(u) =>
    case Register(c) => RegisterTrack(cfg, w, c, t, end, g);
  }

  lemma RegisterTrack(cfg: Config, w: World, c: Client, t: nat, end: End, g: string)
    requires t in w.procs && OnTrack(cfg, w.db, w.procs[t], end, g)
    ensures OnTrack(cfg, Apply(w.db, PutClient(c)), w.procs[t], end, g)
    ensures Apply(w.db, PutClient(c)).grants == w.db.grants
  {
    TrackSame(cfg, w.db, Apply(w.db, PutClient(c)), w.procs[t], end, g);
  }

  lemma EndedIsClosed(db: Db, end: End, g: string)
    requires Ended(db, end, g)
    ensures Closed(db, g)
  {
  }

  /** From the first world in which the ending request is done, the grant is sealed. */
  lemma {:induction false} TrackRun(cfg: Config, worlds: seq<World>, events: seq<Event>, i: nat, k: nat, t: nat,
                                        end: End, g: string)
    requires Run(cfg, worlds, events) && Serial(worlds, events) && i <= k < |worlds|
    requires t in worlds[i].procs && !worlds[i].procs[t].Done? && OnTrack(cfg, worlds[i].db, worlds[i].procs[t], end, g)
    ensures t in worlds[k].procs
    ensures !worlds[k].procs[t].Done? ==>
              OnTrack(cfg, worlds[k].db, worlds[k].procs[t], end, g) && Alone(worlds[k], t)
              && (end.Revocation? ==> worlds[k].db.grants == worlds[i].db.grants)
    ensures worlds[k].procs[t].Done? && worlds[k].procs[t] != Done(Crashed) ==>
              Sealed(cfg, worlds[k], g) && Ended(worlds[k].db, end, g)
    decreases k
  {
    hide Run, Legal, After, OnTrack, Inv, Closed, AllRevoked, Ended, Serial, Able;
    if k == i {
      ServedAlone(cfg, worlds, events, i, t);
    } else {
      TrackRun(cfg, worlds, events, i, k - 1, t, end, g);
      RunInv(cfg, worlds, events, k - 1);
      RunInv(cfg, worlds, events, k);
      RunStep(cfg, worlds, events, k - 1);
      var w, e := worlds[k - 1], events[k - 1];
      if w.procs[t].Done? {
        DoneStays(cfg, w, e, t);
        if w.procs[t] != Done(Crashed) {
          SealedKept(cfg, w, e, g);
          Descent.RunGrows(cfg, worlds, events, k - 1, k);
          EndedKept(w.db, worlds[k].db, end, g);
        }
      } else {
        NoStartBeside(cfg, worlds, events, k - 1, t);
        TrackKept(cfg, w, e, t, end, g);
        TrackDone(cfg, worlds[k], t, end, g);
      }
    }
  }

  lemma RunStep(cfg: Config, worlds: seq<World>, events: seq<Event>, i: nat)
    requires Run(cfg, worlds, events) && i + 1 < |worlds|
    ensures i < |events| && Legal(cfg, worlds[i], events[i]) && worlds[i + 1] == After(cfg, worlds[i], events[i])
  {
    hide Legal, After, Initial;
  }

  lemma DoneStays(cfg: Config, w: World, e: Event, t: nat)
    requires Legal(cfg, w, e) && t in w.procs && w.procs[t].Done?
    ensures t in After(cfg, w, e).procs && After(cfg, w, e).procs[t] == w.procs[t]
  {
    hide Act, Fresh, Entry, Commit, Apply;
    if e.Step? {
      CommitParts(w, e.tid, Act(cfg, w.db, w.procs[e.tid], e.input));
    }
  }

  lemma EndedKept(db: Db, db': Db, end: End, g: string)
    requires Ended(db, end, g) && Evolves(db, db')
    ensures Ended(db', end, g)
  {
  }

  lemma NoStartBeside(cfg: Config, worlds: seq<World>, events: seq<Event>, i: nat, t: nat)
    requires Serial(worlds, events) && i < |events| && i < |worlds| && t in worlds[i].procs && !worlds[i].procs[t].Done?
    ensures !events[i].Start?
  {
  }

  lemma TrackDone(cfg: Config, w: World, t: nat, end: End, g: string)
    requires Inv(cfg, w) && t in w.procs && OnTrack(cfg, w.db, w.procs[t], end, g) && Alone(w, t)
    ensures w.procs[t].Done? && w.procs[t] != Done(Crashed) ==> Sealed(cfg, w, g) && Ended(w.db, end, g)
  {
    hide Inv, AllRevoked, TrackReplay, TrackRevocation, Ended, Closed;
    if w.procs[t].Done? && w.procs[t] != Done(Crashed) {
      EndedIsClosed(w.db, end, g);
    }
  }

  /** Requests served one at a time: once a second presentation of a code has been
      answered, its grant is revoked with every token of it, and at no later moment
      is a token of the grant live or newly minted. */
  lemma ReplayIsFinal(cfg: Config, worlds: seq<World>, events: seq<Event>, i: nat, k: nat, m: nat, t: nat, hash: string)
    requires Run(cfg, worlds, events) && Serial(worlds, events) && i <= k <= m < |worlds|
    requires hash in worlds[i].db.codes && worlds[i].db.codes[hash].consumedAt.Some?
    requires t in worlds[i].procs && worlds[i].procs[t].Redeeming? && worlds[i].procs[t].redeeming.Present?
    requires cfg.sha(worlds[i].procs[t].redeeming.code) == hash
    requires t in worlds[k].procs ==> worlds[k].procs[t].Done? && worlds[k].procs[t] != Done(Crashed)
    ensures var g := worlds[i].db.codes[hash].grantId;
            && g in worlds[m].db.grants && worlds[m].db.grants[g].revokedAt.Some?
            && AllRevoked(worlds[m].db, g) && NoneMinted(worlds[k].db, worlds[m].db, g)
  {
    hide Run, Inv, Sealed, AllRevoked, NoneMinted, Serial;
    var g := worlds[i].db.codes[hash].grantId;
    RunInv(cfg, worlds, events, i);
    CodeHasGrant(cfg, worlds[i], hash);
    TrackRun(cfg, worlds, events, i, k, t, Replay, g);
    SealedTail(cfg, worlds, events, k, m, Replay, g);
  }

  /** Likewise once the client has revoked the refresh token of a grant, although no
      step of the revocation touches the grant's own row (RevocationTrackStep). */
  lemma RevocationIsFinal(cfg: Config, worlds: seq<World>, events: seq<Event>, i: nat, k: nat, m: nat, t: nat,
                          hash: string)
    requires Run(cfg, worlds, events) && Serial(worlds, events) && i <= k <= m < |worlds|
    requires t in worlds[i].procs && worlds[i].procs[t].Revoking? && worlds[i].procs[t].revoking.Resolve?
    requires var r := worlds[i].procs[t].revoking;
             && r.tokenJti.None? && RefreshFinder in r.finders && cfg.sha(r.token) == hash
             && hash in worlds[i].db.refresh && worlds[i].db.refresh[hash].clientId == r.client.clientId
    requires t in worlds[k].procs ==> worlds[k].procs[t].Done? && worlds[k].procs[t] != Done(Crashed)
    ensures var g := worlds[i].db.refresh[hash].grantId;
            AllRevoked(worlds[m].db, g) && NoneMinted(worlds[k].db, worlds[m].db, g)
  {
    hide Run, Inv, Sealed, AllRevoked, NoneMinted, Serial;
    var g := worlds[i].db.refresh[hash].grantId;
    RunInv(cfg, worlds, events, i);
    RefreshHasGrant(cfg, worlds[i], hash);
    TrackRun(cfg, worlds, events, i, k, t, Revocation, g);
    SealedTail(cfg, worlds, events, k, m, Revocation, g);
  }

  lemma CodeHasGrant(cfg: Config, w: World, h: string)
    requires Inv(cfg, w) && h in w.db.codes
    ensures w.db.codes[h].grantId in w.db.grants
  {
    hide ClientsOk, ParRowsOk, GrantsOk, AccessesOk, RefreshesOk, AllHold, ClaimsOk;
    assert CodeOk(w, h);
  }

  lemma RefreshHasGrant(cfg: Config, w: World, h: string)
    requires Inv(cfg, w) && h in w.db.refresh
    ensures w.db.refresh[h].grantId in w.db.grants
  {
    hide ClientsOk, ParRowsOk, GrantsOk, CodesOk, AccessesOk, AllHold, ClaimsOk;
    assert RefreshOk(w, h);
  }

  lemma SealedTail(cfg: Config, worlds: seq<World>, events: seq<Event>, k: nat, m: nat, end: End, g: string)
    requires Run(cfg, worlds, events) && k <= m < |worlds| && Sealed(cfg, worlds[k], g) && Ended(worlds[k].db, end, g)
    ensures AllRevoked(worlds[m].db, g) && NoneMinted(worlds[k].db, worlds[m].db, g) && Ended(worlds[m].db, end, g)
  {
    hide Run, Inv, Closed, AllRevoked, NoneAble, Ended, NoneMinted, Evolves;
    SealedBetween(cfg, worlds, events, k, m, g);
    Descent.RunGrows(cfg, worlds, events, k, m);
    EndedKept(worlds[k].db, worlds[m].db, end, g);
  }

  /** Sealed once, sealed at every later moment of the run. */
  lemma SealedBetween(cfg: Config, worlds: seq<World>, events: seq<Event>, k: nat, m: nat, g: string)
    requires Run(cfg, worlds, events) && k <= m < |worlds| && Sealed(cfg, worlds[k], g)
    ensures Sealed(cfg, worlds[m], g) && NoneMinted(worlds[k].db, worlds[m].db, g)
  {
    hide Sealed, Legal, After, Initial, NoneMinted;
    var later, rest := worlds[k..], events[k..];
    forall n | 0 <= n < |rest| ensures Legal(cfg, later[n], rest[n]) && later[n + 1] == After(cfg, later[n], rest[n]) {
      RunStep(cfg, worlds, events, k + n);
    }
    assert RunFrom(cfg, worlds[k], later, rest);
    SealedForever(cfg, worlds[k], later, rest, g, m - k);
    assert later[m - k] == worlds[m];
  }
}
