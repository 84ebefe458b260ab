/** Behind every grant of every run: a policy decision, and the user's consent to this
    very request, or prompt=none on a session fresh enough for it. */
module Approval {
  import opened Base
  import opened AuthzRequest
  import opened Tables
  import opened Protocol
  import opened Provenance
  import Descent
  import GrantEnd
  import Sessions
  import Text

  /** Where a request can be without having taken a step. */
  predicate EntryPlace(p: Proc) {
    match p
    case Push(_, _, _) => true
    case Authorizing(a) => a.Enter?
    case Viewing(v) => v.Open?
    case Consenting(c) => c.Submit?
    case Redeeming(r) => r.Present?
    case Refreshing(r) => r.PresentRefresh?
    case Revoking(r) => r.Resolve?
    case _ => false
  }

  lemma EntersThere(db: Db, p: Proc)
    requires Entry(db, p)
    ensures EntryPlace(p)
  {
    hide Known;
  }

  /** Event `k` is a step of `u`, from the place `p` that it was in. */
  ghost predicate Steps(worlds: seq<World>, events: seq<Event>, k: nat, u: nat, p: Proc) {
    && k < |events| && k < |worlds| && events[k].Step? && events[k].tid == u
    && u in worlds[k].procs && worlds[k].procs[u] == p && !p.Done?
  }

  /** A request is where it is by an earlier step of its own. */
  lemma {:induction false} ArrivedBy(cfg: Config, worlds: seq<World>, events: seq<Event>, s: nat, u: nat)
    returns (k: nat, p: Proc)
    requires Run(cfg, worlds, events) && s < |worlds| && u in worlds[s].procs
    requires !worlds[s].procs[u].Done? && !EntryPlace(worlds[s].procs[u])
    ensures k < s && Steps(worlds, events, k, u, p)
    ensures worlds[s].procs[u] == Act(cfg, worlds[k].db, p, events[k].input).next
  {
    hide Run, Act, Entry, EntryPlace;
    GrantEnd.NotAtStart(cfg, worlds, events, s, u);
    GrantEnd.OneStepBack(cfg, worlds, events, s, u);
    var w, e := worlds[s - 1], events[s - 1];
    if u in w.procs && worlds[s].procs[u] == w.procs[u] {
      k, p := ArrivedBy(cfg, worlds, events, s - 1, u);
    } else if e.Start? {
      EntersThere(w.db, e.request);
    } else {
      k, p := s - 1, w.procs[u];
    }
  }

  // ---------------------------------------------------- one step of the way

  lemma GrantedBy(cfg: Config, db: Db, p: Proc, input: Input)
    requires !p.Done? && Act(cfg, db, p, input).note.Granted?
    ensures p == Issuing(InsertGrant(Act(cfg, db, p, input).note.ask))
  {
    hide PushStep, AuthorizeStep, ViewStep, ConsentStep, RedeemStep, RefreshStep, MintStep, RevokeStep;
    assert Lawful(p, Act(cfg, db, p, input));
  }

  lemma IssuingComesFrom(cfg: Config, db: Db, p: Proc, input: Input, ask: Ask)
    requires !p.Done?
    ensures var next := Act(cfg, db, p, input).next;
            && (next == Issuing(InsertGrant(ask)) ==> p == Issuing(Take(ask))
                                                      && PeekPar(db.par, ask.uri, input.now).Some?)
            && (next == Issuing(Take(ask)) ==> p == Issuing(Decide(ask)) && input.allowed)
            && (next == Issuing(Decide(ask)) ==> Approves(db, p, input, ask))
  {
    hide Validate, Lawful, PromptNone, NeedsReauthentication, AsksNone, FreshFor;
    if p.Authorizing? {
      if p.authorizing.Reload? {
        FreshExactly(p.authorizing.session, ask.request, FloorSec(input.now));
      }
      AsksNoneExactly(ask.request);
    }
    match p
    case Push(client, body, headerJkt) =>
    case Redeeming(r) =>
    case _ =>
  }

  /** The user approved this request on an open interaction, or nobody was to be
      asked and the session is one that need not be renewed for it. */
  ghost predicate Approves(db: Db, p: Proc, input: Input, ask: Ask) {
    || (p.Consenting? && p.consenting.Close? && p.consenting.ask == ask && p.consenting.approved
        && FindInteraction(db.interactions, p.consenting.id, input.now).Some?)
    || (p.Authorizing? && p.authorizing.Reload? && p.authorizing.uri == ask.uri && AsksNone(ask.request)
        && FreshFor(p.authorizing.session, ask.request, FloorSec(input.now))
        && p.authorizing.session.Some? && ask.user == UserOf(p.authorizing.session.value))
  }

  /** The consent form was submitted in the session of the subject whom the parked
      interaction was bound to when it was shown. */
  lemma CloseComesFrom(cfg: Config, db: Db, p: Proc, input: Input, id: string, ask: Ask, approved: bool)
    requires !p.Done? && Act(cfg, db, p, input).next == Consenting(Close(id, ask, approved))
    ensures p.Consenting? && p.consenting.Recheck? && p.consenting.id == id && p.consenting.approved == approved
    ensures p.consenting.row.subject == Some(ask.user.sub) && p.consenting.row.requestUri == ask.uri
    ensures ask.user == UserOf(p.consenting.signedIn)
  {
    hide Validate, Lawful, FreshFor, NeedsReauthentication, PromptNone;
    match p
    case Push(client, body, headerJkt) =>
    case Redeeming(r) =>
    case _ =>
  }

  lemma OriginFrom(cfg: Config, w: World, e: Event, g: string)
    requires Legal(cfg, w, e) && g in After(cfg, w, e).origins
    ensures (g in w.origins && After(cfg, w, e).origins[g] == w.origins[g])
            || (e.Step? && e.tid in w.procs && !w.procs[e.tid].Done?
                && var n := Act(cfg, w.db, w.procs[e.tid], e.input).note;
                   n == Granted(g, After(cfg, w, e).origins[g]))
  {
    hide Act, Fresh, Entry, Commit, Apply;
    if e.Step? {
      CommitParts(w, e.tid, Act(cfg, w.db, w.procs[e.tid], e.input));
    }
  }

  lemma {:induction false} GrantedAt(cfg: Config, worlds: seq<World>, events: seq<Event>, i: nat, g: string)
    returns (k: nat, u: nat)
    requires Run(cfg, worlds, events) && i < |worlds| && g in worlds[i].origins
    ensures k < i && Steps(worlds, events, k, u, Issuing(InsertGrant(worlds[i].origins[g])))
  {
    hide Act, Legal, After;
    assert i > 0;
    var w, e := worlds[i - 1], events[i - 1];
    OriginFrom(cfg, w, e, g);
    if g in w.origins && worlds[i].origins[g] == w.origins[g] {
      k, u := GrantedAt(cfg, worlds, events, i - 1, g);
    } else {
      GrantedBy(cfg, w.db, w.procs[e.tid], e.input);
      k, u := i - 1, e.tid;
    }
  }

  // ------------------------------------------------------------- the theorem

  /** For every grant of every run: one request `u` asked the policy decision point
      about exactly this request, was allowed, took the pushed request while it was
      good, and before that had the user's approval, or prompt=none on a fresh session. */
  lemma GrantIsAuthorised(cfg: Config, worlds: seq<World>, events: seq<Event>, i: nat, g: string)
    returns (u: nat, approved: nat, decided: nat, taken: nat, p: Proc)
    requires Run(cfg, worlds, events) && i < |worlds| && g in worlds[i].origins
    ensures approved < decided < taken < i
    ensures Steps(worlds, events, taken, u, Issuing(Take(worlds[i].origins[g])))
            && PeekPar(worlds[taken].db.par, worlds[i].origins[g].uri, events[taken].input.now).Some?
    ensures Steps(worlds, events, decided, u, Issuing(Decide(worlds[i].origins[g]))) && events[decided].input.allowed
    ensures Steps(worlds, events, approved, u, p)
            && Approves(worlds[approved].db, p, events[approved].input, worlds[i].origins[g])
  {
    hide Run, Act, Approves;
    var ask := worlds[i].origins[g];
    var k;
    k, u := GrantedAt(cfg, worlds, events, i, g);
    var q;
    taken, q := ArrivedBy(cfg, worlds, events, k, u);
    IssuingComesFrom(cfg, worlds[taken].db, q, events[taken].input, ask);
    decided, q := ArrivedBy(cfg, worlds, events, taken, u);
    IssuingComesFrom(cfg, worlds[decided].db, q, events[decided].input, ask);
    approved, p := ArrivedBy(cfg, worlds, events, decided, u);
    IssuingComesFrom(cfg, worlds[approved].db, p, events[approved].input, ask);
  }

  // ------------------------------------------------- what the user was shown

  /** The part of a request that decides on re-authentication does not depend on the
      client's registration. */
  lemma SameDialogue(body: Body, c: Client, d: Client, v: Validated, v': Validated)
    requires Validate(body, c) == Ok(v) && Validate(body, d) == Ok(v')
    ensures v.prompt == v'.prompt && v.maxAge == v'.maxAge
  {
    hide ValidateTarget, ValidateBindings, ValidateDialogue;
  }

  lemma SameReauthentication(session: Session, v: Validated, v': Validated, nowSec: int)
    requires v.prompt == v'.prompt && v.maxAge == v'.maxAge
    ensures FreshFor(session, v, nowSec) == FreshFor(session, v', nowSec)
  {
  }

  lemma BindsFrom(cfg: Config, db: Db, p: Proc, input: Input)
    requires !p.Done?
    ensures var write := Act(cfg, db, p, input).write;
            && (write.Bind? ==>
                  p.Viewing? && p.viewing.BindTo? && p.viewing.id == write.id && p.viewing.signedIn.sub == write.subject
                  && p.viewing.signedIn.authTime * 1000 == write.authTime)
            && (write.PutInteraction? ==> write.interaction.subject.None?)
  {
    hide Validate, Lawful, FreshFor, NeedsReauthentication, PromptNone, PushStep, RedeemStep, RefreshStep, MintStep,
         RevokeStep;
    match p
    case Push(client, body, headerJkt) => PushWrites(cfg, client, body, headerJkt, input);
    case Redeeming(r) => RedeemWrites(cfg, db, r, input);
    case Refreshing(r) => RedeemWritesNothing(cfg, db, r, input);
    case Minting(m) => MintWrites(cfg, m, input);
    case Revoking(r) => RevokeWrites(cfg, db, r, input);
    case _ =>
  }

  lemma PushWrites(cfg: Config, client: Client, body: Body, headerJkt: Option<string>, input: Input)
    ensures var w := PushStep(cfg, client, body, headerJkt, input).write; w.Nothing? || w.PutPar?
  {
    hide Validate, PushedParams;
  }

  lemma RedeemWrites(cfg: Config, db: Db, r: Redeeming, input: Input)
    ensures var w := RedeemStep(cfg, db, r, input).write; !w.Bind? && !w.PutInteraction?
  {
  }

  lemma RedeemWritesNothing(cfg: Config, db: Db, r: Refreshing, input: Input)
    ensures RefreshStep(cfg, db, r, input).write.Nothing?
  {
  }

  lemma MintWrites(cfg: Config, m: Minting, input: Input)
    ensures var w := MintStep(cfg, m, input).write; !w.Bind? && !w.PutInteraction?
  {
  }

  lemma RevokeWrites(cfg: Config, db: Db, r: Revoking, input: Input)
    ensures var w := RevokeStep(cfg, db, r, input).write; !w.Bind? && !w.PutInteraction?
  {
  }

  /** The subject that the row names, and when that subject signed in. */
  predicate BoundTo(rows: map<string, InteractionRow>, id: string, sub: string, authTime: Option<int>) {
    id in rows && rows[id].subject == Some(sub) && rows[id].authTime == authTime
  }

  lemma BoundFrom(db: Db, write: Write, id: string, sub: string, authTime: Option<int>)
    requires BoundTo(Apply(db, write).interactions, id, sub, authTime)
    requires write.PutInteraction? ==> write.interaction.subject.None?
    ensures BoundTo(db.interactions, id, sub, authTime)
            || (write.Bind? && write.id == id && write.subject == sub && authTime == Some(write.authTime))
  {
    if !write.PutInteraction? && !write.Bind? && !write.Complete? {
      assert Apply(db, write).interactions == db.interactions;
    }
  }

  /** An interaction has a subject by a step that bound it. */
  lemma {:induction false} BoundBy(cfg: Config, worlds: seq<World>, events: seq<Event>, i: nat, id: string, sub: string,
                                   authTime: Option<int>)
    returns (k: nat, u: nat, s: Sessions.LoginSession)
    requires Run(cfg, worlds, events) && i < |worlds| && BoundTo(worlds[i].db.interactions, id, sub, authTime)
    ensures k < i && Steps(worlds, events, k, u, Viewing(BindTo(id, s)))
    ensures s.sub == sub && authTime == Some(s.authTime * 1000)
  {
    assert i > 0;
    GrantEnd.RunStep(cfg, worlds, events, i - 1);
    var w, e := worlds[i - 1], events[i - 1];
    hide Run, Act, Legal, After, BoundTo, Fresh;
    if BoundTo(w.db.interactions, id, sub, authTime) {
      k, u, s := BoundBy(cfg, worlds, events, i - 1, id, sub, authTime);
    } else if e.Step? {
      GrantEnd.StepDoes(cfg, w, e);
      BindsFrom(cfg, w.db, w.procs[e.tid], e.input);
      BoundFrom(w.db, Act(cfg, w.db, w.procs[e.tid], e.input).write, id, sub, authTime);
      k, u, s := i - 1, e.tid, w.procs[e.tid].viewing.signedIn;
    } else {
      SameInteractions(cfg, w, e);
    }
  }

  lemma SameInteractions(cfg: Config, w: World, e: Event)
    requires Legal(cfg, w, e) && !e.Step?
    ensures After(cfg, w, e).db.interactions == w.db.interactions
  {
  }

  /** The steps of showing the consent form. */
  lemma ViewingComesFrom(cfg: Config, db: Db, p: Proc, input: Input)
    requires !p.Done? && Act(cfg, db, p, input).next.Viewing?
    ensures p.Viewing?
    ensures var v := Act(cfg, db, p, input).next.viewing;
            && !v.Open?
            && (v.PeekFor? ==>
                  p.viewing.Open? && p.viewing.id == v.id
                  && FindInteraction(db.interactions, v.id, input.now) == Some(v.row))
            && (v.CheckFor? ==>
                  && p.viewing.PeekFor? && p.viewing.id == v.id && p.viewing.row == v.row
                  && v.row.requestUri in db.par && db.par[v.row.requestUri].params == v.params)
            && (v.BindTo? ==>
                  && p.viewing.CheckFor? && p.viewing.id == v.id && p.viewing.session == Some(v.signedIn)
                  && p.viewing.row.clientId in db.clients
                  && var r := Validate(Lift(p.viewing.params), db.clients[p.viewing.row.clientId]);
                     r.Ok? && FreshFor(p.viewing.session, r.value, FloorSec(input.now)))
  {
    hide Validate, Lawful, PromptNone, NeedsReauthentication, FreshFor;
    if p.Viewing? && p.viewing.CheckFor? && p.viewing.row.clientId in db.clients {
      var r := Validate(Lift(p.viewing.params), db.clients[p.viewing.row.clientId]);
      if r.Ok? {
        FreshExactly(p.viewing.session, r.value, FloorSec(input.now));
      }
    }
    match p
    case Viewing(_) =>
    case Push(client, body, headerJkt) =>
    case Redeeming(r) =>
    case _ =>
  }

  /** Whenever an interaction is bound, the request behind it, as pushed, asked for no
      newer session than the one it was bound to, at the moment this was checked. */
  lemma BoundWhenFresh(
    cfg: Config, worlds: seq<World>, events: seq<Event>, k: nat, u: nat, id: string, s: Sessions.LoginSession)
    returns (checked: nat, uri: string, client: Client, v: Validated)
    requires Run(cfg, worlds, events) && Steps(worlds, events, k, u, Viewing(BindTo(id, s)))
    ensures checked < k && events[checked].Step? && events[checked].tid == u
    ensures id in worlds[checked].db.interactions && worlds[checked].db.interactions[id].requestUri == uri
    ensures uri in worlds[checked].db.par && Validate(Lift(worlds[checked].db.par[uri].params), client) == Ok(v)
    ensures FreshFor(Some(s), v, FloorSec(events[checked].input.now))
  {
    hide Run, Act, Validate, FreshFor, Evolves, Lift;
    var p, q, o;
    checked, p := ArrivedBy(cfg, worlds, events, k, u);
    ViewingComesFrom(cfg, worlds[checked].db, p, events[checked].input);
    var peeked;
    peeked, q := ArrivedBy(cfg, worlds, events, checked, u);
    ViewingComesFrom(cfg, worlds[peeked].db, q, events[peeked].input);
    var seen;
    seen, o := ArrivedBy(cfg, worlds, events, peeked, u);
    ViewingComesFrom(cfg, worlds[seen].db, o, events[seen].input);
    uri, client := p.viewing.row.requestUri, worlds[checked].db.clients[p.viewing.row.clientId];
    v := Validate(Lift(p.viewing.params), client).value;
    Descent.RunGrows(cfg, worlds, events, seen, checked);
    Descent.RunGrows(cfg, worlds, events, peeked, checked);
    RowsStay(worlds[seen], worlds[checked], id, uri);
    RowsStay(worlds[peeked], worlds[checked], id, uri);
  }

  lemma RowsStay(w: World, w': World, id: string, uri: string)
    requires Grows(w, w')
    ensures id in w.db.interactions ==>
              id in w'.db.interactions && w'.db.interactions[id].requestUri == w.db.interactions[id].requestUri
    ensures uri in w.db.par ==> uri in w'.db.par && w'.db.par[uri].params == w.db.par[uri].params
  {
  }

  lemma ConsentingComesFrom(cfg: Config, db: Db, p: Proc, input: Input)
    requires !p.Done? && Act(cfg, db, p, input).next.Consenting? && !Act(cfg, db, p, input).next.consenting.Close?
    ensures p.Consenting?
    ensures var c := Act(cfg, db, p, input).next.consenting;
            && !c.Submit?
            && (c.Peek? ==>
                  p.consenting.Submit? && p.consenting.id == c.id
                  && FindInteraction(db.interactions, c.id, input.now) == Some(c.row))
            && (c.Recheck? ==> p.consenting.Peek? && p.consenting.id == c.id && p.consenting.row == c.row)
            && p.consenting.signedIn == c.signedIn && p.consenting.approved == c.approved
  {
    hide Validate, Lawful, PromptNone, FreshFor, NeedsReauthentication;
    match p
    case Consenting(_) =>
    case Push(client, body, headerJkt) =>
    case Redeeming(r) =>
    case _ =>
  }

  /** Where consent is behind a grant: the subject that the grant names was shown the
      form before, on this interaction and for this request, in a session of its own
      that was then fresh enough for the request; the interaction was bound to it by
      that; and it is in a session of that subject that the form was submitted. */
  lemma ConsentIsBySubject(cfg: Config, worlds: seq<World>, events: seq<Event>, i: nat, g: string)
    returns (u: nat, approved: nat, p: Proc, viewer: nat, checked: nat, bound: nat, s: Sessions.LoginSession)
    requires Run(cfg, worlds, events) && i < |worlds| && g in worlds[i].origins
    ensures g in worlds[i].db.grants
    ensures approved < i && Steps(worlds, events, approved, u, p)
            && Approves(worlds[approved].db, p, events[approved].input, worlds[i].origins[g])
    ensures p.Consenting? ==>
              && p.consenting.ask.user.sub == worlds[i].db.grants[g].subject == s.sub
              && checked < bound < approved && Steps(worlds, events, bound, viewer, Viewing(BindTo(p.consenting.id, s)))
              && events[checked].Step? && events[checked].tid == viewer
              && FreshFor(Some(s), worlds[i].origins[g].request, FloorSec(events[checked].input.now))
  {
    hide Run, Act, ClientsOk, ParRowsOk, CodesOk, AccessesOk, RefreshesOk, AllHold, ClaimsOk, Validate, Lift, Grows,
         FreshFor;
    var decided, taken;
    u, approved, decided, taken, p := GrantIsAuthorised(cfg, worlds, events, i, g);
    RunInv(cfg, worlds, events, i);
    assert GrantOk(worlds[i], g);
    viewer, checked, bound := 0, 0, 0;
    s := Sessions.LoginSession("", "", 0, 0, None, None);
    if p.Consenting? {
      var submitted, signedIn;
      submitted, viewer, checked, bound, s, signedIn := ShownBefore(cfg, worlds, events, approved, i, u, p);
    }
  }

  lemma ShownBefore(cfg: Config, worlds: seq<World>, events: seq<Event>, approved: nat, i: nat, u: nat, p: Proc)
    returns (submitted: nat, viewer: nat, checked: nat, bound: nat,
             s: Sessions.LoginSession, signedIn: Sessions.LoginSession)
    requires Run(cfg, worlds, events) && approved <= i < |worlds| && Steps(worlds, events, approved, u, p)
    requires p.Consenting? && p.consenting.Close? && Stands(worlds[i].db, p.consenting.ask)
    ensures p.consenting.ask.user.sub == s.sub
    ensures submitted < approved && p.consenting.ask.user == UserOf(signedIn)
    ensures Steps(worlds, events, submitted, u, Consenting(Submit(p.consenting.id, signedIn, p.consenting.approved)))
    ensures BoundTo(worlds[submitted].db.interactions, p.consenting.id, s.sub, Some(s.authTime * 1000))
    ensures p.consenting.id in worlds[i].db.interactions
            && worlds[i].db.interactions[p.consenting.id].requestUri == p.consenting.ask.uri
    ensures checked < bound < submitted && Steps(worlds, events, bound, viewer, Viewing(BindTo(p.consenting.id, s)))
    ensures events[checked].Step? && events[checked].tid == viewer
    ensures FreshFor(Some(s), p.consenting.ask.request, FloorSec(events[checked].input.now))
  {
    hide Run, Act, Validate, Lift, Grows, FreshFor;
    var ask, id := p.consenting.ask, p.consenting.id;
    var rechecked, q := ArrivedBy(cfg, worlds, events, approved, u);
    CloseComesFrom(cfg, worlds[rechecked].db, q, events[rechecked].input, id, ask, p.consenting.approved);
    var peeked, q2 := ArrivedBy(cfg, worlds, events, rechecked, u);
    ConsentingComesFrom(cfg, worlds[peeked].db, q2, events[peeked].input);
    var q3;
    submitted, q3 := ArrivedBy(cfg, worlds, events, peeked, u);
    ConsentingComesFrom(cfg, worlds[submitted].db, q3, events[submitted].input);
    signedIn := q.consenting.signedIn;
    bound, viewer, s := BoundBy(cfg, worlds, events, submitted, id, ask.user.sub, q2.consenting.row.authTime);
    var uri, client, v;
    checked, uri, client, v := BoundWhenFresh(cfg, worlds, events, bound, viewer, id, s);
    Descent.RunGrows(cfg, worlds, events, checked, submitted);
    Descent.RunGrows(cfg, worlds, events, checked, i);
    RowsStay(worlds[checked], worlds[submitted], id, uri);
    RowsStay(worlds[checked], worlds[i], id, uri);
    SameDialogue(Lift(worlds[i].db.par[uri].params), client, ask.client, v, ask.request);
    SameReauthentication(Some(s), v, ask.request, FloorSec(events[checked].input.now));
  }

  /** No request with prompt=login ever ends in a grant: such a request asks for a new
      login each time its form is to be shown, so no interaction is ever bound to a
      subject for it, and it is never taken as prompt=none. */
  lemma LoginPromptNeverGranted(cfg: Config, worlds: seq<World>, events: seq<Event>, i: nat, g: string)
    requires Run(cfg, worlds, events) && i < |worlds| && g in worlds[i].origins
    ensures var prompt := worlds[i].origins[g].request.prompt; prompt.Some? ==> !Text.IsWord(prompt.value, "login")
  {
    hide Run;
    var u, approved, p, viewer, checked, bound, s := ConsentIsBySubject(cfg, worlds, events, i, g);
  }
}
