/** Requests served one at a time: running one request to its end, and why that is a
    serial run of the machine, to which every theorem about runs applies. */
module Serving {
  import AuthzRequest
  import opened Tables
  import opened Protocol
  import opened Provenance
  import opened Cascade
  import opened GrantEnd
  import Descent

  /** The storage and the place reached once the request has run to its end, or has
      used up the inputs from `k` on, with nothing in between. */
  function Serve(cfg: Config, db: Db, p: Proc, inputs: seq<Input>, k: nat): (Db, Proc)
    decreases |inputs| - k
  {
    if p.Done? || k >= |inputs| then (db, p)
    else
      var f := Act(cfg, db, p, inputs[k]);
      Serve(cfg, Apply(db, f.write), f.next, inputs, k + 1)
  }

  lemma ServeStep(cfg: Config, db: Db, p: Proc, inputs: seq<Input>, k: nat, f: Effect)
    requires !p.Done? && k < |inputs| && f == Act(cfg, db, p, inputs[k])
    ensures Serve(cfg, db, p, inputs, k) == Serve(cfg, Apply(db, f.write), f.next, inputs, k + 1)
  {
  }

  /** Every identifier that the request draws on the way is unused when it is drawn. */
  predicate FreshAlong(cfg: Config, db: Db, p: Proc, inputs: seq<Input>, k: nat)
    decreases |inputs| - k
  {
    p.Done? || k >= |inputs|
    || (var f := Act(cfg, db, p, inputs[k]);
        Fresh(db, f.write) && FreshAlong(cfg, Apply(db, f.write), f.next, inputs, k + 1))
  }

  // ---------------------------------------------- serving extends a serial run

  ghost predicate Idle(w: World) { forall t | t in w.procs :: w.procs[t].Done? }

  /** A serial run that has come to `w`. */
  ghost predicate SerialTo(cfg: Config, worlds: seq<World>, events: seq<Event>, w: World) {
    Run(cfg, worlds, events) && Serial(worlds, events) && worlds[|events|] == w
  }

  lemma SerialLonger(cfg: Config, worlds: seq<World>, events: seq<Event>, w: World, e: Event)
    returns (worlds': seq<World>, events': seq<Event>)
    requires SerialTo(cfg, worlds, events, w) && Legal(cfg, w, e) && (e.Start? ==> Idle(w))
    ensures SerialTo(cfg, worlds', events', After(cfg, w, e))
    ensures |events'| == |events| + 1 && events <= events' && worlds <= worlds' && events'[|events|] == e
  {
    hide Legal, After, Initial;
    worlds', events' := worlds + [After(cfg, w, e)], events + [e];
    forall i | 0 <= i < |events'|
      ensures Legal(cfg, worlds'[i], events'[i]) && worlds'[i + 1] == After(cfg, worlds'[i], events'[i])
      ensures events'[i].Start? ==> Idle(worlds'[i])
    {
      if i < |events| {
        assert worlds'[i] == worlds[i] && events'[i] == events[i] && worlds'[i + 1] == worlds[i + 1];
      }
    }
  }

  lemma {:induction false} UnusedId(used: set<nat>) returns (t: nat)
    ensures t !in used && forall u | u in used :: u < t
  {
    if used == {} {
      t := 0;
    } else {
      var u :| u in used;
      var s := UnusedId(used - {u});
      assert forall v | v in used :: v == u || v in used - {u};
      t := if s <= u then u + 1 else s;
    }
  }

  /** The request under way is stepped to its end. */
  lemma {:induction false} StepsToEnd(cfg: Config, worlds: seq<World>, events: seq<Event>, w: World, t: nat,
                                      inputs: seq<Input>, k: nat)
    returns (worlds': seq<World>, events': seq<Event>, w': World)
    requires SerialTo(cfg, worlds, events, w) && t in w.procs && Alone(w, t)
    requires FreshAlong(cfg, w.db, w.procs[t], inputs, k) && Serve(cfg, w.db, w.procs[t], inputs, k).1.Done?
    ensures SerialTo(cfg, worlds', events', w') && events <= events' && worlds <= worlds' && |events'| >= |events|
    ensures t in w'.procs && Idle(w') && (w'.db, w'.procs[t]) == Serve(cfg, w.db, w.procs[t], inputs, k)
    decreases |inputs| - k
  {
    if w.procs[t].Done? {
      worlds', events', w' := worlds, events, w;
    } else {
      var f := Act(cfg, w.db, w.procs[t], inputs[k]);
      assert Fresh(w.db, f.write);
      hide Act, Fresh, SerialTo, Apply, Commit;
      worlds', events' := SerialLonger(cfg, worlds, events, w, Step(t, inputs[k]));
      CommitParts(w, t, f);
      worlds', events', w' := StepsToEnd(cfg, worlds', events', Commit(w, t, f), t, inputs, k + 1);
    }
  }

  /** After any serial run, serving one more request that enters legally and draws
      unused identifiers is again a serial run, and ends where `Serve` says. */
  lemma ServeExtends(cfg: Config, worlds: seq<World>, events: seq<Event>, w: World, p: Proc, inputs: seq<Input>, k: nat)
    returns (worlds': seq<World>, events': seq<Event>, w': World, t: nat)
    requires SerialTo(cfg, worlds, events, w) && Idle(w) && Entry(w.db, p)
    requires FreshAlong(cfg, w.db, p, inputs, k) && Serve(cfg, w.db, p, inputs, k).1.Done?
    ensures SerialTo(cfg, worlds', events', w') && Idle(w') && events <= events' && worlds <= worlds'
    ensures |events| < |events'| && events'[|events|] == Start(t, p)
    ensures t in w'.procs && (w'.db, w'.procs[t]) == Serve(cfg, w.db, p, inputs, k)
  {
    hide Act, Entry, FreshAlong, Serve, SerialTo;
    t := UnusedId(w.procs.Keys);
    var e := Start(t, p);
    var worlds1, events1 := SerialLonger(cfg, worlds, events, w, e);
    worlds', events', w' := StepsToEnd(cfg, worlds1, events1, After(cfg, w, e), t, inputs, k);
  }

  // ------------------------------------------------------- the storage alone

  /** The storage is what requests served one at a time have left. */
  ghost predicate Served(cfg: Config, db: Db) {
    exists worlds, events, w :: SerialTo(cfg, worlds, events, w) && Idle(w) && w.db == db
  }

  /** The grant is closed and no token of it is left. */
  ghost predicate Shut(db: Db, g: string) { Closed(db, g) && AllRevoked(db, g) }

  /** What serving one more request keeps, whatever it is: no row goes or loses a
      death mark, and a grant that was shut stays so and gets no token. */
  ghost predicate Keeps(cfg: Config, db: Db, db': Db) {
    && Served(cfg, db') && Evolves(db, db')
    && forall g | Shut(db, g) :: Shut(db', g) && NoneMinted(db, db', g)
  }

  lemma ServeKeeps(cfg: Config, db: Db, p: Proc, inputs: seq<Input>, k: nat)
    requires Served(cfg, db) && Entry(db, p) && FreshAlong(cfg, db, p, inputs, k)
    requires Serve(cfg, db, p, inputs, k).1.Done?
    ensures Keeps(cfg, db, Serve(cfg, db, p, inputs, k).0)
  {
    hide Entry, FreshAlong, Serve, Act, Run, Serial, Evolves, Inv, Closed, AllRevoked, NoneMinted, Idle;
    var worlds, events, w :| SerialTo(cfg, worlds, events, w) && Idle(w) && w.db == db;
    var worlds', events', w', t := ServeExtends(cfg, worlds, events, w, p, inputs, k);
    var n, m := |events|, |events'|;
    assert n < |worlds'| && m < |worlds'| && worlds'[n] == w && worlds'[m] == w' by {
      Lengths(cfg, worlds, events, w, worlds', events', w');
    }
    Descent.RunGrows(cfg, worlds', events', n, m);
    RunInv(cfg, worlds', events', n);
    forall g | Shut(db, g) ensures Shut(w'.db, g) && NoneMinted(db, w'.db, g) {
      IdleSealed(cfg, w, g);
      SealedBetween(cfg, worlds', events', n, m, g);
    }
  }

  lemma Lengths(cfg: Config, worlds: seq<World>, events: seq<Event>, w: World,
                worlds': seq<World>, events': seq<Event>, w': World)
    requires SerialTo(cfg, worlds, events, w) && SerialTo(cfg, worlds', events', w')
    requires events <= events' && worlds <= worlds'
    ensures |events| <= |events'| < |worlds'| && worlds'[|events|] == w && worlds'[|events'|] == w'
  {
    hide Legal, After, Initial, Serial;
  }

  lemma IdleSealed(cfg: Config, w: World, g: string)
    requires Inv(cfg, w) && Idle(w) && Shut(w.db, g)
    ensures Sealed(cfg, w, g)
  {
    hide Inv, Closed, AllRevoked;
  }

  /** A new or changed registration is no request, and keeps as much. */
  lemma RegisterKeeps(cfg: Config, db: Db, c: AuthzRequest.Client)
    requires Served(cfg, db)
    ensures Keeps(cfg, db, Apply(db, PutClient(c)))
  {
    hide Run, Serial;
    var worlds, events, w :| SerialTo(cfg, worlds, events, w) && Idle(w) && w.db == db;
    var worlds', events' := SerialLonger(cfg, worlds, events, w, Register(c));
    var w' := After(cfg, w, Register(c));
    assert SerialTo(cfg, worlds', events', w') && Idle(w');
  }

  /** An empty storage is one. */
  lemma NothingServed(cfg: Config)
    ensures Served(cfg, Db(map[], map[], map[], map[], map[], map[], map[]))
  {
    var w := World(Db(map[], map[], map[], map[], map[], map[], map[]), map[], map[], {}, map[]);
    var worlds, events := [w], [];
    assert SerialTo(cfg, worlds, events, w) && Idle(w);
  }
}
