/** Any number of processes over one signing_keys table, any number of calls in each: a
    step is one storage call or the code between two, and a call may fail or its
    process die at any of them. */
module KeyStoreRaces {
  import opened Base
  import K = KeyStore

  type Kid = K.Kid

  /** Where a call of `init` or `rotate` is: `-ing` while a storage call is in
      flight, the participle when its answer is there. */
  datatype Task =
    | Listing
    | Listed(snapshot: K.Rows)
    | Healing(loaded: K.Rows, winner: Kid, todo: set<Kid>, current: Kid, at: int)
    | Healed(loaded: K.Rows, winner: Kid, todo: set<Kid>)
    | Begin
    | Retiring(kid: Kid, at: int)
    | Generate
    | Inserting(rec: K.Key)
    | Inserted(rec: K.Key)
    | Refused
    | Relisting
    | Relisted(snapshot: K.Rows)
    | Finished(kid: Kid)
    | Failed

  datatype Call = Call(pid: nat, task: Task)

  /** `init` is the call whose promise `ensure` holds. */
  datatype Process = Process(alive: bool, keys: K.Rows, active: Option<Kid>, init: Option<nat>)

  datatype World = World(table: K.Rows, procs: map<nat, Process>, calls: map<nat, Call>)

  /** The clock, a new random key, and the choices that the order of the listed
      rows makes: the active row picked and the stale one retired next. */
  datatype Input = Input(now: int, newKid: Kid, pick: Kid, stale: Kid)

  datatype Effect = Effect(table: K.Rows, proc: Process, task: Task)

  predicate Newest(rows: K.Rows, k: Kid) {
    k in K.ActiveKids(rows) && forall o | o in K.ActiveKids(rows) :: rows[o].createdAt <= rows[k].createdAt
  }

  /** Retire the next stale row, or, when none is left, swap in what was loaded. */
  function Resume(table: K.Rows, p: Process, loaded: K.Rows, winner: Kid, todo: set<Kid>, i: Input): Effect {
    if todo == {} then Effect(table, p.(keys := loaded, active := Some(winner)), Finished(winner))
    else Effect(table, p, Healing(K.Retired(loaded, {i.stale}, i.now), winner, todo - {i.stale}, i.stale, i.now))
  }

  function Act(table: K.Rows, p: Process, task: Task, i: Input): Effect
    requires Possible(table, task, i)
  {
    match task
    case Listing => Effect(table, p, Listed(table))
    case Listed(s) =>
      if K.ActiveKids(s) == {} then Effect(table, p.(keys := s, active := None), Generate)
      else Resume(table, p, s, i.pick, K.ActiveKids(s) - {i.pick}, i)
    case Healing(loaded, winner, todo, current, at) =>
      Effect(K.Retired(table, {current}, at), p, Healed(loaded, winner, todo))
    case Healed(loaded, winner, todo) => Resume(table, p, loaded, winner, todo, i)
    case Begin =>
      if p.active.None? then Effect(table, p, Generate)
      else Effect(table, p.(keys := K.Retired(p.keys, {p.active.value}, i.now)), Retiring(p.active.value, i.now))
    case Retiring(kid, at) => Effect(K.Retired(table, {kid}, at), p, Generate)
    case Generate => Effect(table, p, Inserting(K.Key(i.newKid, true, i.now, None)))
    case Inserting(rec) =>
      if K.ActiveKids(table) == {} then Effect(table[rec.kid := rec], p, Inserted(rec)) else Effect(table, p, Refused)
    case Inserted(rec) =>
      Effect(table, p.(keys := p.keys[rec.kid := rec], active := Some(rec.kid)), Finished(rec.kid))
    case Refused => Effect(table, p, Relisting)
    case Relisting => Effect(table, p, Relisted(table))
    case Relisted(s) =>
      if K.ActiveKids(s) == {} then Effect(table, p, Failed)
      else Effect(table, p.(keys := p.keys[i.pick := s[i.pick]], active := Some(i.pick)), Finished(i.pick))
  }

  /** The choices fit the rows, and random keys do not collide. */
  predicate Possible(table: K.Rows, task: Task, i: Input) {
    match task
    case Listed(s) =>
      K.ActiveKids(s) != {} ==>
        Newest(s, i.pick) && (K.ActiveKids(s) - {i.pick} != {} ==> i.stale in K.ActiveKids(s) - {i.pick})
    case Healed(_, _, todo) => todo != {} ==> i.stale in todo
    case Inserting(rec) => rec.kid !in table && rec.active
    case Relisted(s) => K.ActiveKids(s) != {} ==> i.pick in K.ActiveKids(s)
    case Finished(_) => false
    case Failed => false
    case _ => true
  }

  datatype Event =
    | Boot(pid: nat)
    | StartInit(call: nat, pid: nat)
    | StartRotate(call: nat, pid: nat)
    | Step(call: nat, input: Input)
    | Fail(call: nat)
    | Crash(pid: nat)

  predicate Running(w: World, c: nat) {
    && c in w.calls && w.calls[c].pid in w.procs && w.procs[w.calls[c].pid].alive
    && !w.calls[c].task.Finished? && !w.calls[c].task.Failed?
  }

  predicate Legal(w: World, e: Event) {
    match e
    case Boot(pid) => pid !in w.procs
    case StartInit(c, pid) => c !in w.calls && pid in w.procs && w.procs[pid].alive && w.procs[pid].init.None?
    case StartRotate(c, pid) => c !in w.calls && pid in w.procs && w.procs[pid].alive
    case Step(c, i) => Running(w, c) && Possible(w.table, w.calls[c].task, i)
    case Fail(c) => Running(w, c)
    case Crash(pid) => pid in w.procs
  }

  /** A rejected `init` leaves `ensure` free to try again. */
  function Settle(p: Process, c: nat, task: Task): Process {
    if task.Failed? && p.init == Some(c) then p.(init := None) else p
  }

  function After(w: World, e: Event): World
    requires Legal(w, e)
  {
    match e
    case Boot(pid) => w.(procs := w.procs[pid := Process(true, map[], None, None)])
    case StartInit(c, pid) =>
      w.(calls := w.calls[c := Call(pid, Listing)], procs := w.procs[pid := w.procs[pid].(init := Some(c))])
    case StartRotate(c, pid) => w.(calls := w.calls[c := Call(pid, Begin)])
    case Step(c, i) =>
      var pid := w.calls[c].pid;
      var f := Act(w.table, w.procs[pid], w.calls[c].task, i);
      World(f.table, w.procs[pid := Settle(f.proc, c, f.task)], w.calls[c := Call(pid, f.task)])
    case Fail(c) =>
      var pid := w.calls[c].pid;
      w.(procs := w.procs[pid := Settle(w.procs[pid], c, Failed)], calls := w.calls[c := Call(pid, Failed)])
    case Crash(pid) => w.(procs := w.procs[pid := w.procs[pid].(alive := false)])
  }

  /** From any table, with no process yet. */
  ghost predicate Run(worlds: seq<World>, events: seq<Event>) {
    && |worlds| == |events| + 1
    && worlds[0].procs == map[] && worlds[0].calls == map[] && K.Keyed(worlds[0].table)
    && forall i | 0 <= i < |events| :: Legal(worlds[i], events[i]) && worlds[i + 1] == After(worlds[i], events[i])
  }

  lemma RunStep(worlds: seq<World>, events: seq<Event>, i: nat)
    requires Run(worlds, events) && i + 1 < |worlds|
    ensures i < |events| && Legal(worlds[i], events[i]) && worlds[i + 1] == After(worlds[i], events[i])
  {
    hide Legal, After;
  }

  // ---------------------------------------------------------- rotation safety

  ghost predicate OneActive(table: K.Rows) {
    forall a, b :: a in K.ActiveKids(table) && b in K.ActiveKids(table) ==> a == b
  }

  lemma ActOneActive(table: K.Rows, p: Process, task: Task, i: Input)
    requires Possible(table, task, i) && OneActive(table)
    ensures OneActive(Act(table, p, task, i).table)
  {
    if task.Healing? {
      K.RetiredRows(table, {task.current}, task.at);
    } else if task.Retiring? {
      K.RetiredRows(table, {task.kid}, task.at);
    } else if task.Inserting? && K.ActiveKids(table) == {} {
      K.InsertedActive(table, task.rec);
    }
  }

  /** Started with at most one active row, the table keeps at most one, whatever the
      processes do. */
  lemma {:induction false} AtMostOneActive(worlds: seq<World>, events: seq<Event>, n: nat)
    requires Run(worlds, events) && OneActive(worlds[0].table) && n < |worlds|
    ensures OneActive(worlds[n].table)
  {
    if n > 0 {
      AtMostOneActive(worlds, events, n - 1);
      RunStep(worlds, events, n - 1);
      hide Act, Possible, OneActive, Run;
      var w, e := worlds[n - 1], events[n - 1];
      if e.Step? {
        ActOneActive(w.table, w.procs[w.calls[e.call].pid], w.calls[e.call].task, e.input);
      }
    }
  }

  ghost predicate TaskLoaded(task: Task) {
    match task
    case Healing(loaded, winner, _, _, _) => winner in loaded
    case Healed(loaded, winner, _) => winner in loaded
    case _ => true
  }

  ghost predicate Loaded(w: World) {
    && (forall pid | pid in w.procs :: w.procs[pid].active.Some? ==> w.procs[pid].active.value in w.procs[pid].keys)
    && (forall c | c in w.calls :: TaskLoaded(w.calls[c].task))
  }

  lemma ActLoaded(table: K.Rows, p: Process, task: Task, i: Input)
    requires Possible(table, task, i) && TaskLoaded(task) && (p.active.Some? ==> p.active.value in p.keys)
    ensures var f := Act(table, p, task, i);
            TaskLoaded(f.task) && (f.proc.active.Some? ==> f.proc.active.value in f.proc.keys)
  {
  }

  /** A process always has the key it signs with among the keys it has loaded. */
  lemma {:induction false} ActiveIsLoaded(worlds: seq<World>, events: seq<Event>, n: nat)
    requires Run(worlds, events) && n < |worlds|
    ensures Loaded(worlds[n])
  {
    if n > 0 {
      ActiveIsLoaded(worlds, events, n - 1);
      RunStep(worlds, events, n - 1);
      hide Loaded, Legal, After, Run;
      LoadedKept(worlds[n - 1], events[n - 1]);
    }
  }

  lemma LoadedKept(w: World, e: Event)
    requires Loaded(w) && Legal(w, e)
    ensures Loaded(After(w, e))
  {
    PlainTasks();
    hide Act, Possible, TaskLoaded;
    if e.Step? {
      ActLoaded(w.table, w.procs[w.calls[e.call].pid], w.calls[e.call].task, e.input);
    }
  }

  lemma PlainTasks()
    ensures TaskLoaded(Listing) && TaskLoaded(Begin) && TaskLoaded(Failed)
  {
  }

  /** The `init` that a process holds on to is one of its own that has not failed. */
  ghost predicate Holding(w: World) {
    forall pid | pid in w.procs && w.procs[pid].init.Some? ::
      && w.procs[pid].init.value in w.calls
      && w.calls[w.procs[pid].init.value].pid == pid && !w.calls[w.procs[pid].init.value].task.Failed?
  }

  lemma HoldingKept(w: World, e: Event)
    requires Holding(w) && Legal(w, e)
    ensures Holding(After(w, e))
  {
    hide Possible, K.ActiveKids, K.Retired;
    if e.Step? {
      SameInit(w.table, w.procs[w.calls[e.call].pid], w.calls[e.call].task, e.input);
    }
    hide Act;
  }

  lemma SameInit(table: K.Rows, p: Process, task: Task, i: Input)
    requires Possible(table, task, i)
    ensures Act(table, p, task, i).proc.init == p.init
  {
  }

  /** So an `init` that has failed does not stand in the way: a live process that has
      none under way or completed can start one. */
  lemma FailedInitIsForgotten(worlds: seq<World>, events: seq<Event>, n: nat, pid: nat, c: nat)
    requires Run(worlds, events) && n < |worlds| && pid in worlds[n].procs
    ensures Holding(worlds[n])
    ensures worlds[n].procs[pid].alive && c !in worlds[n].calls
            && (forall d | d in worlds[n].calls && worlds[n].calls[d].pid == pid :: worlds[n].calls[d].task.Failed?) ==>
              Legal(worlds[n], StartInit(c, pid))
  {
    HoldingRun(worlds, events, n);
  }

  lemma {:induction false} HoldingRun(worlds: seq<World>, events: seq<Event>, n: nat)
    requires Run(worlds, events) && n < |worlds|
    ensures Holding(worlds[n])
  {
    if n > 0 {
      HoldingRun(worlds, events, n - 1);
      RunStep(worlds, events, n - 1);
      hide Holding, Legal, After, Run;
      HoldingKept(worlds[n - 1], events[n - 1]);
    }
  }

  // ------------------------------------------ when the signing key is published

  /** Event `x` is a step in which process `pid` changes what it has loaded: a
      rotation marks the key in use, a call settles, or an `init` finds no active row. */
  predicate Changes(worlds: seq<World>, events: seq<Event>, x: nat, pid: nat) {
    && x < |events| && x + 1 < |worlds| && events[x].Step? && events[x].call in worlds[x].calls
    && worlds[x].calls[events[x].call].pid == pid
    && var task := worlds[x].calls[events[x].call].task;
    && (task.Begin? || (task.Listed? && K.ActiveKids(task.snapshot) == {})
        || (events[x].call in worlds[x + 1].calls && worlds[x + 1].calls[events[x].call].task.Finished?))
  }

  /** Event `m` is a rotation of `pid` marking the key it signs with as retired, and the
      process has not settled on a key since: the rotation is under way, or has failed. */
  ghost predicate Marked(worlds: seq<World>, events: seq<Event>, m: nat, n: nat, pid: nat) {
    && m < n < |worlds| && m < |events| && Changes(worlds, events, m, pid)
    && worlds[m].calls[events[m].call].task.Begin?
    && pid in worlds[m].procs && worlds[m].procs[pid].active.Some?
    && forall x: nat | m < x < n :: !Changes(worlds, events, x, pid)
  }

  /** What a call is about to settle on has an active row. */
  ghost predicate WinnerActive(task: Task) {
    match task
    case Healing(loaded, winner, todo, _, _) => winner in loaded && loaded[winner].active && winner !in todo
    case Healed(loaded, winner, todo) => winner in loaded && loaded[winner].active && winner !in todo
    case Inserting(rec) => rec.active
    case Inserted(rec) => rec.active
    case _ => true
  }

  lemma ActWinner(table: K.Rows, p: Process, task: Task, i: Input)
    requires Possible(table, task, i) && WinnerActive(task)
    ensures var f := Act(table, p, task, i);
            && WinnerActive(f.task)
            && (f.task.Finished? ==>
                  f.proc.active == Some(f.task.kid) && f.task.kid in f.proc.keys && f.proc.keys[f.task.kid].active)
            && (task.Begin? && p.active.Some? ==>
                  f.proc.active == p.active
                  && f.proc.keys == K.Retired(p.keys, {p.active.value}, i.now))
            && (task.Begin? && p.active.None? ==> f.proc == p)
            && (task.Listed? && K.ActiveKids(task.snapshot) == {} ==> f.proc.active.None?)
            && (!task.Begin? && !f.task.Finished? && !(task.Listed? && K.ActiveKids(task.snapshot) == {}) ==>
                  f.proc == p)
  {
  }

  lemma WinnerKept(w: World, e: Event)
    requires Legal(w, e) && forall c | c in w.calls :: WinnerActive(w.calls[c].task)
    ensures forall c | c in After(w, e).calls :: WinnerActive(After(w, e).calls[c].task)
  {
    PlainWinner();
    hide Act, Possible, WinnerActive;
    if e.Step? {
      ActWinner(w.table, w.procs[w.calls[e.call].pid], w.calls[e.call].task, e.input);
    }
  }

  lemma PlainWinner()
    ensures WinnerActive(Listing) && WinnerActive(Begin) && WinnerActive(Failed)
  {
  }

  lemma {:induction false} WinnersActive(worlds: seq<World>, events: seq<Event>, n: nat)
    requires Run(worlds, events) && n < |worlds|
    ensures forall c | c in worlds[n].calls :: WinnerActive(worlds[n].calls[c].task)
  {
    if n > 0 {
      WinnersActive(worlds, events, n - 1);
      RunStep(worlds, events, n - 1);
      hide Legal, After, Run, WinnerActive;
      WinnerKept(worlds[n - 1], events[n - 1]);
    }
  }

  /** What a process has loaded changes only in those steps. */
  lemma Unchanged(worlds: seq<World>, events: seq<Event>, x: nat, pid: nat)
    requires Run(worlds, events) && x + 1 < |worlds| && pid in worlds[x].procs && !Changes(worlds, events, x, pid)
    ensures pid in worlds[x + 1].procs
    ensures worlds[x + 1].procs[pid].keys == worlds[x].procs[pid].keys
    ensures worlds[x + 1].procs[pid].active == worlds[x].procs[pid].active
  {
    RunStep(worlds, events, x);
    WinnersActive(worlds, events, x);
    hide Act, Possible, Run, WinnerActive;
    var w, e := worlds[x], events[x];
    if e.Step? {
      ActWinner(w.table, w.procs[w.calls[e.call].pid], w.calls[e.call].task, e.input);
    }
  }

  lemma {:induction false} MarkedRow(worlds: seq<World>, events: seq<Event>, m: nat, n: nat, pid: nat)
    requires Run(worlds, events) && Marked(worlds, events, m, n, pid)
    ensures pid in worlds[n].procs && worlds[n].procs[pid].active == worlds[m].procs[pid].active
    ensures var p := worlds[n].procs[pid];
            && p.active.Some? && p.active.value in p.keys
            && !p.keys[p.active.value].active && p.keys[p.active.value].retiredAt == Some(events[m].input.now)
    decreases n
  {
    ActiveIsLoaded(worlds, events, m);
    if n == m + 1 {
      RunStep(worlds, events, m);
      WinnersActive(worlds, events, m);
      hide Act, Possible, Run, WinnerActive, TaskLoaded;
      var w, e := worlds[m], events[m];
      ActWinner(w.table, w.procs[pid], w.calls[e.call].task, e.input);
    } else {
      assert Marked(worlds, events, m, n - 1, pid);
      MarkedRow(worlds, events, m, n - 1, pid);
      hide Run, Changes;
      Unchanged(worlds, events, n - 1, pid);
    }
  }

  lemma {:induction false} ActiveOrMarked(worlds: seq<World>, events: seq<Event>, n: nat, pid: nat)
    requires Run(worlds, events) && n < |worlds| && pid in worlds[n].procs && worlds[n].procs[pid].active.Some?
    ensures var p := worlds[n].procs[pid];
            && p.active.value in p.keys
            && (p.keys[p.active.value].active || exists m: nat :: Marked(worlds, events, m, n, pid))
  {
    ActiveIsLoaded(worlds, events, n);
    assert n > 0;
    RunStep(worlds, events, n - 1);
    if Changes(worlds, events, n - 1, pid) {
      WinnersActive(worlds, events, n - 1);
      hide Act, Possible, Run, WinnerActive, TaskLoaded;
      var w, e := worlds[n - 1], events[n - 1];
      ActWinner(w.table, w.procs[pid], w.calls[e.call].task, e.input);
      if w.calls[e.call].task.Begin? && w.procs[pid].active.Some? {
        assert Marked(worlds, events, n - 1, n, pid);
      }
    } else {
      hide Act, Possible, TaskLoaded, Changes;
      if pid in worlds[n - 1].procs {
        Unchanged(worlds, events, n - 1, pid);
        ActiveOrMarked(worlds, events, n - 1, pid);
        var before: nat := n - 1;
        if m: nat :| Marked(worlds, events, m, before, pid) {
          assert Marked(worlds, events, m, n, pid);
        }
      }
    }
  }

  /** The key that a process signs with is published by it at `now` in every case but
      one: a rotation of its own has marked it retired 24 hours ago or more, and has
      not brought another since, because the store failed it or has not answered. */
  lemma ActivePublishedExactly(worlds: seq<World>, events: seq<Event>, n: nat, pid: nat, now: int)
    requires Run(worlds, events) && n < |worlds| && pid in worlds[n].procs && worlds[n].procs[pid].active.Some?
    ensures var p := worlds[n].procs[pid];
            && p.active.value in p.keys
            && (K.Published(p.keys[p.active.value], now) <==>
                  forall m: nat | Marked(worlds, events, m, n, pid) ::
                  now - events[m].input.now < K.RETIRED_KEY_RETENTION_MS)
  {
    hide Run;
    ActiveOrMarked(worlds, events, n, pid);
    forall m: nat | Marked(worlds, events, m, n, pid)
      ensures !worlds[n].procs[pid].keys[worlds[n].procs[pid].active.value].active
      ensures worlds[n].procs[pid].keys[worlds[n].procs[pid].active.value].retiredAt == Some(events[m].input.now)
    {
      MarkedRow(worlds, events, m, n, pid);
    }
  }

  /** The key was active in the table at some moment after `i` and up to `j`. */
  ghost predicate WasActive(worlds: seq<World>, i: nat, j: nat, k: Kid) {
    exists m :: i < m <= j && m < |worlds| && k in K.ActiveKids(worlds[m].table)
  }

  /** Every kid the call may come to return has been active since the call began. */
  ghost predicate Witnessed(worlds: seq<World>, i: nat, j: nat, task: Task) {
    match task
    case Listed(s) => forall k | k in K.ActiveKids(s) :: WasActive(worlds, i, j, k)
    case Healing(_, winner, _, _, _) => WasActive(worlds, i, j, winner)
    case Healed(_, winner, _) => WasActive(worlds, i, j, winner)
    case Inserted(rec) => WasActive(worlds, i, j, rec.kid)
    case Relisted(s) => forall k | k in K.ActiveKids(s) :: WasActive(worlds, i, j, k)
    case Finished(k) => WasActive(worlds, i, j, k)
    case _ => true
  }

  lemma WitnessedLonger(worlds: seq<World>, i: nat, j: nat, task: Task)
    requires Witnessed(worlds, i, j, task)
    ensures Witnessed(worlds, i, j + 1, task)
  {
    forall k | WasActive(worlds, i, j, k) ensures WasActive(worlds, i, j + 1, k) {
      var m :| i < m <= j && m < |worlds| && k in K.ActiveKids(worlds[m].table);
    }
  }

  lemma StepWitnessed(worlds: seq<World>, i: nat, j: nat, w: World, p: Process, task: Task, input: Input)
    requires i < j && j + 1 < |worlds| && worlds[j] == w && Possible(w.table, task, input)
    requires worlds[j + 1].table == Act(w.table, p, task, input).table
    requires Witnessed(worlds, i, j, task)
    ensures Witnessed(worlds, i, j + 1, Act(w.table, p, task, input).task)
  {
    WitnessedLonger(worlds, i, j, task);
    if task.Listing? || task.Relisting? {
      forall k | k in K.ActiveKids(w.table) ensures WasActive(worlds, i, j + 1, k) {
        assert k in K.ActiveKids(worlds[j].table);
      }
    } else if task.Inserting? && K.ActiveKids(w.table) == {} {
      assert task.rec.kid in K.ActiveKids(worlds[j + 1].table);
    }
  }

  /** One call across one event. */
  lemma CallAcross(w: World, e: Event, c: nat)
    requires Legal(w, e) && c in w.calls
    ensures c in After(w, e).calls
    ensures var task, task' := w.calls[c].task, After(w, e).calls[c].task;
            || task' == task
            || task' == Failed
            || (e.Step? && e.call == c && w.calls[c].pid in w.procs && Possible(w.table, task, e.input)
                && var f := Act(w.table, w.procs[w.calls[c].pid], task, e.input);
                   task' == f.task && After(w, e).table == f.table)
  {
    hide Act, Possible;
  }

  lemma Started(w: World, e: Event)
    requires Legal(w, e) && (e.StartInit? || e.StartRotate?)
    ensures e.call in After(w, e).calls && After(w, e).calls[e.call].task == if e.StartInit? then Listing else Begin
  {
  }

  lemma PlainWitnessed(worlds: seq<World>, i: nat, j: nat)
    ensures Witnessed(worlds, i, j, Listing) && Witnessed(worlds, i, j, Begin) && Witnessed(worlds, i, j, Failed)
  {
  }

  lemma {:induction false} CallWitnessed(worlds: seq<World>, events: seq<Event>, i: nat, j: nat, c: nat)
    requires Run(worlds, events) && i < j < |worlds| && i < |events|
    requires (events[i].StartRotate? || events[i].StartInit?) && events[i].call == c
    ensures c in worlds[j].calls && Witnessed(worlds, i, j, worlds[j].calls[c].task)
    decreases j
  {
    RunStep(worlds, events, j - 1);
    hide Act, Possible, Run, Legal, After, Witnessed;
    PlainWitnessed(worlds, i, j);
    if j == i + 1 {
      Started(worlds[i], events[i]);
    } else {
      CallWitnessed(worlds, events, i, j - 1, c);
      StillWitnessed(worlds, i, j - 1, events[j - 1], c);
    }
  }

  lemma StillWitnessed(worlds: seq<World>, i: nat, j: nat, e: Event, c: nat)
    requires i < j && j + 1 < |worlds| && Legal(worlds[j], e) && worlds[j + 1] == After(worlds[j], e)
    requires c in worlds[j].calls && Witnessed(worlds, i, j, worlds[j].calls[c].task)
    ensures c in worlds[j + 1].calls && Witnessed(worlds, i, j + 1, worlds[j + 1].calls[c].task)
  {
    var w := worlds[j];
    CallAcross(w, e, c);
    hide Act, Possible, Legal, After, Witnessed;
    PlainWitnessed(worlds, i, j + 1);
    var task := w.calls[c].task;
    WitnessedLonger(worlds, i, j, task);
    if worlds[j + 1].calls[c].task != task && worlds[j + 1].calls[c].task != Failed {
      StepWitnessed(worlds, i, j, w, w.procs[w.calls[c].pid], task, e.input);
    }
  }

  /** The kid that `rotate` or `init` settles on was, at some moment during the call,
      the active one of the table. */
  lemma ReturnsActiveKid(worlds: seq<World>, events: seq<Event>, i: nat, j: nat, c: nat)
    requires Run(worlds, events) && i < j < |worlds| && i < |events|
    requires (events[i].StartRotate? || events[i].StartInit?) && events[i].call == c
    requires c in worlds[j].calls ==> worlds[j].calls[c].task.Finished?
    ensures c in worlds[j].calls
    ensures exists m :: i < m <= j && worlds[j].calls[c].task.kid in K.ActiveKids(worlds[m].table)
  {
    hide Run;
    CallWitnessed(worlds, events, i, j, c);
    assert WasActive(worlds, i, j, worlds[j].calls[c].task.kid);
  }

  // ------------------------------------------------------------- some runs

  lemma Longer(worlds: seq<World>, events: seq<Event>, e: Event)
    requires Run(worlds, events) && Legal(worlds[|events|], e)
    ensures Run(worlds + [After(worlds[|events|], e)], events + [e])
  {
    hide Legal, After;
    var v, f := worlds + [After(worlds[|events|], e)], events + [e];
    forall i | 0 <= i < |f| ensures Legal(v[i], f[i]) && v[i + 1] == After(v[i], f[i]) {
      if i < |events| {
        assert v[i] == worlds[i] && f[i] == events[i] && v[i + 1] == worlds[i + 1];
      }
    }
  }

  ghost predicate Ends(worlds: seq<World>, events: seq<Event>, w: World) {
    Run(worlds, events) && worlds[|events|] == w
  }

  lemma Next(worlds: seq<World>, events: seq<Event>, w: World, e: Event)
    returns (worlds': seq<World>, events': seq<Event>, w': World)
    requires Ends(worlds, events, w) && Legal(w, e)
    ensures w' == After(w, e) && Ends(worlds', events', w')
  {
    hide Legal, After;
    w' := After(w, e);
    worlds', events' := worlds + [w'], events + [e];
    Longer(worlds, events, e);
  }

  function Row(kid: Kid): K.Key { K.Key(kid, true, 0, None) }

  function ServerProcess(kid: Kid): Process { Process(true, map[kid := Row(kid)], Some(kid), Some(0)) }

  /** A process boots on an empty table and settles on its own new key. */
  lemma FirstInit(kid: Kid) returns (worlds: seq<World>, events: seq<Event>, w: World)
    ensures Ends(worlds, events, w)
    ensures w == World(map[kid := Row(kid)], map[0 := ServerProcess(kid)], map[0 := Call(0, Finished(kid))])
  {
    hide Ends;
    var i := Input(0, kid, kid, kid);
    worlds, events, w := FirstInsert(kid);
    worlds, events, w := Next(worlds, events, w, Step(0, i));
    assert w == World(map[kid := Row(kid)], map[0 := Process(true, map[], None, Some(0))],
                      map[0 := Call(0, Inserted(Row(kid)))]);
    worlds, events, w := Next(worlds, events, w, Step(0, i));
    assert w.procs == map[0 := ServerProcess(kid)];
  }

  lemma FirstInsert(kid: Kid) returns (worlds: seq<World>, events: seq<Event>, w: World)
    ensures Ends(worlds, events, w)
    ensures w == World(map[], map[0 := Process(true, map[], None, Some(0))], map[0 := Call(0, Inserting(Row(kid)))])
  {
    hide Ends;
    var i := Input(0, kid, kid, kid);
    var p := Process(true, map[], None, Some(0));
    worlds, events, w := FirstLists();
    worlds, events, w := Next(worlds, events, w, Step(0, i));
    assert w == World(map[], map[0 := p], map[0 := Call(0, Listed(map[]))]);
    worlds, events, w := Next(worlds, events, w, Step(0, i));
    assert w == World(map[], map[0 := p], map[0 := Call(0, Generate)]);
    worlds, events, w := Next(worlds, events, w, Step(0, i));
  }

  lemma FirstLists() returns (worlds: seq<World>, events: seq<Event>, w: World)
    ensures Ends(worlds, events, w)
    ensures w == World(map[], map[0 := Process(true, map[], None, Some(0))], map[0 := Call(0, Listing)])
  {
    w := World(map[], map[], map[]);
    worlds, events := [w], [];
    assert Ends(worlds, events, w);
    hide Ends;
    worlds, events, w := Next(worlds, events, w, Boot(0));
    worlds, events, w := Next(worlds, events, w, StartInit(0, 0));
  }

  /** A rotation that the store fails right after it has marked the key: the process
      is alive and has no call under way, signs with a key that it holds, and from 24
      hours later on does not publish it. */
  lemma ActiveUnpublished(kid: Kid, now: int) returns (worlds: seq<World>, events: seq<Event>, w: World)
    requires now >= K.RETIRED_KEY_RETENTION_MS
    ensures Run(worlds, events) && worlds[|events|] == w
    ensures && 0 in w.procs && w.procs[0].alive && w.procs[0].active == Some(kid) && kid in w.procs[0].keys
            && !K.Published(w.procs[0].keys[kid], now)
            && forall c | c in w.calls :: !Running(w, c)
  {
    var i := Input(0, kid, kid, kid);
    worlds, events, w := FirstInit(kid);
    worlds, events, w := Next(worlds, events, w, StartRotate(1, 0));
    worlds, events, w := Next(worlds, events, w, Step(1, i));
    worlds, events, w := Next(worlds, events, w, Fail(1));
  }

  // --------------------------------------- what one process knows of another's keys

  /** Nobody has asked process `q` to rotate, up to `n`. */
  ghost predicate Server(events: seq<Event>, n: nat, q: nat) {
    forall x | 0 <= x < n && x < |events| && events[x].StartRotate? :: events[x].pid != q
  }

  /** Only one call of a server is under way or finished: the `init` that `ensure` holds. */
  ghost predicate Single(w: World, q: nat) {
    forall c | c in w.calls && w.calls[c].pid == q && !w.calls[c].task.Failed? ::
      q in w.procs && w.procs[q].init == Some(c) && !w.calls[c].task.Begin? && !w.calls[c].task.Retiring?
  }

  lemma SingleKept(w: World, e: Event, q: nat)
    requires Single(w, q) && Legal(w, e) && !(e.StartRotate? && e.pid == q)
    ensures Single(After(w, e), q)
  {
    hide Possible, K.ActiveKids, K.Retired;
    var w' := After(w, e);
    forall c | c in w'.calls && w'.calls[c].pid == q && !w'.calls[c].task.Failed?
      ensures q in w'.procs && w'.procs[q].init == Some(c) && !w'.calls[c].task.Begin? && !w'.calls[c].task.Retiring?
    {
      if c in w.calls { assert w.calls[c].pid == q; }
    }
  }

  lemma {:induction false} ServerIsSingle(worlds: seq<World>, events: seq<Event>, n: nat, q: nat)
    requires Run(worlds, events) && n < |worlds| && Server(events, n, q)
    ensures Single(worlds[n], q)
  {
    if n > 0 {
      ServerIsSingle(worlds, events, n - 1, q);
      RunStep(worlds, events, n - 1);
      hide Single, Legal, After, Run;
      SingleKept(worlds[n - 1], events[n - 1], q);
    }
  }

  // What an `init` retires on the way, each row at its own reading.

  /** At event `x` the call turns to retiring `k`. */
  predicate Retires(worlds: seq<World>, events: seq<Event>, x: nat, c: nat, k: Kid) {
    && x < |events| && x + 1 < |worlds| && events[x].Step? && events[x].call == c
    && c in worlds[x + 1].calls && worlds[x + 1].calls[c].task.Healing? && worlds[x + 1].calls[c].task.current == k
  }

  function Stale(row: K.Key, at: int): K.Key { row.(active := false, retiredAt := Some(at)) }

  /** Of the stale rows, those still to do are as listed, the others retired. No other
      row has changed. */
  ghost predicate Marks(worlds: seq<World>, events: seq<Event>, m: nat, n: nat, c: nat, listed: K.Rows,
                        loaded: K.Rows, winner: Kid, todo: set<Kid>) {
    && loaded.Keys == listed.Keys && winner in K.ActiveKids(listed) && todo <= K.ActiveKids(listed) - {winner}
    && (forall o | o in K.ActiveKids(listed) :: listed[o].createdAt <= listed[winner].createdAt)
    && loaded[winner].active && (forall k | k in listed && !listed[k].active :: loaded[k] == listed[k])
    && forall k | k in K.ActiveKids(listed) && k != winner ::
         if k in todo then
           loaded[k] == listed[k] && forall x: nat | m < x < n :: !Retires(worlds, events, x, c, k)
         else
           && (exists x: nat :: m < x < n && Retires(worlds, events, x, c, k))
           && forall x: nat | m < x < n && Retires(worlds, events, x, c, k) ::
                  loaded[k] == Stale(listed[k], events[x].input.now)
  }

  /** How far the `init` that listed `listed` has come. */
  ghost predicate Tracked(worlds: seq<World>, events: seq<Event>, m: nat, n: nat, q: nat, c: nat, listed: K.Rows) {
    && n < |worlds| && c in worlds[n].calls && worlds[n].calls[c].pid == q && q in worlds[n].procs
    && match worlds[n].calls[c].task
       case Listed(s) => s == listed && forall x: nat, k | m < x < n :: !Retires(worlds, events, x, c, k)
       case Healing(loaded, winner, todo, _, _) => Marks(worlds, events, m, n, c, listed, loaded, winner, todo)
       case Healed(loaded, winner, todo) => Marks(worlds, events, m, n, c, listed, loaded, winner, todo)
       case Finished(k) =>
         var keys := worlds[n].procs[q].keys;
         if K.ActiveKids(listed) != {} then Marks(worlds, events, m, n, c, listed, keys, k, {})
         else k in keys && keys[k].active && keys == listed[k := keys[k]]
       case Begin => false
       case Retiring(_, _) => false
       case Listing => false
       case Failed => true
       case _ => worlds[n].procs[q].keys == listed && K.ActiveKids(listed) == {}
  }

  /** A step at which the call retires nothing. */
  lemma MarksStay(worlds: seq<World>, events: seq<Event>, m: nat, n: nat, c: nat, listed: K.Rows, loaded: K.Rows,
                  winner: Kid, todo: set<Kid>)
    requires Marks(worlds, events, m, n, c, listed, loaded, winner, todo)
    requires forall k :: !Retires(worlds, events, n, c, k)
    ensures Marks(worlds, events, m, n + 1, c, listed, loaded, winner, todo) && winner in K.ActiveKids(listed)
  {
    hide Retires, Stale;
    forall k | k in K.ActiveKids(listed) && k != winner && k !in todo
      ensures exists x: nat :: m < x < n + 1 && Retires(worlds, events, x, c, k)
    {
      var x: nat :| m < x < n && Retires(worlds, events, x, c, k);
      assert m < x < n + 1;
    }
  }

  /** A step at which it retires one row more. */
  lemma MarksMore(worlds: seq<World>, events: seq<Event>, m: nat, n: nat, c: nat, listed: K.Rows, loaded: K.Rows,
                  winner: Kid, todo: set<Kid>, stale: Kid)
    requires Marks(worlds, events, m, n, c, listed, loaded, winner, todo) && stale in todo && m < n
    requires forall k :: Retires(worlds, events, n, c, k) <==> k == stale
    ensures n < |events| && events[n].Step?
    ensures Marks(worlds, events, m, n + 1, c, listed, K.Retired(loaded, {stale}, events[n].input.now),
                  winner, todo - {stale})
  {
    assert Retires(worlds, events, n, c, stale);
    hide Retires;
    var loaded' := K.Retired(loaded, {stale}, events[n].input.now);
    forall k | k in K.ActiveKids(listed) && k != winner && k !in todo - {stale}
      ensures exists x: nat :: m < x < n + 1 && Retires(worlds, events, x, c, k)
      ensures forall x: nat | m < x < n + 1 && Retires(worlds, events, x, c, k) ::
                loaded'[k] == Stale(listed[k], events[x].input.now)
    {
      if k == stale {
        assert m < n < n + 1 && Retires(worlds, events, n, c, k);
      } else {
        var x: nat :| m < x < n && Retires(worlds, events, x, c, k);
        assert m < x < n + 1;
      }
    }
  }

  lemma MarksBegin(worlds: seq<World>, events: seq<Event>, m: nat, n: nat, c: nat, listed: K.Rows, winner: Kid)
    requires winner in K.ActiveKids(listed) && forall x: nat, k | m < x < n :: !Retires(worlds, events, x, c, k)
    requires forall o | o in K.ActiveKids(listed) :: listed[o].createdAt <= listed[winner].createdAt
    ensures Marks(worlds, events, m, n, c, listed, listed, winner, K.ActiveKids(listed) - {winner})
  {
    hide Retires, Stale;
  }

  /** The step of the call itself. */
  lemma TrackStep(worlds: seq<World>, events: seq<Event>, m: nat, n: nat, q: nat, c: nat, listed: K.Rows)
    requires Run(worlds, events) && m < n && n + 1 < |worlds| && Tracked(worlds, events, m, n, q, c, listed)
    requires events[n].Step? && events[n].call == c
    ensures Tracked(worlds, events, m, n + 1, q, c, listed)
  {
    RunStep(worlds, events, n);
    WinnersActive(worlds, events, n);
    hide Run, K.ActiveKids, K.Retired, Marks, Newest;
    var w, i := worlds[n], events[n].input;
    var task, next := w.calls[c].task, worlds[n + 1].calls[c].task;
    forall k ensures Retires(worlds, events, n, c, k) <==> next.Healing? && next.current == k {
    }
    match task
    case Listed(s) =>
      if K.ActiveKids(s) != {} {
        PickedActive(w.table, task, i);
        MarksBegin(worlds, events, m, n, c, listed, i.pick);
        TrackResume(worlds, events, m, n, q, c, listed, listed, i.pick, K.ActiveKids(listed) - {i.pick});
      }
    case Healing(loaded, winner, todo, _, _) => MarksStay(worlds, events, m, n, c, listed, loaded, winner, todo);
    case Healed(loaded, winner, todo) => TrackResume(worlds, events, m, n, q, c, listed, loaded, winner, todo);
    case Relisted(s) => PickedActive(w.table, task, i);
    case _ =>
  }

  lemma PickedActive(table: K.Rows, task: Task, i: Input)
    requires Possible(table, task, i) && (task.Listed? || task.Relisted?)
    ensures K.ActiveKids(task.snapshot) != {} ==>
              i.pick in K.ActiveKids(task.snapshot) && i.pick in task.snapshot && task.snapshot[i.pick].active
    ensures task.Listed? && K.ActiveKids(task.snapshot) != {} ==>
              forall o | o in K.ActiveKids(task.snapshot) ::
                task.snapshot[o].createdAt <= task.snapshot[i.pick].createdAt
  {
  }

  lemma TrackResume(worlds: seq<World>, events: seq<Event>, m: nat, n: nat, q: nat, c: nat, listed: K.Rows,
                    loaded: K.Rows, winner: Kid, todo: set<Kid>)
    requires m < n && n < |events| && n + 1 < |worlds| && events[n].Step? && events[n].call == c
    requires Marks(worlds, events, m, n, c, listed, loaded, winner, todo)
    requires todo != {} ==> events[n].input.stale in todo
    requires c in worlds[n + 1].calls && worlds[n + 1].calls[c].pid == q && q in worlds[n + 1].procs
    requires c in worlds[n].calls && q in worlds[n].procs
    requires var f := Resume(worlds[n].table, worlds[n].procs[q], loaded, winner, todo, events[n].input);
             worlds[n + 1].calls[c].task == f.task && worlds[n + 1].procs[q].keys == f.proc.keys
    ensures Tracked(worlds, events, m, n + 1, q, c, listed)
  {
    hide Marks, K.ActiveKids, K.Retired;
    if todo == {} {
      MarksStay(worlds, events, m, n, c, listed, loaded, winner, todo);
    } else {
      MarksMore(worlds, events, m, n, c, listed, loaded, winner, todo, events[n].input.stale);
    }
  }

  /** Any other event. */
  lemma TrackOther(worlds: seq<World>, events: seq<Event>, m: nat, n: nat, q: nat, c: nat, listed: K.Rows)
    requires Run(worlds, events) && m < n && n + 1 < |worlds| && Tracked(worlds, events, m, n, q, c, listed)
    requires !(events[n].Step? && events[n].call == c) && Single(worlds[n], q)
    ensures Tracked(worlds, events, m, n + 1, q, c, listed)
  {
    RunStep(worlds, events, n);
    hide Run, K.ActiveKids, Marks, Act, Possible;
    var w, w' := worlds[n], worlds[n + 1];
    assert forall k :: !Retires(worlds, events, n, c, k);
    if events[n].Step? && !w.calls[c].task.Failed? {
      assert w.calls[events[n].call].pid != q;
    }
    assert c in w'.calls && (w'.calls[c] == w.calls[c] || w'.calls[c].task.Failed?);
    match w.calls[c].task
    case Healing(loaded, winner, todo, _, _) => MarksStay(worlds, events, m, n, c, listed, loaded, winner, todo);
    case Healed(loaded, winner, todo) => MarksStay(worlds, events, m, n, c, listed, loaded, winner, todo);
    case Finished(k) =>
      if K.ActiveKids(listed) != {} {
        MarksStay(worlds, events, m, n, c, listed, w.procs[q].keys, k, {});
      }
    case _ =>
  }

  lemma TrackListing(worlds: seq<World>, events: seq<Event>, m: nat, q: nat, c: nat)
    requires Run(worlds, events) && m + 1 < |worlds|
    requires m < |events| && events[m].Step? && events[m].call == c && c in worlds[m].calls
    requires worlds[m].calls[c] == Call(q, Listing)
    ensures Tracked(worlds, events, m, m + 1, q, c, worlds[m].table)
  {
    RunStep(worlds, events, m);
    hide Run, Marks, K.ActiveKids;
  }

  lemma {:induction false} TrackRun(worlds: seq<World>, events: seq<Event>, m: nat, n: nat, q: nat, c: nat)
    requires Run(worlds, events) && m < n < |worlds| && Server(events, n, q)
    requires m < |events| && events[m].Step? && events[m].call == c && c in worlds[m].calls
    requires worlds[m].calls[c] == Call(q, Listing)
    ensures Tracked(worlds, events, m, n, q, c, worlds[m].table)
    decreases n
  {
    hide Run, Legal, After, Single, Tracked;
    RunStep(worlds, events, n - 1);
    if n == m + 1 {
      TrackListing(worlds, events, m, q, c);
    } else {
      TrackRun(worlds, events, m, n - 1, q, c);
      ServerIsSingle(worlds, events, n - 1, q);
      if events[n - 1].Step? && events[n - 1].call == c {
        TrackStep(worlds, events, m, n - 1, q, c, worlds[m].table);
      } else {
        TrackOther(worlds, events, m, n - 1, q, c, worlds[m].table);
      }
    }
  }

  /** Event `m` is the listing by the call `c` of a server `q` that has completed at `n`. */
  ghost predicate Serves(worlds: seq<World>, events: seq<Event>, m: nat, n: nat, q: nat, c: nat) {
    && m < n < |worlds| && m < |events| && Server(events, n, q)
    && events[m].Step? && events[m].call == c && c in worlds[m].calls && worlds[m].calls[c] == Call(q, Listing)
    && (c in worlds[n].calls ==> worlds[n].calls[c].task.Finished?)
  }

  /** A listed row that is not the one settled on is inside the horizon: counted from
      when it was retired, or, if it was still active, from when this call retired it. */
  ghost predicate Outstanding(
    worlds: seq<World>, events: seq<Event>, m: nat, n: nat, c: nat, listed: K.Rows, k: Kid, now: int) {
    && k in listed
    && if listed[k].active then
         forall x: nat | m < x < n && Retires(worlds, events, x, c, k) ::
           now - events[x].input.now < K.RETIRED_KEY_RETENTION_MS
       else K.Published(listed[k], now)
  }

  /** A server whose `init` has completed holds exactly the keys that were in the table
      when it listed it, and the one it settled on, the newest of the active ones if
      there were any; and of these it publishes at `now`
      exactly the latter and those inside the horizon. So this is when what another
      process signs with `k` can be verified against it: a key rotated in later is
      unknown to it. */
  lemma ServerPublishesExactly(worlds: seq<World>, events: seq<Event>, m: nat, n: nat, q: nat, c: nat, k: Kid, now: int)
    requires Run(worlds, events) && Serves(worlds, events, m, n, q, c)
    ensures c in worlds[n].calls && q in worlds[n].procs
    ensures var keys, settled, listed := worlds[n].procs[q].keys, worlds[n].calls[c].task.kid, worlds[m].table;
            && (k in keys <==> k in listed || k == settled)
            && (K.ActiveKids(listed) != {} ==>
                  && settled in K.ActiveKids(listed)
                  && forall o | o in K.ActiveKids(listed) :: listed[o].createdAt <= listed[settled].createdAt)
            && ((k in keys && K.Published(keys[k], now)) <==>
                (k == settled || Outstanding(worlds, events, m, n, c, listed, k, now)))
  {
    hide Run, Server, Single, Retires;
    TrackRun(worlds, events, m, n, q, c);
    var listed := worlds[m].table;
    assert k in listed && listed[k].active ==> k in K.ActiveKids(listed);
  }

  ghost predicate TaskStored(table: K.Rows, task: Task) {
    match task
    case Listed(s) => s.Keys <= table.Keys
    case Healing(loaded, _, _, _, _) => loaded.Keys <= table.Keys
    case Healed(loaded, _, _) => loaded.Keys <= table.Keys
    case Inserted(rec) => rec.kid in table
    case Relisted(s) => s.Keys <= table.Keys
    case _ => true
  }

  /** Whatever a process or a call has loaded is a row of the table. */
  ghost predicate Stored(w: World) {
    && (forall pid | pid in w.procs :: w.procs[pid].keys.Keys <= w.table.Keys)
    && (forall c | c in w.calls :: TaskStored(w.table, w.calls[c].task))
  }

  lemma ActStored(table: K.Rows, p: Process, task: Task, i: Input)
    requires Possible(table, task, i) && TaskStored(table, task) && p.keys.Keys <= table.Keys
    ensures var f := Act(table, p, task, i);
            table.Keys <= f.table.Keys && TaskStored(f.table, f.task) && f.proc.keys.Keys <= f.table.Keys
  {
  }

  lemma StoredKept(w: World, e: Event)
    requires Stored(w) && Legal(w, e)
    ensures Stored(After(w, e)) && w.table.Keys <= After(w, e).table.Keys
  {
    hide Act, Possible;
    if e.Step? {
      ActStored(w.table, w.procs[w.calls[e.call].pid], w.calls[e.call].task, e.input);
    }
  }

  lemma {:induction false} RunStored(worlds: seq<World>, events: seq<Event>, x: nat, m: nat)
    requires Run(worlds, events) && x <= m < |worlds|
    ensures Stored(worlds[m]) && worlds[x].table.Keys <= worlds[m].table.Keys
    decreases m
  {
    if m > 0 {
      RunStored(worlds, events, if x < m then x else m - 1, m - 1);
      RunStep(worlds, events, m - 1);
      hide Stored, Legal, After, Run;
      StoredKept(worlds[m - 1], events[m - 1]);
    }
  }

  /** What any process signs with before a server lists the table, the server knows. */
  lemma SignedBeforeIsKnown(worlds: seq<World>, events: seq<Event>, x: nat, pid: nat, m: nat, n: nat, q: nat, c: nat)
    requires Run(worlds, events) && Serves(worlds, events, m, n, q, c)
    requires x <= m && pid in worlds[x].procs && worlds[x].procs[pid].active.Some?
    ensures q in worlds[n].procs && worlds[x].procs[pid].active.value in worlds[n].procs[q].keys
  {
    hide Run, Server;
    var k := worlds[x].procs[pid].active.value;
    ActiveIsLoaded(worlds, events, x);
    RunStored(worlds, events, x, m);
    RunStored(worlds, events, x, x);
    ServerPublishesExactly(worlds, events, m, n, q, c, k, 0);
  }

  /** A run in which a process signs with a key that a server does not publish: the
      server boots; then another process boots and rotates. */
  lemma UnknownToServer(first: Kid, later: Kid) returns (worlds: seq<World>, events: seq<Event>, w: World)
    requires first != later
    ensures Run(worlds, events) && worlds[|events|] == w
    ensures && 0 in w.procs && 1 in w.procs && w.procs[0].alive && w.procs[1].alive
            && w.procs[0].active == Some(first) && w.procs[1].active == Some(later)
            && later !in w.procs[0].keys && K.ActiveKids(w.table) == {later}
            && forall c | c in w.calls :: w.calls[c].task.Finished?
  {
    var i := Input(0, later, first, first);
    worlds, events, w := SecondInserts(first, later);
    K.InsertedActive(w.table, Row(later));
    worlds, events, w := Next(worlds, events, w, Step(2, i));
    worlds, events, w := Next(worlds, events, w, Step(2, i));
  }

  lemma SecondInit(kid: Kid) returns (worlds: seq<World>, events: seq<Event>, w: World)
    ensures Ends(worlds, events, w)
    ensures w == World(map[kid := Row(kid)], map[0 := ServerProcess(kid), 1 := ServerProcess(kid).(init := Some(1))],
                       map[0 := Call(0, Finished(kid)), 1 := Call(1, Finished(kid))])
  {
    hide Ends;
    var i := Input(0, kid, kid, kid);
    var table, server, done := map[kid := Row(kid)], ServerProcess(kid), Call(0, Finished(kid));
    worlds, events, w := FirstInit(kid);
    worlds, events, w := Next(worlds, events, w, Boot(1));
    worlds, events, w := Next(worlds, events, w, StartInit(1, 1));
    var p := Process(true, map[], None, Some(1));
    assert w == World(table, map[0 := server, 1 := p], map[0 := done, 1 := Call(1, Listing)]);
    worlds, events, w := Next(worlds, events, w, Step(1, i));
    assert w == World(table, map[0 := server, 1 := p], map[0 := done, 1 := Call(1, Listed(table))]);
    assert K.ActiveKids(table) == {kid};
    worlds, events, w := Next(worlds, events, w, Step(1, i));
    assert w.procs == map[0 := server, 1 := server.(init := Some(1))];
    assert w.calls == map[0 := done, 1 := Call(1, Finished(kid))];
  }

  lemma SecondMarks(kid: Kid) returns (worlds: seq<World>, events: seq<Event>, w: World)
    ensures Ends(worlds, events, w)
    ensures && w.table == map[kid := Row(kid)] && 0 in w.procs && w.procs[0] == ServerProcess(kid)
            && 1 in w.procs && w.procs[1].alive
            && w.calls == map[0 := Call(0, Finished(kid)), 1 := Call(1, Finished(kid)), 2 := Call(1, Retiring(kid, 0))]
  {
    hide Ends;
    worlds, events, w := SecondInit(kid);
    worlds, events, w := Next(worlds, events, w, StartRotate(2, 1));
    worlds, events, w := Next(worlds, events, w, Step(2, Input(0, kid, kid, kid)));
  }

  lemma SecondInserts(first: Kid, later: Kid) returns (worlds: seq<World>, events: seq<Event>, w: World)
    requires first != later
    ensures Ends(worlds, events, w)
    ensures && w.table.Keys == {first} && K.ActiveKids(w.table) == {}
            && 0 in w.procs && w.procs[0] == ServerProcess(first) && 1 in w.procs && w.procs[1].alive
            && w.calls == map[0 := Call(0, Finished(first)), 1 := Call(1, Finished(first)),
                              2 := Call(1, Inserting(Row(later)))]
  {
    hide Ends;
    var i := Input(0, later, first, first);
    worlds, events, w := SecondMarks(first);
    K.RetiredRows(w.table, {first}, 0);
    worlds, events, w := Next(worlds, events, w, Step(2, i));
    hide K.Retired, K.ActiveKids;
    worlds, events, w := Next(worlds, events, w, Step(2, i));
  }

  // -------------------------------------------------------------- first boot

  /** With no explicit rotation there is nobody who would retire a row. */
  ghost predicate Peaceful(table: K.Rows, task: Task) {
    match task
    case Listed(s) => K.ActiveKids(s) <= K.ActiveKids(table)
    case Healing(_, _, _, _, _) => false
    case Healed(_, _, _) => false
    case Begin => false
    case Retiring(_, _) => false
    case Inserted(rec) => rec.kid in K.ActiveKids(table)
    case Relisted(s) => K.ActiveKids(s) <= K.ActiveKids(table)
    case Finished(k) => k in K.ActiveKids(table)
    case _ => true
  }

  /** The one `init` of a process, and what it has settled on. */
  ghost predicate Memoised(w: World, c: nat)
    requires c in w.calls
  {
    && w.calls[c].pid in w.procs
    && var p := w.procs[w.calls[c].pid];
    && (!w.calls[c].task.Failed? ==> p.init == Some(c))
    && (w.calls[c].task.Finished? ==> p.active == Some(w.calls[c].task.kid))
  }

  ghost predicate Booting(w: World) {
    && OneActive(w.table)
    && (forall c | c in w.calls :: Peaceful(w.table, w.calls[c].task) && Memoised(w, c))
    && (forall pid | pid in w.procs :: w.procs[pid].init.Some? ==>
          w.procs[pid].init.value in w.calls && w.calls[w.procs[pid].init.value].pid == pid)
  }

  lemma PeacefulAct(table: K.Rows, p: Process, task: Task, i: Input)
    requires Possible(table, task, i) && OneActive(table) && Peaceful(table, task)
    ensures var f := Act(table, p, task, i);
            && K.ActiveKids(table) <= K.ActiveKids(f.table) && Peaceful(f.table, f.task)
            && (f.task.Finished? ==> f.proc.active == Some(f.task.kid))
            && f.proc.init == p.init
  {
    if task.Listed? && K.ActiveKids(task.snapshot) != {} {
      assert K.ActiveKids(task.snapshot) - {i.pick} == {};
    }
  }

  lemma PeacefulKept(table: K.Rows, table': K.Rows, task: Task)
    requires Peaceful(table, task) && K.ActiveKids(table) <= K.ActiveKids(table')
    ensures Peaceful(table', task)
  {
  }

  lemma BootStep(w: World, c: nat, i: Input)
    requires Booting(w) && Legal(w, Step(c, i))
    ensures Booting(After(w, Step(c, i)))
  {
    hide Act, Possible, OneActive, Peaceful;
    var pid := w.calls[c].pid;
    var p, task := w.procs[pid], w.calls[c].task;
    var f := Act(w.table, p, task, i);
    var w' := After(w, Step(c, i));
    ActOneActive(w.table, p, task, i);
    PeacefulAct(w.table, p, task, i);
    forall d | d in w'.calls ensures Peaceful(w'.table, w'.calls[d].task) && Memoised(w', d) {
      if d != c {
        PeacefulKept(w.table, w'.table, w.calls[d].task);
        assert Memoised(w, d) && Memoised(w, c);
      }
    }
  }

  lemma {:induction false} BootRun(worlds: seq<World>, events: seq<Event>, n: nat)
    requires Run(worlds, events) && n < |worlds| && K.ActiveKids(worlds[0].table) == {}
    requires forall i | 0 <= i < n :: !events[i].StartRotate?
    ensures Booting(worlds[n])
  {
    if n > 0 {
      BootRun(worlds, events, n - 1);
      RunStep(worlds, events, n - 1);
      hide Act, Possible, OneActive, Run, Newest;
      var w, e := worlds[n - 1], events[n - 1];
      if e.Step? {
        BootStep(w, e.call, e.input);
      } else {
        BootOther(w, e);
      }
    }
  }

  lemma BootOther(w: World, e: Event)
    requires Booting(w) && Legal(w, e) && !e.Step? && !e.StartRotate?
    ensures Booting(After(w, e))
  {
    hide Act, Possible, OneActive;
    var w' := After(w, e);
    forall d | d in w'.calls ensures Peaceful(w'.table, w'.calls[d].task) && Memoised(w', d) {
      if d in w.calls { assert Memoised(w, d) && Peaceful(w.table, w.calls[d].task); }
    }
  }

  /** Any number of processes booting on a table with no active row, dying or failing
      anywhere, and nobody rotating explicitly: all whose `init` has completed, when
      ever it did, hold the same key, and it is the one active row. */
  lemma FirstBootAgrees(worlds: seq<World>, events: seq<Event>, i: nat, j: nat, c: nat, d: nat)
    requires Run(worlds, events) && i <= j < |worlds| && K.ActiveKids(worlds[0].table) == {}
    requires forall n | 0 <= n < j :: !events[n].StartRotate?
    requires c in worlds[i].calls && worlds[i].calls[c].task.Finished?
    requires d in worlds[j].calls && worlds[j].calls[d].task.Finished?
    ensures var k := worlds[j].calls[d].task.kid;
            && worlds[i].calls[c].task.kid == k && K.ActiveKids(worlds[j].table) == {k}
            && var pid := worlds[j].calls[d].pid;
               pid in worlds[j].procs && worlds[j].procs[pid].active == Some(k) && k in worlds[j].procs[pid].keys
  {
    hide Run, Act, Possible, TaskLoaded;
    BootRun(worlds, events, j);
    ActiveIsLoaded(worlds, events, j);
    FinishedStays(worlds, events, i, j, c);
    assert Memoised(worlds[j], d);
  }

  lemma {:induction false} FinishedStays(worlds: seq<World>, events: seq<Event>, i: nat, j: nat, c: nat)
    requires Run(worlds, events) && i <= j < |worlds| && c in worlds[i].calls && worlds[i].calls[c].task.Finished?
    ensures c in worlds[j].calls && worlds[j].calls[c] == worlds[i].calls[c]
    decreases j
  {
    if i < j {
      FinishedStays(worlds, events, i, j - 1, c);
      RunStep(worlds, events, j - 1);
      hide Act, Possible, Run;
    }
  }
}
