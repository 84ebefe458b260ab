/** The jti replay guards: a table from a replay key to an expiry time.

    Both adapters forget: the memory one sweeps and is capped, the PostgreSQL one
    reaps. A run is the sequence of table states with the events between them;
    `Remembered` is the reference that never forgets an accepted registration. */
module ReplayStore {
  import opened Base
  import Text

  type Rows<K> = map<K, int>

  /** One table access. `accepted` is what `register` answered. */
  datatype Event<K> =
    | Reap(now: Ms)
    | Register(key: K, expiresAt: int, now: Ms, accepted: bool)
  {
    ghost predicate Accepts(k: K) { Register? && accepted && key == k }
  }

  predicate Live<K(==)>(rows: Rows<K>, key: K, now: int) {
    key in rows && rows[key] > now
  }

  /** All that the single-use argument needs of a store: at any access expired
      rows may vanish, a live row stays as it is, a live row is never
      overwritten, and an accepted key is written down. Refusals are free. */
  ghost predicate Next<K(!new)>(rows: Rows<K>, e: Event<K>, rows': Rows<K>) {
    && (forall k | k in rows && rows[k] > e.now && !e.Accepts(k) :: k in rows')
    && (forall k | k in rows' && !e.Accepts(k) :: k in rows && rows'[k] == rows[k])
    && (e.Register? && e.accepted ==>
          !Live(rows, e.key, e.now) && e.key in rows' && rows'[e.key] == e.expiresAt)
  }

  ghost predicate Run<K(!new)>(states: seq<Rows<K>>, events: seq<Event<K>>) {
    && |states| == |events| + 1
    && states[0] == map[]
    && forall i | 0 <= i < |events| :: Next(states[i], events[i], states[i + 1])
  }

  /** The reference: some earlier registration of the key was accepted and has
      not reached its expiry. */
  ghost predicate Remembered<K(!new)>(events: seq<Event<K>>, key: K, now: int) {
    exists i | 0 <= i < |events| :: events[i].Accepts(key) && events[i].expiresAt > now
  }

  /** No reading so far is ahead of `now`. */
  ghost predicate ClockBy<K(!new)>(events: seq<Event<K>>, now: int) {
    forall k | 0 <= k < |events| :: events[k].now <= now
  }

  /** Readings of the clock come out of order by at most `disorder` ms. */
  ghost predicate OrderedWithin<K(!new)>(events: seq<Event<K>>, disorder: int) {
    forall i, j | 0 <= i < j < |events| :: events[i].now <= events[j].now + disorder
  }

  /** While every clock reading stays below an accepted expiry, the row is there. */
  lemma {:induction false} RowStays<K(!new)>(states: seq<Rows<K>>, events: seq<Event<K>>, i: nat, n: nat)
    requires Run(states, events) && i < n <= |events|
    requires events[i].Register? && events[i].accepted
    requires forall k | i < k < n :: events[k].now < events[i].expiresAt
    ensures events[i].key in states[n] && states[n][events[i].key] == events[i].expiresAt
  {
    if i + 1 < n {
      RowStays(states, events, i, n - 1);
      assert Next(states[n - 1], events[n - 1], states[n]);
    } else {
      assert Next(states[i], events[i], states[n]);
    }
  }

  /** A row is always the trace of an accepted registration. */
  lemma {:induction false} RowBacked<K(!new)>(states: seq<Rows<K>>, events: seq<Event<K>>, n: nat, key: K)
    requires Run(states, events) && n <= |events| && key in states[n]
    ensures exists i | 0 <= i < n :: events[i].Accepts(key) && events[i].expiresAt == states[n][key]
  {
    assert n > 0;
    assert Next(states[n - 1], events[n - 1], states[n]);
    if !events[n - 1].Accepts(key) {
      RowBacked(states, events, n - 1, key);
    }
  }

  /** A store that forgets expired rows answers like one that never forgets, as
      long as the clock does not run backwards. */
  lemma ForgettingRefinesRemembering<K(!new)>(states: seq<Rows<K>>, events: seq<Event<K>>, n: nat, key: K, now: int)
    requires Run(states, events) && n <= |events|
    requires ClockBy(events[..n], now)
    ensures Live(states[n], key, now) <==> Remembered(events[..n], key, now)
  {
    if Live(states[n], key, now) {
      RowBacked(states, events, n, key);
      var i :| 0 <= i < n && events[i].Accepts(key) && events[i].expiresAt == states[n][key];
      assert events[..n][i].Accepts(key);
    }
    if Remembered(events[..n], key, now) {
      var i :| 0 <= i < n && events[..n][i].Accepts(key) && events[..n][i].expiresAt > now;
      assert forall k | i < k < n :: events[k] == events[..n][k];
      RowStays(states, events, i, n);
    }
  }

  // ---------------------------------------------------------------- memory

  const SWEEP_SIZE := 4096
  const SWEEP_GAP_MS := 1000
  const CAP := 8192
  const NUL: char := 0 as char

  /** `${context}\u0000${jti}` */
  function JoinKey(context: string, id: string): string { context + [NUL] + id }

  /** Replay ids are base64url text and so free of NUL, whatever the context holds. */
  lemma JoinKeyInjective(context: string, id: string, context': string, id': string)
    requires NUL !in id && NUL !in id'
    requires JoinKey(context, id) == JoinKey(context', id')
    ensures context == context' && id == id'
  {
    Text.JoinInjectiveRight(context, id, context', id', NUL);
  }

  function Unexpired<K(==)>(rows: Rows<K>, now: int): Rows<K> {
    map k | k in rows && rows[k] > now :: rows[k]
  }

  predicate SweepDue(size: nat, lastSweepMs: int, now: int) {
    size >= SWEEP_SIZE && now - lastSweepMs >= SWEEP_GAP_MS
  }

  class MemoryJtiReplay {
    var rows: Rows<string>
    var lastSweepMs: int
    ghost var past: seq<Rows<string>>
    ghost var log: seq<Event<string>>

    /** The object's whole history is a run of the abstract store. */
    ghost predicate Valid()
      reads this
    {
      && Run(past, log)
      && past[|log|] == rows
      && |rows| <= CAP
    }

    constructor ()
      ensures Valid() && rows == map[] && log == []
    {
      rows := map[];
      lastSweepMs := 0;
      past := [map[]];
      log := [];
    }

    /** The rows left once the sweep that this call would do is done. */
    ghost function AfterSweep(now: int): Rows<string>
      reads this
    {
      if SweepDue(|rows|, lastSweepMs, now) then Unexpired(rows, now) else rows
    }

    method Sweep(now: Ms)
      modifies this`rows, this`lastSweepMs
      ensures rows == old(AfterSweep(now))
      ensures lastSweepMs == if SweepDue(|old(rows)|, old(lastSweepMs), now) then now else old(lastSweepMs)
    {
      if SweepDue(|rows|, lastSweepMs, now) {
        lastSweepMs := now;
        var todo := rows.Keys;
        while todo != {}
          invariant todo <= old(rows).Keys && lastSweepMs == now
          invariant rows == map k | k in old(rows) && (k in todo || old(rows)[k] > now) :: old(rows)[k]
          decreases todo
        {
          var key :| key in todo;
          if rows[key] <= now {
            rows := rows - {key};
          }
          todo := todo - {key};
        }
      }
    }

    /** Refused exactly when the table is full after its sweep or the key is
        live; a refusal leaves the swept table, an acceptance adds one row.
        While the clock does not run backwards the answer is, below the cap,
        that of the store that never forgets; at the cap it only refuses more. */
    method Register(context: string, id: string, expiresAt: int, now: Ms) returns (ok: bool)
      requires Valid()
      modifies this
      ensures Valid()
      ensures ok <==> |old(AfterSweep(now))| < CAP && !Live(old(rows), JoinKey(context, id), now)
      ensures rows == if ok then old(AfterSweep(now))[JoinKey(context, id) := expiresAt] else old(AfterSweep(now))
      ensures log == old(log) + [Event.Register(JoinKey(context, id), expiresAt, now, ok)]
      ensures past == old(past) + [rows]
      // A refusal for want of room: all rows are live, or the last sweep was within a second.
      ensures !ok && !Live(old(rows), JoinKey(context, id), now) ==>
                |rows| >= CAP && (now - old(lastSweepMs) < 1000 || forall k | k in rows :: rows[k] > now)
      ensures ClockBy(old(log), now) && ok ==> !Remembered(old(log), JoinKey(context, id), now)
      ensures ClockBy(old(log), now) && |old(AfterSweep(now))| < CAP ==>
                (ok <==> !Remembered(old(log), JoinKey(context, id), now))
    {
      var key := JoinKey(context, id);
      if ClockBy(log, now) {
        ForgettingRefinesRemembering(past, log, |log|, key, now);
        assert log[..|log|] == log;
      }
      ok := Enter(key, expiresAt, now);
      hide Next, Remembered, ClockBy, Live;
      var e := Event.Register(key, expiresAt, now, ok);
      RunLonger(past, log, e, rows);
      log := log + [e];
      past := past + [rows];
    }

    /** Sweep, cap, and the row itself. */
    method Enter(key: string, expiresAt: int, now: Ms) returns (ok: bool)
      requires |rows| <= CAP
      modifies this`rows, this`lastSweepMs
      ensures ok <==> |old(AfterSweep(now))| < CAP && !Live(old(rows), key, now)
      ensures rows == if ok then old(AfterSweep(now))[key := expiresAt] else old(AfterSweep(now))
      ensures |rows| <= CAP && Next(old(rows), Event.Register(key, expiresAt, now, ok), rows)
    {
      Sweep(now);
      SubmapSize(rows, old(rows));
      if |rows| >= CAP {
        return false;
      }
      if key in rows && rows[key] > now {
        return false;
      }
      assert rows[key := expiresAt].Keys == rows.Keys + {key};
      rows := rows[key := expiresAt];
      return true;
    }
  }

  /** The rows of `n` registrations that have not expired. */
  ghost predicate FilledBy(rows: Rows<string>, context: string, n: nat, expiresAt: int) {
    && |rows| == n
    && forall k | k in rows :: rows[k] == expiresAt && exists j: nat :: j < n && k == JoinKey(context, Text.Decimal(j))
  }

  lemma SameContext(context: string, id: string, id': string)
    requires JoinKey(context, id) == JoinKey(context, id')
    ensures id == id'
  {
    assert JoinKey(context, id)[|context| + 1..] == id && JoinKey(context, id')[|context| + 1..] == id';
  }

  lemma NextIsNew(rows: Rows<string>, context: string, n: nat, expiresAt: int, now: int)
    requires FilledBy(rows, context, n, expiresAt) && expiresAt > now
    ensures |rows| == n && JoinKey(context, Text.Decimal(n)) !in rows && Unexpired(rows, now) == rows
  {
    hide JoinKey, Text.Decimal;
    if JoinKey(context, Text.Decimal(n)) in rows {
      var j: nat :| j < n && JoinKey(context, Text.Decimal(n)) == JoinKey(context, Text.Decimal(j));
      SameContext(context, Text.Decimal(n), Text.Decimal(j));
      Text.DecimalInjective(n, j);
    }
  }

  lemma OneMore(rows: Rows<string>, context: string, n: nat, expiresAt: int)
    requires FilledBy(rows, context, n, expiresAt) && JoinKey(context, Text.Decimal(n)) !in rows
    ensures FilledBy(rows[JoinKey(context, Text.Decimal(n)) := expiresAt], context, n + 1, expiresAt)
  {
    hide JoinKey, Text.Decimal;
    var key := JoinKey(context, Text.Decimal(n));
    var more := rows[key := expiresAt];
    assert more.Keys == rows.Keys + {key} && |more| == |more.Keys| && |rows| == |rows.Keys|;
    forall k | k in more ensures exists j: nat :: j < n + 1 && k == JoinKey(context, Text.Decimal(j)) {
      if k == key {
        assert n < n + 1;
      } else {
        var j: nat :| j < n && k == JoinKey(context, Text.Decimal(j));
        assert j < n + 1;
      }
    }
  }

  lemma NoneYet(context: string, expiresAt: int)
    ensures FilledBy(map[], context, 0, expiresAt)
  {
  }

  /** A history that fills the memory guard: as many fresh registrations as it has room
      for, and one more, which it refuses though nothing like it was ever registered. */
  method CapReached(context: string, expiresAt: int, now: Ms) returns (store: MemoryJtiReplay, ok: bool)
    requires expiresAt > now
    ensures fresh(store) && store.Valid() && |store.log| == CAP + 1 && !ok
    ensures forall i | 0 <= i < CAP :: store.log[i].Register? && store.log[i].accepted && store.log[i].now == now
    ensures var key := JoinKey(context, Text.Decimal(CAP));
            && store.log[CAP] == Event.Register(key, expiresAt, now, false)
            && !Remembered(store.log[..CAP], key, now)
  {
    hide FilledBy, JoinKey, Text.Decimal, Remembered, Run;
    store := new MemoryJtiReplay();
    var n: nat := 0;
    assert FilledBy(map[], context, 0, expiresAt) by { NoneYet(context, expiresAt); }
    while n < CAP
      invariant n <= CAP && fresh(store) && store.Valid() && |store.log| == n
      invariant FilledBy(store.rows, context, n, expiresAt)
      invariant forall i | 0 <= i < n :: store.log[i].Register? && store.log[i].accepted && store.log[i].now == now
    {
      NextIsNew(store.rows, context, n, expiresAt, now);
      OneMore(store.rows, context, n, expiresAt);
      var _ := store.Register(context, Text.Decimal(n), expiresAt, now);
      n := n + 1;
    }
    NextIsNew(store.rows, context, n, expiresAt, now);
    var key := JoinKey(context, Text.Decimal(n));
    assert !Remembered(store.log, key, now) by {
      assert store.log[..n] == store.log;
      ForgettingRefinesRemembering(store.past, store.log, n, key, now);
    }
    ghost var before := store.log;
    ok := store.Register(context, Text.Decimal(n), expiresAt, now);
    assert store.log[..CAP] == before;
  }

  lemma RunLonger<K(!new)>(states: seq<Rows<K>>, events: seq<Event<K>>, e: Event<K>, rows: Rows<K>)
    requires Run(states, events) && Next(states[|events|], e, rows)
    ensures Run(states + [rows], events + [e])
  {
    hide Next;
    var s, v := states + [rows], events + [e];
    forall i | 0 <= i < |v| ensures Next(s[i], v[i], s[i + 1]) {
      if i < |events| {
        assert s[i] == states[i] && v[i] == events[i] && s[i + 1] == states[i + 1];
      }
    }
  }

  // ------------------------------------------------------------ PostgreSQL

  /** The primary key of table jti_replay. */
  datatype Key = Key(context: string, id: string)

  /** The reaping DELETE takes any of the expired rows; the upsert claims the slot
      unless a live row holds it. Each is one statement, so calls interleave
      between them. */
  ghost predicate PgNext(rows: Rows<Key>, e: Event<Key>, rows': Rows<Key>) {
    match e
    case Reap(now) =>
      && (forall k | k in rows && rows[k] > now :: k in rows')
      && (forall k | k in rows' :: k in rows && rows'[k] == rows[k])
    case Register(key, expiresAt, now, accepted) =>
      && accepted == !Live(rows, key, now)
      && rows' == if accepted then rows[key := expiresAt] else rows
  }

  ghost predicate PgRun(states: seq<Rows<Key>>, events: seq<Event<Key>>) {
    && |states| == |events| + 1
    && states[0] == map[]
    && forall i | 0 <= i < |events| :: PgNext(states[i], events[i], states[i + 1])
  }

  lemma PgRunIsRun(states: seq<Rows<Key>>, events: seq<Event<Key>>)
    requires PgRun(states, events)
    ensures Run(states, events)
  {
    forall i | 0 <= i < |events| ensures Next(states[i], events[i], states[i + 1]) {
      assert PgNext(states[i], events[i], states[i + 1]);
    }
  }

  /** However the reaps fall, a PostgreSQL registration is accepted exactly when
      the never-forgetting reference would accept it. */
  lemma PgAgreesWithReference(states: seq<Rows<Key>>, events: seq<Event<Key>>, j: nat)
    requires PgRun(states, events) && j < |events| && events[j].Register?
    requires ClockBy(events[..j], events[j].now)
    ensures events[j].accepted <==> !Remembered(events[..j], events[j].key, events[j].now)
  {
    PgRunIsRun(states, events);
    ForgettingRefinesRemembering(states, events, j, events[j].key, events[j].now);
    assert PgNext(states[j], events[j], states[j + 1]);
  }

  class PgJtiReplay {
    var table: Rows<Key>
    ghost var past: seq<Rows<Key>>
    ghost var log: seq<Event<Key>>

    ghost predicate Valid()
      reads this
    {
      PgRun(past, log) && past[|log|] == table
    }

    constructor ()
      ensures Valid() && table == map[] && log == []
    {
      table := map[];
      past := [map[]];
      log := [];
    }

    /** `delete ... where expires_at <= now limit 1000`: which rows is the
        database's choice, here `victims`. */
    method Delete(victims: set<Key>, now: Ms)
      requires Valid()
      requires forall k | k in victims :: k in table && table[k] <= now
      requires |victims| <= 1000
      modifies this
      ensures Valid()
      ensures table == old(table) - victims
      ensures log == old(log) + [Reap(now)]
    {
      table := table - victims;
      log := log + [Reap(now)];
      past := past + [table];
      assert PgNext(old(table), log[|old(log)|], table);
    }

    method Upsert(key: Key, expiresAt: int, now: Ms) returns (rowCount: nat)
      requires Valid()
      modifies this
      ensures Valid()
      ensures rowCount == if Live(old(table), key, now) then 0 else 1
      ensures table == if Live(old(table), key, now) then old(table) else old(table)[key := expiresAt]
      ensures log == old(log) + [Event.Register(key, expiresAt, now, rowCount == 1)]
    {
      if key !in table || table[key] <= now {
        table := table[key := expiresAt];
        rowCount := 1;
      } else {
        rowCount := 0;
      }
      log := log + [Event.Register(key, expiresAt, now, rowCount == 1)];
      past := past + [table];
      assert PgNext(old(table), log[|old(log)|], table);
    }

    /** `reap` is the outcome of the 1% draw. */
    method Register(context: string, id: string, expiresAt: int, now: Ms, reap: bool, victims: set<Key>)
      returns (ok: bool)
      requires Valid()
      requires forall k | k in victims :: k in table && table[k] <= now
      requires |victims| <= 1000
      modifies this
      ensures Valid()
      ensures ok <==> !Live(old(table), Key(context, id), now)
      ensures log == old(log) + (if reap then [Reap(now)] else [])
                     + [Event.Register(Key(context, id), expiresAt, now, ok)]
    {
      if reap {
        Delete(victims, now);
      }
      var rowCount := Upsert(Key(context, id), expiresAt, now);
      ok := rowCount == 1;
    }
  }
}
