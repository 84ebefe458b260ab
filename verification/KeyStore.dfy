/** The signing keystore of one process over the in-memory repository: loading and
    healing the table, rotation, and how long a retired key stays published. */
module KeyStore {
  import opened Base

  type Kid = string

  /** A signing_keys row; the key material plays no part. */
  datatype Key = Key(kid: Kid, active: bool, createdAt: int, retiredAt: Option<int>)

  type Rows = map<Kid, Key>

  ghost predicate Keyed(rows: Rows) { forall k | k in rows :: rows[k].kid == k }

  function ActiveKids(rows: Rows): set<Kid> { set k | k in rows && rows[k].active }

  /** The rows with these kids retired at this time. */
  function Retired(rows: Rows, kids: set<Kid>, at: int): Rows {
    map k | k in rows :: if k in kids then rows[k].(active := false, retiredAt := Some(at)) else rows[k]
  }

  lemma RetiredRows(rows: Rows, kids: set<Kid>, at: int)
    ensures ActiveKids(Retired(rows, kids, at)) == ActiveKids(rows) - kids && Retired(rows, kids, at).Keys == rows.Keys
    ensures Keyed(rows) ==> Keyed(Retired(rows, kids, at))
  {
  }

  lemma InsertedActive(rows: Rows, rec: Key)
    requires ActiveKids(rows) == {} && rec.active
    ensures ActiveKids(rows[rec.kid := rec]) == {rec.kid}
  {
    var after := rows[rec.kid := rec];
    assert forall k | k in after && k != rec.kid :: after[k].active ==> k in ActiveKids(rows);
  }

  predicate NoTwice(s: seq<Key>) { forall i, j :: 0 <= i < j < |s| ==> s[i].kid != s[j].kid }

  /** Each row once. */
  ghost predicate Lists(s: seq<Key>, rows: Rows) {
    && NoTwice(s)
    && (forall k | k in rows :: rows[k] in s)
    && (forall x | x in s :: x.kid in rows && rows[x.kid] == x)
  }

  class MemorySigningKeys {
    var rows: Rows

    constructor (initial: Rows)
      ensures rows == initial
    {
      rows := initial;
    }

    method List() returns (r: seq<Key>)
      requires Keyed(rows)
      ensures Lists(r, rows)
    {
      r := [];
      var todo := rows.Keys;
      while todo != {}
        invariant todo <= rows.Keys
        invariant NoTwice(r)
        invariant forall k | k in rows && k !in todo :: rows[k] in r
        invariant forall x | x in r :: x.kid in rows && x.kid !in todo && rows[x.kid] == x
        decreases todo
      {
        var kid :| kid in todo;
        assert forall i | 0 <= i < |r| :: r[i] in r;
        r := r + [rows[kid]];
        todo := todo - {kid};
      }
    }

    /** A second active row is a unique violation, as with the partial index. */
    method Insert(rec: Key) returns (inserted: bool)
      modifies this
      ensures inserted <==> !rec.active || ActiveKids(old(rows)) == {}
      ensures rows == if inserted then old(rows)[rec.kid := rec] else old(rows)
    {
      if rec.active {
        var todo := rows.Keys;
        while todo != {}
          invariant rows == old(rows) && todo <= rows.Keys && forall k | k in rows && k !in todo :: !rows[k].active
          decreases todo
        {
          var kid :| kid in todo;
          if rows[kid].active {
            assert kid in ActiveKids(rows);
            return false;
          }
          todo := todo - {kid};
        }
      }
      rows := rows[rec.kid := rec];
      return true;
    }

    method Retire(kid: Kid, at: int)
      modifies this
      ensures rows == Retired(old(rows), {kid}, at)
    {
      if kid in rows {
        rows := rows[kid := rows[kid].(active := false, retiredAt := Some(at))];
      }
    }
  }

  // ------------------------------------------------------------ newest last

  predicate ByCreation(s: seq<Key>) { forall i, j :: 0 <= i <= j < |s| ==> s[i].createdAt <= s[j].createdAt }

  function KidsOf(s: seq<Key>): set<Kid> { set x | x in s :: x.kid }

  /** After any that are as old. */
  function Place(s: seq<Key>, x: Key): (r: seq<Key>)
    requires ByCreation(s)
    ensures ByCreation(r) && multiset(r) == multiset(s) + multiset{x}
    ensures |r| == |s| + 1 && r[|s|] == if s == [] || s[|s| - 1].createdAt <= x.createdAt then x else s[|s| - 1]
  {
    if s == [] || s[|s| - 1].createdAt <= x.createdAt then
      Last(s, x);
      s + [x]
    else
      var init, last := s[..|s| - 1], s[|s| - 1];
      assert s == init + [last];
      var r := Place(init, x);
      Last(r, last);
      r + [last]
  }

  lemma Last(s: seq<Key>, x: Key)
    requires ByCreation(s) && (s == [] || s[|s| - 1].createdAt <= x.createdAt)
    ensures ByCreation(s + [x])
  {
  }

  function SortByCreation(s: seq<Key>): (r: seq<Key>)
    ensures multiset(r) == multiset(s) && ByCreation(r)
  {
    if s == [] then []
    else
      assert s == s[..|s| - 1] + [s[|s| - 1]];
      Place(SortByCreation(s[..|s| - 1]), s[|s| - 1])
  }

  function Actives(s: seq<Key>): seq<Key> {
    if s == [] then [] else Actives(s[..|s| - 1]) + (if s[|s| - 1].active then [s[|s| - 1]] else [])
  }

  lemma {:induction false} ActivesOf(s: seq<Key>)
    requires NoTwice(s)
    ensures NoTwice(Actives(s)) && forall x :: x in Actives(s) <==> x in s && x.active
  {
    if s != [] {
      var init, last := s[..|s| - 1], s[|s| - 1];
      ActivesOf(init);
      assert s == init + [last];
      forall i | 0 <= i < |Actives(init)| ensures Actives(init)[i].kid != last.kid {
        assert Actives(init)[i] in init;
      }
    }
  }

  /** Reordering brings in no second copy of a kid. */
  lemma NoTwiceReordered(s: seq<Key>, r: seq<Key>)
    requires NoTwice(s) && multiset(r) == multiset(s)
    ensures NoTwice(r) && forall x :: x in r <==> x in s
  {
    assert forall x :: x in r <==> x in multiset(r);
    assert forall x :: x in s <==> x in multiset(s);
    if i, j :| 0 <= i < j < |r| && r[i].kid == r[j].kid {
      assert r[i] in s && r[j] in s;
      var a :| 0 <= a < |s| && s[a] == r[i];
      var b :| 0 <= b < |s| && s[b] == r[j];
      assert r[i] == r[j];
      Counted(r, i, j);
      CountedOnce(s, r[i]);
      assert false;
    }
  }

  lemma Counted(r: seq<Key>, i: nat, j: nat)
    requires i < j < |r| && r[i] == r[j]
    ensures multiset(r)[r[i]] >= 2
  {
    assert r == r[..j] + [r[j]] + r[j + 1..];
    assert r[i] in r[..j];
  }

  lemma {:induction false} CountedOnce(s: seq<Key>, x: Key)
    requires NoTwice(s)
    ensures multiset(s)[x] <= 1
  {
    if s != [] {
      assert s == s[..|s| - 1] + [s[|s| - 1]];
      CountedOnce(s[..|s| - 1], x);
      assert s[|s| - 1] == x ==> x !in s[..|s| - 1];
    }
  }

  /** The active rows, oldest first: all there are, the newest last and not twice. */
  lemma SortedActives(listed: seq<Key>, rows: Rows, s: seq<Key>)
    requires Keyed(rows) && Lists(listed, rows) && s == SortByCreation(Actives(listed))
    ensures NoTwice(s) && forall x :: x in s <==> x.kid in rows && rows[x.kid] == x && x.active
    ensures KidsOf(s) == ActiveKids(rows)
  {
    ActivesOf(listed);
    NoTwiceReordered(Actives(listed), s);
    hide SortByCreation, Actives, NoTwice;
    forall k | k in ActiveKids(rows) ensures k in KidsOf(s) {
      assert rows[k] in s;
    }
  }

  lemma NewestIsLast(rows: Rows, s: seq<Key>)
    requires Keyed(rows) && NoTwice(s) && ByCreation(s) && s != [] && KidsOf(s) == ActiveKids(rows)
    requires forall x | x in s :: x.kid in rows && rows[x.kid] == x
    ensures var last := s[|s| - 1];
            && last.kid in ActiveKids(rows)
            && KidsOf(s[..|s| - 1]) == ActiveKids(rows) - {last.kid}
            && forall k | k in ActiveKids(rows) :: rows[k].createdAt <= last.createdAt
  {
    var init, last := s[..|s| - 1], s[|s| - 1];
    assert s == init + [last] && last in s;
    forall k | k in KidsOf(init) ensures k in KidsOf(s) && k != last.kid {
      var x :| x in init && x.kid == k;
      assert x in s;
    }
    forall k | k in KidsOf(s) ensures rows[k].createdAt <= last.createdAt && (k != last.kid ==> k in KidsOf(init)) {
      var x :| x in s && x.kid == k;
    }
  }

  /** The rows with these retired one after the other, each at its own reading of the clock. */
  function RetiredEach(rows: Rows, stale: seq<Key>, clock: nat -> Ms): Rows {
    if stale == [] then rows
    else
      var n := |stale| - 1;
      Retired(RetiredEach(rows, stale[..n], clock), {stale[n].kid}, clock(n))
  }

  lemma {:induction false} RetiredEachRows(rows: Rows, stale: seq<Key>, clock: nat -> Ms)
    ensures var r := RetiredEach(rows, stale, clock);
            && r.Keys == rows.Keys && ActiveKids(r) == ActiveKids(rows) - KidsOf(stale) && (Keyed(rows) ==> Keyed(r))
  {
    if stale != [] {
      var n := |stale| - 1;
      var init, last := stale[..n], stale[n];
      assert stale == init + [last];
      assert KidsOf(stale) == KidsOf(init) + {last.kid};
      hide Retired, ActiveKids, Keyed, KidsOf;
      RetiredEachRows(rows, init, clock);
      RetiredRows(RetiredEach(rows, init, clock), {last.kid}, clock(n));
    }
  }

  lemma {:induction false} OthersUntouched(rows: Rows, stale: seq<Key>, clock: nat -> Ms, k: Kid)
    requires k in rows && forall i | 0 <= i < |stale| :: stale[i].kid != k
    ensures k in RetiredEach(rows, stale, clock) && RetiredEach(rows, stale, clock)[k] == rows[k]
  {
    if stale != [] {
      OthersUntouched(rows, stale[..|stale| - 1], clock, k);
    }
  }

  /** Each stale row is retired at its own reading and otherwise as it was. */
  lemma {:induction false} RetiredAt(rows: Rows, stale: seq<Key>, clock: nat -> Ms, i: nat)
    requires NoTwice(stale) && i < |stale| && stale[i].kid in rows
    ensures var k, r := stale[i].kid, RetiredEach(rows, stale, clock);
            k in r && r[k] == rows[k].(active := false, retiredAt := Some(clock(i)))
  {
    var n := |stale| - 1;
    if i == n {
      OthersUntouched(rows, stale[..n], clock, stale[n].kid);
    } else {
      RetiredAt(rows, stale[..n], clock, i);
    }
  }

  // --------------------------------------------------------------- keystore

  const RETIRED_KEY_RETENTION_MS := 24 * 3600 * 1000

  predicate Published(k: Key, now: int) {
    k.active || k.retiredAt.None? || now - k.retiredAt.value < RETIRED_KEY_RETENTION_MS
  }

  /** In the map's order, the published keys with this status. */
  function Pick(order: seq<Kid>, keys: Rows, now: int, active: bool): (r: seq<Kid>)
    ensures forall k | k in r :: k in order
  {
    if order == [] then []
    else
      var n := |order| - 1;
      var k := order[n];
      Pick(order[..n], keys, now, active)
      + if k in keys && keys[k].active == active && Published(keys[k], now) then [k] else []
  }

  predicate Once(order: seq<Kid>) { forall i, j :: 0 <= i < j < |order| ==> order[i] != order[j] }

  /** The iteration order of a map that holds exactly these keys. */
  ghost predicate Orders(order: seq<Kid>, keys: Rows) { Once(order) && forall k :: k in order <==> k in keys }

  lemma {:induction false} Picked(order: seq<Kid>, keys: Rows, now: int, active: bool)
    requires Once(order)
    ensures Once(Pick(order, keys, now, active))
    ensures forall k :: k in Pick(order, keys, now, active) <==>
              k in order && k in keys && keys[k].active == active && Published(keys[k], now)
  {
    if order != [] {
      var n := |order| - 1;
      assert order == order[..n] + [order[n]];
      Picked(order[..n], keys, now, active);
      var before := Pick(order[..n], keys, now, active);
      forall i | 0 <= i < |before| ensures before[i] != order[n] {
        assert before[i] in order[..n];
      }
    }
  }

  datatype Signature = Signature(kid: Kid, at: Ms)

  /** How the store lets one rotation down, if it does; the statement may have been
      carried out although its call fails. */
  datatype Failure = NoFailure | RetireFails(applied: bool) | InsertFails(applied: bool) | ListFails

  class KeyStore {
    const repo: MemorySigningKeys
    var keys: Rows
    /** The insertion order of `keys`. */
    var order: seq<Kid>
    var active: Option<Kid>
    /** `initPromise` is kept once it is fulfilled. */
    var initialised: bool
    /** Every signature this process has made. */
    ghost var signed: seq<Signature>

    ghost predicate Valid()
      reads this, repo
    {
      && Keyed(repo.rows) && Keyed(keys) && Orders(order, keys) && keys.Keys <= repo.rows.Keys
      && (active.Some? ==> active.value in keys)
      && (initialised ==> active.Some?)
      && (forall s | s in signed :: s.kid in keys)
    }

    constructor (repo: MemorySigningKeys)
      requires Keyed(repo.rows)
      ensures Valid() && this.repo == repo && !initialised && active.None? && signed == [] && keys == map[]
    {
      this.repo := repo;
      keys := map[];
      order := [];
      active := None;
      initialised := false;
      signed := [];
    }

    /** Whatever an earlier crash, or a table that predates the index, left
        behind: alone, `init` ends with exactly one active row, the newest of
        those there were, or a new one if there was none. The others are retired
        oldest first, each at the reading of the clock taken for it. */
    method Init(newKid: Kid, clock: nat -> Ms, now: Ms) returns (ghost stale: seq<Key>)
      requires Valid() && !initialised && newKid !in repo.rows
      modifies this, repo
      ensures Valid() && initialised && signed == old(signed)
      ensures active.Some? && ActiveKids(repo.rows) == {active.value} && keys == repo.rows
      ensures ByCreation(stale) && NoTwice(stale)
      ensures var before, was := ActiveKids(old(repo.rows)), old(repo.rows);
              if before == {} then
                active.value == newKid && repo.rows == was[newKid := Key(newKid, true, now, None)]
              else
                && active.value in before
                && (forall k | k in before :: was[k].createdAt <= was[active.value].createdAt)
                && KidsOf(stale) == before - {active.value}
                && repo.rows == RetiredEach(was, stale, clock)
    {
      var loaded, winner;
      loaded, winner, stale := LoadAndHeal(clock);
      hide ByCreation, NoTwice, RetiredEach, Orders;
      keys := loaded;
      active := winner;
      if active.None? {
        StartFresh(newKid, now);
      }
      initialised := true;
    }

    method LoadAndHeal(clock: nat -> Ms) returns (loaded: Rows, winner: Option<Kid>, ghost stale: seq<Key>)
      requires Keyed(repo.rows)
      modifies this`order, repo
      ensures loaded == repo.rows && Keyed(loaded) && loaded.Keys == old(repo.rows).Keys && Orders(order, loaded)
      ensures ByCreation(stale) && NoTwice(stale)
      ensures var before, was := ActiveKids(old(repo.rows)), old(repo.rows);
              if winner.None? then before == {} && repo.rows == was
              else
                && winner.value in before && ActiveKids(repo.rows) == {winner.value}
                && (forall k | k in before :: was[k].createdAt <= was[winner.value].createdAt)
                && KidsOf(stale) == before - {winner.value}
                && repo.rows == RetiredEach(was, stale, clock)
    {
      var actives;
      loaded, actives := Load();
      if actives == [] {
        stale := [];
        return loaded, None, stale;
      }
      NewestIsLast(repo.rows, actives);
      stale := actives[..|actives| - 1];
      assert ByCreation(stale) && NoTwice(stale);
      hide ByCreation, NoTwice, Retired, RetiredEach, Orders, Keyed;
      loaded := Heal(loaded, actives, clock);
      RetiredEachRows(old(repo.rows), stale, clock);
      SameOrder(order, old(repo.rows), loaded);
      winner := Some(actives[|actives| - 1].kid);
    }

    /** `rotate` with no key to retire. */
    method StartFresh(newKid: Kid, now: Ms)
      requires Valid() && active.None? && newKid !in repo.rows && ActiveKids(repo.rows) == {} && keys == repo.rows
      modifies this, repo
      ensures Valid() && active == Some(newKid) && signed == old(signed) && initialised == old(initialised)
      ensures repo.rows == old(repo.rows)[newKid := Key(newKid, true, now, None)] && keys == repo.rows
      ensures ActiveKids(repo.rows) == {newKid}
    {
      assert Retired(repo.rows, {}, now) == repo.rows;
      var kid := Rotate(newKid, now, now, NoFailure);
    }

    /** The rows as a map, in the order listed, and the active ones oldest first. */
    method Load() returns (loaded: Rows, actives: seq<Key>)
      requires Keyed(repo.rows)
      modifies this`order
      ensures loaded == repo.rows && Orders(order, loaded)
      ensures NoTwice(actives) && ByCreation(actives) && KidsOf(actives) == ActiveKids(repo.rows)
      ensures forall x | x in actives :: x.kid in repo.rows && repo.rows[x.kid] == x
    {
      var listed := repo.List();
      loaded := LoadRows(listed);
      actives := SortByCreation(Actives(listed));
      SortedActives(listed, repo.rows, actives);
    }

    method LoadRows(listed: seq<Key>) returns (loaded: Rows)
      requires Keyed(repo.rows) && Lists(listed, repo.rows)
      modifies this`order
      ensures loaded == repo.rows && Orders(order, loaded)
    {
      hide NoTwice, Orders;
      loaded := map[];
      order := [];
      for i := 0 to |listed|
        invariant |order| == i && forall j | 0 <= j < i :: order[j] == listed[j].kid && listed[j].kid in loaded
        invariant forall k | k in loaded :: k in repo.rows && loaded[k] == repo.rows[k]
      {
        assert listed[i] in listed;
        loaded := loaded[listed[i].kid := listed[i]];
        order := order + [listed[i].kid];
      }
      AllListed(listed, repo.rows, order);
    }

    /** Every row but the last of these is retired, in the table and in what was loaded. */
    method Heal(rows: Rows, actives: seq<Key>, clock: nat -> Ms) returns (loaded: Rows)
      requires rows == repo.rows && KidsOf(actives) <= rows.Keys
      modifies repo
      ensures loaded == repo.rows
      ensures repo.rows == if actives == [] then rows else RetiredEach(rows, actives[..|actives| - 1], clock)
    {
      loaded := rows;
      if actives == [] {
        return;
      }
      for i := 0 to |actives| - 1
        invariant loaded == repo.rows == RetiredEach(rows, actives[..i], clock) && loaded.Keys == rows.Keys
      {
        var stale := actives[i];
        assert stale.kid in KidsOf(actives) && actives[..i + 1][..i] == actives[..i];
        loaded := loaded[stale.kid := loaded[stale.kid].(active := false, retiredAt := Some(clock(i)))];
        repo.Retire(stale.kid, clock(i));
      }
    }

    method Ensure(newKid: Kid, clock: nat -> Ms, now: Ms)
      requires Valid() && newKid !in repo.rows
      modifies this, repo
      ensures Valid() && initialised && signed == old(signed)
      ensures old(initialised) ==> keys == old(keys) && active == old(active) && repo.rows == old(repo.rows)
    {
      if !initialised {
        var _ := Init(newKid, clock, now);
      }
    }

    /** The old key is retired first and the new one takes over, unless another
        process has put in an active row meanwhile: then that one is adopted.
        Either way the kid returned is the one active row of the table. If the
        store fails there is no answer, and this process goes on signing with the
        key that it has marked retired. */
    method Rotate(newKid: Kid, retireNow: Ms, createNow: Ms, failure: Failure) returns (kid: Option<Kid>)
      requires Valid() && newKid !in repo.rows
      requires forall a, b :: a in ActiveKids(repo.rows) && b in ActiveKids(repo.rows) ==> a == b
      modifies this, repo
      ensures Valid() && signed == old(signed) && initialised == old(initialised) && old(keys).Keys <= keys.Keys
      ensures failure.NoFailure? ==> kid.Some?
      ensures failure.InsertFails? || (failure.RetireFails? && old(active).Some?) ==> kid.None?
      ensures kid.Some? ==> active == kid && kid.value in keys && ActiveKids(repo.rows) == {kid.value}
      ensures var previous := if old(active).Some? then {old(active).value} else {};
              var retired := Retired(old(repo.rows), previous, retireNow);
              && (kid.None? ==>
                    && active == old(active) && keys == Retired(old(keys), previous, retireNow) && order == old(order)
                    && (repo.rows == old(repo.rows) || repo.rows == retired
                        || repo.rows == retired[newKid := Key(newKid, true, createNow, None)]))
              && (kid.Some? ==>
                    if ActiveKids(retired) == {} then
                      && kid == Some(newKid) && repo.rows == retired[newKid := Key(newKid, true, createNow, None)]
                      && keys[newKid] == repo.rows[newKid]
                    else repo.rows == retired)
              && (kid.Some? && old(keys) == old(repo.rows) ==> keys == repo.rows)
              && (forall p | p in previous && kid != Some(p) :: keys[p].retiredAt == Some(retireNow) && !keys[p].active)
    {
      ghost var previous := if active.Some? then {active.value} else {};
      RetiredRows(repo.rows, previous, retireNow);
      RetiredRows(keys, previous, retireNow);
      var retired := RetirePrevious(retireNow, failure);
      if !retired {
        return None;
      }
      kid := InsertOrAdopt(newKid, createNow, failure);
    }

    /** The loaded record is marked before the store is asked. */
    method RetirePrevious(now: Ms, failure: Failure) returns (ok: bool)
      requires Valid()
      modifies this`keys, repo
      ensures var previous := if active.Some? then {active.value} else {};
              && keys == Retired(old(keys), previous, now)
              && (ok ==> repo.rows == Retired(old(repo.rows), previous, now))
              && (!ok ==> repo.rows == Retired(old(repo.rows), previous, now) || repo.rows == old(repo.rows))
              && (ok <==> !failure.RetireFails? || active.None?)
    {
      if active.Some? {
        keys := keys[active.value := keys[active.value].(active := false, retiredAt := Some(now))];
        if failure.RetireFails? {
          if failure.applied {
            repo.Retire(active.value, now);
          }
          return false;
        }
        repo.Retire(active.value, now);
      }
      return true;
    }

    method InsertOrAdopt(newKid: Kid, now: Ms, failure: Failure) returns (kid: Option<Kid>)
      requires Valid() && newKid !in repo.rows
      requires forall a, b :: a in ActiveKids(repo.rows) && b in ActiveKids(repo.rows) ==> a == b
      modifies this`keys, this`order, this`active, repo
      ensures Valid()
      ensures failure.NoFailure? || failure.RetireFails? ==> kid.Some?
      ensures failure.InsertFails? ==> kid.None?
      ensures kid.None? ==>
                && active == old(active) && keys == old(keys) && order == old(order)
                && (repo.rows == old(repo.rows) || repo.rows == old(repo.rows)[newKid := Key(newKid, true, now, None)])
      ensures kid.Some? ==>
                && active == kid && ActiveKids(repo.rows) == {kid.value}
                && (if ActiveKids(old(repo.rows)) == {} then
                      kid == Some(newKid) && repo.rows == old(repo.rows)[newKid := Key(newKid, true, now, None)]
                    else repo.rows == old(repo.rows))
                && kid.value in repo.rows && keys == old(keys)[kid.value := repo.rows[kid.value]]
    {
      var record := Key(newKid, true, now, None);
      if failure.InsertFails? {
        if failure.applied {
          var _ := repo.Insert(record);
        }
        return None;
      }
      var inserted := repo.Insert(record);
      if inserted {
        InsertedActive(old(repo.rows), record);
        Adopt(record);
        return Some(newKid);
      }
      if failure.ListFails? {
        return None;
      }
      var records := repo.List();
      var winner := FindActive(records);
      Adopt(repo.rows[winner]);
      return Some(winner);
    }

    /** `keys.set` and `active =` */
    method Adopt(rec: Key)
      requires Valid() && rec.kid in repo.rows
      modifies this`keys, this`order, this`active
      ensures Valid() && active == Some(rec.kid) && keys == old(keys)[rec.kid := rec]
    {
      if rec.kid !in keys {
        order := order + [rec.kid];
      }
      keys := keys[rec.kid := rec];
      active := Some(rec.kid);
    }

    /** `records.find((r) => r.status === "active")`, where there is one. */
    method FindActive(records: seq<Key>) returns (kid: Kid)
      requires Keyed(repo.rows) && Lists(records, repo.rows) && ActiveKids(repo.rows) != {}
      ensures kid in ActiveKids(repo.rows)
    {
      ghost var some :| some in ActiveKids(repo.rows);
      assert repo.rows[some] in records;
      for i := 0 to |records|
        invariant forall j | 0 <= j < i :: !records[j].active
      {
        if records[i].active {
          assert records[i] in records;
          return records[i].kid;
        }
      }
      assert false;
    }

    method SignJwt(now: Ms) returns (kid: Option<Kid>)
      requires Valid()
      modifies this`signed
      ensures Valid() && kid == active
      ensures signed == if active.Some? then old(signed) + [Signature(active.value, now)] else old(signed)
    {
      kid := active;
      if active.Some? {
        signed := signed + [Signature(active.value, now)];
      }
    }

    /** Exactly the keys not past the retention horizon, once each, active ones
        first and otherwise in the map's order; among them that of every signature
        not yet expired, if a retired key signs no later than `w` after its
        retirement and lifetime and `w` together fit into the horizon. */
    method PublicJwks(now: Ms) returns (r: seq<Kid>)
      requires Valid()
      ensures r == Pick(order, keys, now, true) + Pick(order, keys, now, false)
      ensures Once(r) && forall k :: k in r <==> k in keys && Published(keys[k], now)
      ensures forall s: Signature, lifetimeSec: nat, w: nat {:trigger s in signed, Covered(lifetimeSec, w)} ::
                (s in signed && Covered(lifetimeSec, w) && Unexpired(s, lifetimeSec, now)
                 && SignedInTime(keys[s.kid], s, w)) ==> s.kid in r
    {
      var first: seq<Kid>, rest: seq<Kid> := [], [];
      for i := 0 to |order|
        invariant first == Pick(order[..i], keys, now, true) && rest == Pick(order[..i], keys, now, false)
      {
        var kid := order[i];
        assert order[..i + 1][..i] == order[..i];
        if Published(keys[kid], now) {
          if keys[kid].active {
            first := first + [kid];
          } else {
            rest := rest + [kid];
          }
        }
      }
      assert order[..|order|] == order;
      r := first + rest;
      PickedBoth(order, keys, now);
      hide Pick, Once, Orders, Keyed;
      forall s: Signature, lifetimeSec: nat, w: nat |
        s in signed && Covered(lifetimeSec, w) && Unexpired(s, lifetimeSec, now) && SignedInTime(keys[s.kid], s, w)
        ensures s.kid in r
      {
        RetentionSuffices(keys[s.kid], s, lifetimeSec, w, now);
      }
    }
  }

  lemma AllListed(listed: seq<Key>, rows: Rows, order: seq<Kid>)
    requires Keyed(rows) && Lists(listed, rows)
    requires |order| == |listed| && forall j | 0 <= j < |listed| :: order[j] == listed[j].kid
    ensures Orders(order, rows)
    ensures forall k | k in rows :: exists j :: 0 <= j < |listed| && listed[j].kid == k && order[j] == k
  {
    forall k | k in rows ensures k in order && exists j :: 0 <= j < |listed| && listed[j].kid == k && order[j] == k {
      assert rows[k] in listed;
      var j :| 0 <= j < |listed| && listed[j] == rows[k];
      assert order[j] == k;
    }
    forall k | k in order ensures k in rows {
      var j :| 0 <= j < |order| && order[j] == k;
      assert listed[j] in listed;
    }
  }

  lemma PickedBoth(order: seq<Kid>, keys: Rows, now: int)
    requires Orders(order, keys)
    ensures var r := Pick(order, keys, now, true) + Pick(order, keys, now, false);
            Once(r) && forall k :: k in r <==> k in keys && Published(keys[k], now)
  {
    hide Published;
    Picked(order, keys, now, true);
    Picked(order, keys, now, false);
    hide Pick;
    var first, rest := Pick(order, keys, now, true), Pick(order, keys, now, false);
    var r := first + rest;
    forall i, j | 0 <= i < j < |r| ensures r[i] != r[j] {
      if j < |first| {
        assert r[i] == first[i] && r[j] == first[j];
      } else if i >= |first| {
        assert r[i] == rest[i - |first|] && r[j] == rest[j - |first|];
      } else {
        assert r[i] == first[i] && first[i] in first && r[j] == rest[j - |first|] && rest[j - |first|] in rest;
      }
    }
  }

  lemma SameOrder(order: seq<Kid>, rows: Rows, keys: Rows)
    requires Orders(order, rows) && keys.Keys == rows.Keys
    ensures Orders(order, keys)
  {
    assert forall k :: k in rows <==> k in keys.Keys;
  }

  // -------------------------------------------------------------- retention

  predicate Covered(lifetimeSec: nat, w: nat) { lifetimeSec * 1000 + w <= RETIRED_KEY_RETENTION_MS }

  /** By the record's `expiresAt`, which the `exp` claim never exceeds. */
  predicate Unexpired(s: Signature, lifetimeSec: nat, now: int) { now < s.at + lifetimeSec * 1000 }

  predicate SignedInTime(k: Key, s: Signature, w: nat) { k.retiredAt.Some? ==> s.at <= k.retiredAt.value + w }

  lemma RetentionSuffices(k: Key, s: Signature, lifetimeSec: nat, w: nat, now: int)
    requires Covered(lifetimeSec, w) && Unexpired(s, lifetimeSec, now) && SignedInTime(k, s, w)
    ensures Published(k, now)
  {
  }

  /** The horizon is not enough for anything longer: a keystore boots, a rotation
      fails at the store after marking the key, the process signs `w` later, and the
      token is still unexpired when its key is no longer published. */
  method HorizonMissed(kid: Kid, other: Kid, lifetimeSec: nat, w: nat)
    returns (ks: KeyStore, s: Signature, now: Ms, jwks: seq<Kid>)
    requires kid != other && lifetimeSec >= 1 && !Covered(lifetimeSec, w)
    ensures ks.Valid() && s in ks.signed && 0 <= s.at <= now
    ensures ks.keys[s.kid].retiredAt == Some(s.at - w) && SignedInTime(ks.keys[s.kid], s, w)
    ensures Unexpired(s, lifetimeSec, now)
    ensures jwks == Pick(ks.order, ks.keys, now, true) + Pick(ks.order, ks.keys, now, false) && s.kid !in jwks
  {
    ks := FailedRotation(kid, other);
    hide Orders, Pick, Once;
    var signer := ks.SignJwt(w);
    s := Signature(kid, w);
    assert ks.signed[0] == s;
    now := if w < RETIRED_KEY_RETENTION_MS then RETIRED_KEY_RETENTION_MS else w;
    jwks := ks.PublicJwks(now);
  }

  /** A process that has booted, and marked its only key retired at 0 in vain. */
  method FailedRotation(kid: Kid, other: Kid) returns (ks: KeyStore)
    requires kid != other
    ensures fresh(ks) && fresh(ks.repo) && ks.Valid() && ks.signed == [] && ks.active == Some(kid)
    ensures kid in ks.keys && ks.keys[kid] == Key(kid, false, 0, Some(0))
  {
    var repo := new MemorySigningKeys(map[]);
    ks := new KeyStore(repo);
    assert ActiveKids(repo.rows) == {};
    var _ := ks.Init(kid, _ => 0, 0);
    assert ks.keys[kid] == Key(kid, true, 0, None);
    hide Orders, Pick, Once, ActiveKids, RetiredEach;
    var _ := ks.Rotate(other, 0, 0, RetireFails(false));
  }

  ghost predicate AlwaysVerifiable(lifetimeSec: nat, w: nat) {
    forall k: Key, s: Signature, now: Ms ::
      Unexpired(s, lifetimeSec, now) && SignedInTime(k, s, w) ==> Published(k, now)
  }

  /** The horizon is enough exactly if lifetime and lateness fit into it; with no
      lateness the longest lifetime the configuration permits just fits. */
  lemma RetentionExactly(lifetimeSec: nat, w: nat)
    ensures AlwaysVerifiable(lifetimeSec, w) <==> Covered(lifetimeSec, w)
    ensures AlwaysVerifiable(86_400, 0) && !AlwaysVerifiable(86_401, 0)
  {
    assert forall l: nat, v: nat :: AlwaysVerifiable(l, v) <==> Covered(l, v) by {
      forall l: nat, v: nat ensures AlwaysVerifiable(l, v) <==> Covered(l, v) {
        if !Covered(l, v) {
          var k, s, now: Ms := Key("", false, 0, Some(0)), Signature("", v), RETIRED_KEY_RETENTION_MS;
          assert Unexpired(s, l, now) && SignedInTime(k, s, v) && !Published(k, now);
        }
      }
    }
  }
}
