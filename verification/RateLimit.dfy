/** The per-source fixed-window limiter: a bounded map that sweeps itself, against
    a limiter that keeps every window for ever. */
module RateLimit {
  import opened Base

  datatype Window = Window(start: Ms, count: nat)

  datatype Limits = Limits(limit: int, windowMs: nat, maxKeys: nat)

  /** The limiter's state: `windows` and `lastSweepMs`. */
  datatype Table = Table(windows: map<string, Window>, lastSweepMs: int)

  predicate Current(t: Table, l: Limits, key: string, now: Ms) {
    key in t.windows && now - t.windows[key].start < l.windowMs
  }

  function CurrentOnly(windows: map<string, Window>, l: Limits, now: Ms): map<string, Window> {
    map k | k in windows && now - windows[k].start < l.windowMs :: windows[k]
  }

  function Swept(t: Table, l: Limits, now: Ms): Table {
    if |t.windows| >= l.maxKeys && now - t.lastSweepMs >= l.windowMs
    then Table(CurrentOnly(t.windows, l, now), now) else t
  }

  /** What `allow` does to the state and what it answers. */
  function Allowed(t: Table, l: Limits, key: string, now: Ms): (Table, bool) {
    if l.limit <= 0 then (t, true)
    else if Current(t, l, key, now) then
      var w := t.windows[key];
      (t.(windows := t.windows[key := w.(count := w.count + 1)]), w.count + 1 <= l.limit)
    else
      var s := Swept(t, l, now);
      if key !in t.windows && |s.windows| >= l.maxKeys then (s, false)
      else (s.(windows := s.windows[key := Window(now, 1)]), true)
  }

  class FixedWindowRateLimiter {
    const limits: Limits
    var windows: map<string, Window>
    var lastSweepMs: int

    function State(): Table
      reads this
    {
      Table(windows, lastSweepMs)
    }

    constructor (limits: Limits)
      ensures this.limits == limits && State() == Table(map[], 0)
    {
      this.limits := limits;
      windows := map[];
      lastSweepMs := 0;
    }

    method Allow(key: string, now: Ms) returns (ok: bool)
      modifies this
      ensures (State(), ok) == Allowed(old(State()), limits, key, now)
      ensures |old(windows)| <= limits.maxKeys ==> |windows| <= limits.maxKeys
    {
      if |windows| <= limits.maxKeys {
        BoundKept(State(), limits, key, now);
      }
      if limits.limit <= 0 {
        return true;
      }
      if key in windows && now - windows[key].start < limits.windowMs {
        var w := windows[key];
        windows := windows[key := w.(count := w.count + 1)];
        return w.count + 1 <= limits.limit;
      }
      var known := key in windows;
      if |windows| >= limits.maxKeys && now - lastSweepMs >= limits.windowMs {
        lastSweepMs := now;
        var todo := windows.Keys;
        while todo != {}
          invariant todo <= old(windows).Keys && lastSweepMs == now
          invariant windows == map k | k in old(windows)
                                      && (k in todo || now - old(windows)[k].start < limits.windowMs) :: old(windows)[k]
          decreases todo
        {
          var k :| k in todo;
          if now - windows[k].start >= limits.windowMs {
            windows := windows - {k};
          }
          todo := todo - {k};
        }
      }
      assert State() == Swept(old(State()), limits, now);
      if !known && |windows| >= limits.maxKeys {
        return false;
      }
      windows := windows[key := Window(now, 1)];
      return true;
    }
  }

  /** The cap holds for ever. A window that has rolled over is replaced in place
      even at the cap: the sweep may just have dropped it, but then made room. */
  lemma BoundKept(t: Table, l: Limits, key: string, now: Ms)
    requires |t.windows| <= l.maxKeys
    ensures |Allowed(t, l, key, now).0.windows| <= l.maxKeys
  {
    var s := Swept(t, l, now);
    SubmapSize(s.windows, t.windows);
    var t' := Allowed(t, l, key, now).0;
    if l.limit > 0 && Current(t, l, key, now) {
      assert t'.windows.Keys == t.windows.Keys;
      SubmapSize(t'.windows, t.windows);
    } else if key in t.windows {
      SubmapSize(s.windows[key := Window(now, 1)], t.windows);
    } else {
      assert s.windows[key := Window(now, 1)].Keys == s.windows.Keys + {key};
    }
  }

  // ------------------------------------------------------------------ runs

  datatype Call = Call(key: string, now: Ms)

  function Run(t: Table, l: Limits, calls: seq<Call>): (r: (Table, seq<bool>))
    ensures |r.1| == |calls|
    decreases |calls|
  {
    if calls == [] then (t, [])
    else
      var last := calls[|calls| - 1];
      var (t1, answers) := Run(t, l, calls[..|calls| - 1]);
      var (t2, ok) := Allowed(t1, l, last.key, last.now);
      (t2, answers + [ok])
  }

  predicate Monotone(calls: seq<Call>) {
    forall i, j | 0 <= i < j < |calls| :: calls[i].now <= calls[j].now
  }

  const FRESH: Table := Table(map[], 0)

  /** How many calls of `key` in [a, a + windowMs) were allowed. */
  function AllowedIn(calls: seq<Call>, answers: seq<bool>, l: Limits, key: string, a: int): nat
    requires |answers| == |calls|
    decreases |calls|
  {
    if calls == [] then 0
    else
      var n := |calls| - 1;
      AllowedIn(calls[..n], answers[..n], l, key, a)
      + if calls[n].key == key && a <= calls[n].now < a + l.windowMs && answers[n] then 1 else 0
  }

  lemma RunSnoc(l: Limits, calls: seq<Call>, call: Call, key: string, a: int)
    ensures var (t, answers) := Run(FRESH, l, calls);
            var (t', ok) := Allowed(t, l, call.key, call.now);
            && Run(FRESH, l, calls + [call]) == (t', answers + [ok])
            && AllowedIn(calls + [call], answers + [ok], l, key, a) == AllowedIn(calls, answers, l, key, a)
                 + if call.key == key && a <= call.now < a + l.windowMs && ok then 1 else 0
  {
    var answers := Run(FRESH, l, calls).1;
    var ok := Allowed(Run(FRESH, l, calls).0, l, call.key, call.now).1;
    assert (calls + [call])[..|calls|] == calls;
    assert (answers + [ok])[..|calls|] == answers;
  }

  /** The bookkeeping behind the bound: `count` calls of the key were allowed in
      [a, b), the clock stands at `t`, and `w` is the key's window, if kept. */
  predicate WithinBudget(count: nat, w: Option<Window>, l: Limits, a: int, b: int, t: int) {
    && count <= 2 * l.limit - 1
    && (t < a ==> count == 0)
    && (t >= b || (match w
        case None => count < l.limit
        case Some(w) =>
          && w.start <= t && w.count >= 1
          && (w.start < a ==> count <= Min(w.count, l.limit) - 1)
          && (w.start >= a ==> count <= l.limit - 1 + Min(w.count, l.limit))))
  }

  function WindowOf(t: Table, key: string): Option<Window> {
    if key in t.windows then Some(t.windows[key]) else None
  }

  lemma BudgetStep(t: Table, l: Limits, key: string, call: Call, count: nat, a: int, clock: int)
    requires l.limit >= 1 && clock <= call.now
    requires WithinBudget(count, WindowOf(t, key), l, a, a + l.windowMs, clock)
    ensures var (t', ok) := Allowed(t, l, call.key, call.now);
            WithinBudget(count + (if call.key == key && a <= call.now < a + l.windowMs && ok then 1 else 0),
                         WindowOf(t', key), l, a, a + l.windowMs, call.now)
  {
  }

  lemma {:induction false} BudgetKept(l: Limits, calls: seq<Call>, key: string, a: int, clock: int)
    requires l.limit >= 1 && Monotone(calls) && clock >= 0
    requires clock == if calls == [] then 0 else calls[|calls| - 1].now
    ensures var (t, answers) := Run(FRESH, l, calls);
            WithinBudget(AllowedIn(calls, answers, l, key, a), WindowOf(t, key), l, a, a + l.windowMs, clock)
  {
    if calls != [] {
      hide Allowed, AllowedUnbounded, HoldsAllCurrent, CapRefusal;
      var n := |calls| - 1;
      var earlier := if n == 0 then 0 else calls[n - 1].now;
      BudgetKept(l, calls[..n], key, a, earlier);
      var (t, answers) := Run(FRESH, l, calls[..n]);
      BudgetStep(t, l, key, calls[n], AllowedIn(calls[..n], answers, l, key, a), a, earlier);
      assert Run(FRESH, l, calls).1[..n] == answers;
    }
  }

  /** In no stretch of one window's length, wherever it starts, are more than
      2 * limit - 1 of a source's calls allowed; sweeps and the cap change nothing. */
  lemma AtMostTwiceTheLimit(l: Limits, calls: seq<Call>, key: string, a: int)
    requires l.limit >= 1 && Monotone(calls)
    ensures AllowedIn(calls, Run(FRESH, l, calls).1, l, key, a) <= 2 * l.limit - 1
  {
    BudgetKept(l, calls, key, a, if calls == [] then 0 else calls[|calls| - 1].now);
  }

  /** One call opens a window, the rest of the limit follows at time 1, and a
      full limit again as soon as the window has rolled over. */
  function Burst(key: string, l: Limits, n: nat): seq<Call> {
    if n == 0 then []
    else Burst(key, l, n - 1) + [Call(key, if n == 1 then 0 else if n <= l.limit then 1 else l.windowMs)]
  }

  lemma {:induction false} BurstMonotone(key: string, l: Limits, n: nat)
    requires n <= 2 * l.limit && l.windowMs >= 2
    ensures var calls := Burst(key, l, n);
            && |calls| == n && Monotone(calls)
            && (n >= 1 ==> calls[n - 1].now == if n == 1 then 0 else if n <= l.limit then 1 else l.windowMs)
  {
    if n > 0 {
      BurstMonotone(key, l, n - 1);
    }
  }

  lemma BurstFirst(key: string, l: Limits)
    requires l.limit >= 1 && l.windowMs >= 2 && l.maxKeys >= 1
    ensures Run(FRESH, l, Burst(key, l, 1)).0.windows == map[key := Window(0, 1)]
    ensures AllowedIn(Burst(key, l, 1), Run(FRESH, l, Burst(key, l, 1)).1, l, key, 1) == 0
  {
    RunSnoc(l, [], Call(key, 0), key, 1);
    assert Burst(key, l, 1) == [] + [Call(key, 0)];
    assert Run(FRESH, l, []) == (FRESH, []);
  }

  lemma {:induction false} BurstAllowed(key: string, l: Limits, n: nat)
    requires 1 <= n <= 2 * l.limit && l.windowMs >= 2 && l.maxKeys >= 1
    ensures Run(FRESH, l, Burst(key, l, n)).0.windows ==
              map[key := if n <= l.limit then Window(0, n) else Window(l.windowMs, n - l.limit)]
    ensures AllowedIn(Burst(key, l, n), Run(FRESH, l, Burst(key, l, n)).1, l, key, 1) == n - 1
  {
    if n == 1 {
      BurstFirst(key, l);
    } else {
      var before := Burst(key, l, n - 1);
      var call := Call(key, if n <= l.limit then 1 else l.windowMs);
      assert Burst(key, l, n) == before + [call];
      hide Run, AllowedIn, Allowed, Burst;
      RunSnoc(l, before, call, key, 1);
      BurstAllowed(key, l, n - 1);
      BurstStep(Run(FRESH, l, before).0, l, key, n);
    }
  }

  lemma BurstStep(t: Table, l: Limits, key: string, n: nat)
    requires 2 <= n <= 2 * l.limit && l.windowMs >= 2 && l.maxKeys >= 1
    requires t.windows == map[key := if n - 1 <= l.limit then Window(0, n - 1) else Window(l.windowMs, n - 1 - l.limit)]
    ensures var (t', ok) := Allowed(t, l, key, if n <= l.limit then 1 else l.windowMs);
            ok && t'.windows == map[key := if n <= l.limit then Window(0, n) else Window(l.windowMs, n - l.limit)]
  {
  }

  /** The bound is reached. */
  lemma BoundIsTight(key: string, l: Limits)
    requires l.limit >= 1 && l.windowMs >= 2 && l.maxKeys >= 1
    ensures exists calls :: Monotone(calls) && AllowedIn(calls, Run(FRESH, l, calls).1, l, key, 1) == 2 * l.limit - 1
  {
    BurstMonotone(key, l, 2 * l.limit);
    BurstAllowed(key, l, 2 * l.limit);
    var calls := Burst(key, l, 2 * l.limit);
    assert Monotone(calls) && AllowedIn(calls, Run(FRESH, l, calls).1, l, key, 1) == 2 * l.limit - 1;
  }

  // ----------------------------------------------- the limiter that keeps all

  /** The reference: the same windows, never swept, never capped. */
  function AllowedUnbounded(w: map<string, Window>, l: Limits, key: string, now: Ms): (map<string, Window>, bool) {
    if l.limit <= 0 then (w, true)
    else if key in w && now - w[key].start < l.windowMs then
      (w[key := w[key].(count := w[key].count + 1)], w[key].count + 1 <= l.limit)
    else (w[key := Window(now, 1)], true)
  }

  function RunUnbounded(l: Limits, calls: seq<Call>): (r: (map<string, Window>, seq<bool>))
    ensures |r.1| == |calls|
    decreases |calls|
  {
    if calls == [] then (map[], [])
    else
      var last := calls[|calls| - 1];
      var (w1, answers) := RunUnbounded(l, calls[..|calls| - 1]);
      var (w2, ok) := AllowedUnbounded(w1, l, last.key, last.now);
      (w2, answers + [ok])
  }

  /** The bounded table holds the reference's windows except some that are over:
      no sweep has removed a live one. */
  ghost predicate HoldsAllCurrent(t: Table, w: map<string, Window>, l: Limits, clock: int) {
    && (forall k | k in t.windows :: k in w && w[k] == t.windows[k])
    && (forall k | k in w && k !in t.windows :: clock - w[k].start >= l.windowMs)
  }

  /** The call is turned away for want of room, not for its own count. */
  predicate CapRefusal(t: Table, l: Limits, call: Call) {
    && l.limit > 0 && call.key !in t.windows
    && |Swept(t, l, call.now).windows| >= l.maxKeys
  }

  lemma AgreeStep(t: Table, w: map<string, Window>, l: Limits, call: Call, clock: int)
    requires HoldsAllCurrent(t, w, l, clock) && clock <= call.now && !CapRefusal(t, l, call)
    ensures Allowed(t, l, call.key, call.now).1 == AllowedUnbounded(w, l, call.key, call.now).1
    ensures HoldsAllCurrent(Allowed(t, l, call.key, call.now).0, AllowedUnbounded(w, l, call.key, call.now).0,
                            l, call.now)
  {
  }

  /** Until the first refusal at the cap, all answers are the reference's. */
  lemma {:induction false} AgreesUntilCapRefusal(l: Limits, calls: seq<Call>, clock: int)
    requires Monotone(calls) && clock == if calls == [] then 0 else calls[|calls| - 1].now
    requires forall i | 0 <= i < |calls| :: !CapRefusal(Run(FRESH, l, calls[..i]).0, l, calls[i])
    ensures Run(FRESH, l, calls).1 == RunUnbounded(l, calls).1
    ensures HoldsAllCurrent(Run(FRESH, l, calls).0, RunUnbounded(l, calls).0, l, clock)
  {
    if calls != [] {
      hide Allowed, AllowedUnbounded, HoldsAllCurrent, CapRefusal;
      var n := |calls| - 1;
      var earlier := if n == 0 then 0 else calls[n - 1].now;
      forall i | 0 <= i < n ensures !CapRefusal(Run(FRESH, l, calls[..n][..i]).0, l, calls[..n][i]) {
        assert calls[..n][..i] == calls[..i];
      }
      AgreesUntilCapRefusal(l, calls[..n], earlier);
      AgreeStep(Run(FRESH, l, calls[..n]).0, RunUnbounded(l, calls[..n]).0, l, calls[n], earlier);
    }
  }

  /** In every table, full or not: a call keeps every live window, and counts only
      in its own. */
  lemma LiveWindowsKept(t: Table, l: Limits, call: Call, key: string)
    requires Current(t, l, key, call.now)
    ensures var after := Allowed(t, l, call.key, call.now).0.windows;
            && key in after && after[key].start == t.windows[key].start
            && after[key].count == t.windows[key].count + if key == call.key && l.limit > 0 then 1 else 0
  {
  }

  /** The sources whose window is not over. */
  ghost function LiveSources(t: Table, l: Limits, now: Ms): set<string> {
    set k | k in t.windows && now - t.windows[k].start < l.windowMs
  }

  /** In every table: a call is refused exactly if its own live window is used up, or if
      its source is not in a table that is full, and stays so: either every one of as
      many sources as it has room for is live, or it was swept within the last window.
      So only unknown sources are turned away beyond their own count. */
  lemma RefusedExactly(t: Table, l: Limits, call: Call)
    ensures !Allowed(t, l, call.key, call.now).1 <==>
              l.limit > 0
              && if call.key in LiveSources(t, l, call.now) then t.windows[call.key].count >= l.limit
                 else call.key !in t.windows && |t.windows| >= l.maxKeys
                      && (call.now - t.lastSweepMs < l.windowMs || |LiveSources(t, l, call.now)| >= l.maxKeys)
  {
    assert CurrentOnly(t.windows, l, call.now).Keys == LiveSources(t, l, call.now);
  }

  /** A sweep takes every window that is over, and is noted; and an allowed call that
      opens a window at the cap has swept. */
  lemma SweptExactly(t: Table, l: Limits, call: Call)
    requires l.limit > 0 && call.key !in LiveSources(t, l, call.now)
    requires |t.windows| >= l.maxKeys && call.now - t.lastSweepMs >= l.windowMs
    ensures var after := Allowed(t, l, call.key, call.now).0;
            && after.lastSweepMs == call.now
            && after.windows.Keys - {call.key} == LiveSources(t, l, call.now) - {call.key}
  {
  }

  lemma OneCall(l: Limits, calls: seq<Call>, j: nat)
    requires 0 < j <= |calls|
    ensures Run(FRESH, l, calls[..j]).0
            == Allowed(Run(FRESH, l, calls[..j - 1]).0, l, calls[j - 1].key, calls[j - 1].now).0
  {
    hide Allowed;
    assert calls[..j][..j - 1] == calls[..j - 1];
  }

  /** Over any run, capped or not, a source's live window is never lost: once opened
      it stays, as it opened, through every call within its length. */
  lemma {:induction false} WindowSurvives(l: Limits, calls: seq<Call>, i: nat, j: nat, key: string)
    requires i <= j <= |calls|
    requires key in Run(FRESH, l, calls[..i]).0.windows
    requires forall k | i <= k < j :: calls[k].now - Run(FRESH, l, calls[..i]).0.windows[key].start < l.windowMs
    ensures key in Run(FRESH, l, calls[..j]).0.windows
    ensures Run(FRESH, l, calls[..j]).0.windows[key].start == Run(FRESH, l, calls[..i]).0.windows[key].start
    decreases j
  {
    if i < j {
      hide Run, Allowed;
      WindowSurvives(l, calls, i, j - 1, key);
      OneCall(l, calls, j);
      LiveWindowsKept(Run(FRESH, l, calls[..j - 1]).0, l, calls[j - 1], key);
    }
  }

  /** At the cap the limiter fails closed: it refuses a source it does not know,
      keeps every live window, and stays within its bound. */
  lemma CapFailsClosed(t: Table, l: Limits, call: Call)
    requires CapRefusal(t, l, call) && |t.windows| <= l.maxKeys
    ensures !Allowed(t, l, call.key, call.now).1
    ensures |Allowed(t, l, call.key, call.now).0.windows| <= l.maxKeys
    ensures forall k | Current(t, l, k, call.now) ::
              k in Allowed(t, l, call.key, call.now).0.windows
              && Allowed(t, l, call.key, call.now).0.windows[k] == t.windows[k]
  {
    BoundKept(t, l, call.key, call.now);
  }
}
