/** The PostgreSQL `redeem`: an UPDATE, then, if it found nothing, a SELECT as a separate
    statement. Calls interleave between the two, each with the clock reading it was
    given; the calls are nevertheless linearizable to the one-step redeem. */
module PgRedeem {
  import opened Base
  import opened Tables

  datatype Statement =
    | Insert(hash: string, row: CodeRow)
    | Update(call: nat, hash: string, now: int)
    | Select(call: nat)

  /** A call whose UPDATE found nothing, or one that has returned. */
  datatype Call = Waiting(hash: string, now: int) | Answered(result: Redemption)

  datatype State = State(rows: map<string, CodeRow>, calls: map<nat, Call>)

  /** `codeRowToRecord`: the record handed out does not hold `consumed_at`. */
  function Record(row: CodeRow): CodeRow { row.(consumedAt := None) }

  function Reported(r: Redemption): Redemption {
    match r
    case Redeemed(row) => Redeemed(Record(row))
    case Replayed(row) => Replayed(Record(row))
    case Invalid => Invalid
  }

  /** The UPDATE's condition. */
  predicate Consumable(rows: map<string, CodeRow>, hash: string, now: int) {
    hash in rows && rows[hash].consumedAt.None? && rows[hash].expiresAt > now
  }

  predicate Legal(s: State, st: Statement) {
    match st
    case Insert(hash, row) => hash !in s.rows && row.consumedAt.None?
    case Update(c, _, _) => c !in s.calls
    case Select(c) => c in s.calls && s.calls[c].Waiting?
  }

  function Execute(s: State, st: Statement): State
    requires Legal(s, st)
  {
    match st
    case Insert(hash, row) => s.(rows := s.rows[hash := row])
    case Update(c, hash, now) =>
      if Consumable(s.rows, hash, now) then
        State(s.rows[hash := s.rows[hash].(consumedAt := Some(now))],
              s.calls[c := Answered(Redeemed(Record(s.rows[hash])))])
      else s.(calls := s.calls[c := Waiting(hash, now)])
    case Select(c) =>
      var hash := s.calls[c].hash;
      var found := hash in s.rows && s.rows[hash].consumedAt.Some?;
      s.(calls := s.calls[c := Answered(if found then Replayed(Record(s.rows[hash])) else Invalid)])
  }

  ghost predicate Run(states: seq<State>, trace: seq<Statement>) {
    && |states| == |trace| + 1
    && states[0] == State(map[], map[])
    && forall i | 0 <= i < |trace| :: Legal(states[i], trace[i]) && states[i + 1] == Execute(states[i], trace[i])
  }

  // -------------------------------------------------- the one-step reference

  datatype Op = Add(hash: string, row: CodeRow) | Redeem(call: nat, hash: string, now: int, result: Redemption)

  /** What one operation does to the table. */
  function Done(rows: map<string, CodeRow>, op: Op): map<string, CodeRow> {
    match op
    case Add(hash, row) => rows[hash := row]
    case Redeem(_, hash, now, _) => RedeemRows(rows, hash, now)
  }

  /** The table that a sequence of one-step operations leaves. */
  function TableOf(ops: seq<Op>): map<string, CodeRow> {
    if ops == [] then map[] else Done(TableOf(ops[..|ops| - 1]), ops[|ops| - 1])
  }

  /** The answer is the one that the one-step redeem gives on this table. */
  predicate Right(rows: map<string, CodeRow>, op: Op) {
    match op
    case Add(hash, _) => hash !in rows
    case Redeem(_, hash, now, result) => result == Reported(RedeemResult(rows, hash, now))
  }

  predicate AllRight(ops: seq<Op>) {
    ops == [] || (AllRight(ops[..|ops| - 1]) && Right(TableOf(ops[..|ops| - 1]), ops[|ops| - 1]))
  }

  // ----------------------------------------------------------- linearization

  /** A call takes effect at its UPDATE, unless it reports a replay: then at its
      SELECT. A call that has not returned has had no effect and is left out. */
  function OpsAt(s: State, st: Statement, final: map<nat, Call>): seq<Op>
    requires Legal(s, st)
  {
    match st
    case Insert(hash, row) => [Add(hash, row)]
    case Update(c, hash, now) =>
      if c in final && final[c].Answered? && !final[c].result.Replayed? then [Redeem(c, hash, now, final[c].result)]
      else []
    case Select(c) =>
      if c in final && final[c].Answered? && final[c].result.Replayed?
      then [Redeem(c, s.calls[c].hash, s.calls[c].now, final[c].result)] else []
  }

  ghost function Linearize(states: seq<State>, trace: seq<Statement>, n: nat): seq<Op>
    requires Run(states, trace) && n <= |trace|
  {
    if n == 0 then []
    else Linearize(states, trace, n - 1) + OpsAt(states[n - 1], trace[n - 1], states[|trace|].calls)
  }

  /** Answers are final, waiting calls keep their arguments, consumed rows stay. */
  lemma {:induction false} StateKept(states: seq<State>, trace: seq<Statement>, i: nat, j: nat)
    requires Run(states, trace) && i <= j <= |trace|
    ensures forall c | c in states[i].calls ::
              c in states[j].calls && (states[i].calls[c].Answered? ==> states[j].calls[c] == states[i].calls[c])
    ensures forall h | h in states[i].rows && states[i].rows[h].consumedAt.Some? ::
              h in states[j].rows && states[j].rows[h] == states[i].rows[h]
    decreases j
  {
    if i < j {
      StateKept(states, trace, i, j - 1);
      assert Legal(states[j - 1], trace[j - 1]) && states[j] == Execute(states[j - 1], trace[j - 1]);
    }
  }

  /** A call that waits was given these arguments by its UPDATE. */
  lemma {:induction false} WaitingKept(states: seq<State>, trace: seq<Statement>, i: nat, j: nat, c: nat)
    requires Run(states, trace) && i <= j <= |trace|
    requires c in states[i].calls && states[i].calls[c].Waiting?
    ensures c in states[j].calls
    ensures states[j].calls[c] == states[i].calls[c]
            || (exists k :: i <= k < j && trace[k] == Select(c) && states[k].calls[c] == states[i].calls[c]
                            && c in states[k + 1].calls && states[k + 1].calls[c] == states[j].calls[c])
    decreases j
  {
    if i < j {
      WaitingKept(states, trace, i, j - 1, c);
      assert Legal(states[j - 1], trace[j - 1]) && states[j] == Execute(states[j - 1], trace[j - 1]);
    }
  }

  /** An UPDATE that found nothing, of a call that in the end reports nothing
      consumed either, is what a one-step redeem would have answered right there. */
  lemma InvalidAlready(states: seq<State>, trace: seq<Statement>, n: nat, c: nat, hash: string, now: int)
    requires Run(states, trace) && n < |trace| && trace[n] == Update(c, hash, now)
    requires !Consumable(states[n].rows, hash, now)
    requires var final := states[|trace|].calls; c in final && final[c].Answered? && !final[c].result.Replayed?
    ensures states[|trace|].calls[c] == Answered(Invalid)
    ensures RedeemResult(states[n].rows, hash, now) == Invalid
  {
    assert Legal(states[n], trace[n]) && states[n + 1] == Execute(states[n], trace[n]);
    WaitingKept(states, trace, n + 1, |trace|, c);
    var k :| n + 1 <= k < |trace| && trace[k] == Select(c) && states[k].calls[c] == states[n + 1].calls[c]
             && c in states[k + 1].calls && states[k + 1].calls[c] == states[|trace|].calls[c];
    assert Legal(states[k], trace[k]) && states[k + 1] == Execute(states[k], trace[k]);
    StateKept(states, trace, n, k);
  }

  lemma Appended(ops: seq<Op>, op: Op)
    requires AllRight(ops) && Right(TableOf(ops), op)
    ensures AllRight(ops + [op])
    ensures TableOf(ops + [op]) == Done(TableOf(ops), op)
  {
    assert (ops + [op])[..|ops + [op]| - 1] == ops;
  }

  /** Every prefix: the one-step operations, in this order, give the same answers
      and leave the same table. */
  lemma {:induction false} LinearizesPrefix(states: seq<State>, trace: seq<Statement>, n: nat)
    requires Run(states, trace) && n <= |trace|
    ensures AllRight(Linearize(states, trace, n)) && TableOf(Linearize(states, trace, n)) == states[n].rows
  {
    if n > 0 {
      LinearizesPrefix(states, trace, n - 1);
      var ops, here := Linearize(states, trace, n - 1), OpsAt(states[n - 1], trace[n - 1], states[|trace|].calls);
      OneOpHere(states, trace, n - 1);
      hide Run, Linearize, OpsAt;
      if here == [] {
        assert ops + here == ops;
      } else {
        assert here == [here[0]];
        Appended(ops, here[0]);
      }
    }
  }

  lemma OneOpHere(states: seq<State>, trace: seq<Statement>, n: nat)
    requires Run(states, trace) && n < |trace|
    ensures var here := OpsAt(states[n], trace[n], states[|trace|].calls);
            && Linearize(states, trace, n + 1) == Linearize(states, trace, n) + here
            && |here| <= 1
            && (here == [] ==> states[n + 1].rows == states[n].rows)
            && (here != [] ==> Right(states[n].rows, here[0]) && states[n + 1].rows == Done(states[n].rows, here[0]))
  {
    var s, st := states[n], trace[n];
    assert Legal(s, st) && states[n + 1] == Execute(s, st);
    StateKept(states, trace, n + 1, |trace|);
    var here := OpsAt(s, st, states[|trace|].calls);
    if st.Update? && !Consumable(s.rows, st.hash, st.now) && here != [] {
      InvalidAlready(states, trace, n, st.call, st.hash, st.now);
    }
  }

  /** The call's operation is in the sequence, with the answer the caller got. */
  ghost predicate Takes(ops: seq<Op>, c: nat, result: Redemption) {
    exists k :: 0 <= k < |ops| && ops[k].Redeem? && ops[k].call == c && ops[k].result == result
  }

  predicate Mentions(ops: seq<Op>, c: nat) { exists k :: 0 <= k < |ops| && ops[k].Redeem? && ops[k].call == c }

  predicate EachOnce(ops: seq<Op>) {
    forall k, l :: 0 <= k < l < |ops| && ops[k].Redeem? && ops[l].Redeem? ==> ops[k].call != ops[l].call
  }

  /** What has been answered so far is in the sequence, and nothing is in it twice
      or before its call began. */
  ghost predicate InTime(s: State, ops: seq<Op>, final: map<nat, Call>) {
    && EachOnce(ops)
    && (forall c | c in s.calls && s.calls[c].Answered? :: Takes(ops, c, s.calls[c].result))
    && (forall c | c in s.calls && s.calls[c].Waiting? && c in final && final[c] == Answered(Invalid) ::
          Takes(ops, c, Invalid))
    && (forall c | Mentions(ops, c) ::
          c in s.calls && (s.calls[c].Answered? || (c in final && final[c] == Answered(Invalid))))
  }

  /** Real time is respected at every moment of a run. */
  lemma {:induction false} RealTime(states: seq<State>, trace: seq<Statement>, n: nat)
    requires Run(states, trace) && n <= |trace|
    ensures InTime(states[n], Linearize(states, trace, n), states[|trace|].calls)
  {
    if n > 0 {
      RealTime(states, trace, n - 1);
      RealTimeStep(states, trace, n - 1);
    }
  }

  lemma Grown(ops: seq<Op>, here: seq<Op>)
    requires EachOnce(ops) && |here| <= 1
    requires here != [] && here[0].Redeem? ==> !Mentions(ops, here[0].call)
    ensures EachOnce(ops + here)
    ensures forall c, result | Takes(ops, c, result) :: Takes(ops + here, c, result)
    ensures here != [] && here[0].Redeem? ==> Takes(ops + here, here[0].call, here[0].result)
    ensures forall c | Mentions(ops + here, c) ::
              Mentions(ops, c) || (here != [] && here[0].Redeem? && here[0].call == c)
  {
    forall c, result | Takes(ops, c, result) ensures Takes(ops + here, c, result) {
      var k :| 0 <= k < |ops| && ops[k].Redeem? && ops[k].call == c && ops[k].result == result;
      assert (ops + here)[k] == ops[k];
    }
    if here != [] {
      assert (ops + here)[|ops|] == here[0];
    }
  }

  lemma RealTimeStep(states: seq<State>, trace: seq<Statement>, n: nat)
    requires Run(states, trace) && n < |trace|
    requires InTime(states[n], Linearize(states, trace, n), states[|trace|].calls)
    ensures InTime(states[n + 1], Linearize(states, trace, n + 1), states[|trace|].calls)
  {
    var s, st, final := states[n], trace[n], states[|trace|].calls;
    assert Legal(s, st) && states[n + 1] == Execute(s, st);
    var ops, here := Linearize(states, trace, n), OpsAt(s, st, final);
    assert Linearize(states, trace, n + 1) == ops + here;
    StateKept(states, trace, n + 1, |trace|);
    if st.Update? && here != [] && !Consumable(s.rows, st.hash, st.now) {
      InvalidAlready(states, trace, n, st.call, st.hash, st.now);
    }
    hide Takes, Mentions, EachOnce, Run, Linearize;
    Grown(ops, here);
  }

  /** Any interleaving of inserts and redemptions, each call with its own clock
      reading, is one of one-step operations: with the same answers and the same
      table, every returned call exactly once and at one of its own statements. */
  lemma Linearizable(states: seq<State>, trace: seq<Statement>) returns (ops: seq<Op>)
    requires Run(states, trace)
    ensures ops == Linearize(states, trace, |trace|)
    ensures AllRight(ops) && TableOf(ops) == states[|trace|].rows
    ensures EachOnce(ops)
    ensures forall c | c in states[|trace|].calls && states[|trace|].calls[c].Answered? ::
              Takes(ops, c, states[|trace|].calls[c].result)
    ensures forall c | Mentions(ops, c) :: c in states[|trace|].calls && states[|trace|].calls[c].Answered?
  {
    ops := Linearize(states, trace, |trace|);
    LinearizesPrefix(states, trace, |trace|);
    RealTime(states, trace, |trace|);
  }

  /** A SELECT's answer never is that the code was redeemed. */
  lemma SelectedOutcome(states: seq<State>, trace: seq<Statement>, n: nat, c: nat, hash: string, now: int)
    requires Run(states, trace) && n < |trace| && trace[n] == Update(c, hash, now)
    requires !Consumable(states[n].rows, hash, now)
    ensures var final := states[|trace|].calls;
            && c in final
            && (final[c] == Waiting(hash, now)
                || (exists k :: n < k < |trace| && final[c] == Answered(
                      if hash in states[k].rows && states[k].rows[hash].consumedAt.Some?
                      then Replayed(Record(states[k].rows[hash])) else Invalid)))
  {
    assert Legal(states[n], trace[n]) && states[n + 1] == Execute(states[n], trace[n]);
    WaitingKept(states, trace, n + 1, |trace|, c);
    if states[|trace|].calls[c] != Waiting(hash, now) {
      var k :| n + 1 <= k < |trace| && trace[k] == Select(c) && states[k].calls[c] == Waiting(hash, now)
               && c in states[k + 1].calls && states[k + 1].calls[c] == states[|trace|].calls[c];
      assert Legal(states[k], trace[k]) && states[k + 1] == Execute(states[k], trace[k]);
    }
  }

  /** One caller gets the code; whoever presents it later, even past its expiry or
      with an earlier clock reading, is told of the replay and of the same record. */
  lemma OneRedemption(states: seq<State>, trace: seq<Statement>, i: nat, j: nat, c: nat, d: nat,
                      hash: string, now: int, now': int, record: CodeRow)
    requires Run(states, trace) && i < j < |trace|
    requires trace[i] == Update(c, hash, now) && trace[j] == Update(d, hash, now')
    requires c in states[|trace|].calls && states[|trace|].calls[c] == Answered(Redeemed(record))
    ensures d in states[|trace|].calls
    ensures states[|trace|].calls[d] == Waiting(hash, now') || states[|trace|].calls[d] == Answered(Replayed(record))
  {
    assert Legal(states[i], trace[i]) && states[i + 1] == Execute(states[i], trace[i]);
    if !Consumable(states[i].rows, hash, now) {
      SelectedOutcome(states, trace, i, c, hash, now);
      assert false;
    }
    StateKept(states, trace, i + 1, |trace|);
    StateKept(states, trace, i + 1, j);
    SelectedOutcome(states, trace, j, d, hash, now');
    if states[|trace|].calls[d] != Waiting(hash, now') {
      var k :| j < k < |trace| && states[|trace|].calls[d] == Answered(
                 if hash in states[k].rows && states[k].rows[hash].consumedAt.Some?
                 then Replayed(Record(states[k].rows[hash])) else Invalid);
      StateKept(states, trace, i + 1, k);
    }
  }

  // ------------------------------------------------------------ the adapter

  class PgAuthorizationCodes {
    var table: map<string, CodeRow>

    constructor ()
      ensures table == map[]
    {
      table := map[];
    }

    method Insert(hash: string, row: CodeRow)
      requires hash !in table && row.consumedAt.None?
      modifies this
      ensures table == old(table)[hash := row]
    {
      table := table[hash := row];
    }

    /** `update ... set consumed_at where ... returning *` */
    method UpdateReturning(hash: string, now: int) returns (returned: Option<CodeRow>)
      modifies this
      ensures returned.Some? <==> Consumable(old(table), hash, now)
      ensures returned.Some? ==> returned.value == old(table)[hash].(consumedAt := Some(now))
                                 && table == old(table)[hash := returned.value]
      ensures returned.None? ==> table == old(table)
    {
      if hash in table && table[hash].consumedAt.None? && table[hash].expiresAt > now {
        table := table[hash := table[hash].(consumedAt := Some(now))];
        returned := Some(table[hash]);
      } else {
        returned := None;
      }
    }

    method SelectConsumed(hash: string) returns (found: Option<CodeRow>)
      ensures found == if hash in table && table[hash].consumedAt.Some? then Some(table[hash]) else None
    {
      found := if hash in table && table[hash].consumedAt.Some? then Some(table[hash]) else None;
    }

    /** With no other call in between it is the in-memory redeem. */
    method Redeem(hash: string, now: int) returns (r: Redemption)
      modifies this
      ensures r == Reported(RedeemResult(old(table), hash, now))
      ensures table == RedeemRows(old(table), hash, now)
    {
      var upd := UpdateReturning(hash, now);
      if upd.Some? {
        return Redeemed(Record(upd.value));
      }
      var sel := SelectConsumed(hash);
      if sel.Some? {
        return Replayed(Record(sel.value));
      }
      return Invalid;
    }
  }
}
