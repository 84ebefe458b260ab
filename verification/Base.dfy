/** Result types and the clock arithmetic shared by the whole model. */
module Base {

  datatype Option<+T> = None | Some(value: T)

  /** The source's thrown errors become the `Err` case. */
  datatype Result<+T, +E> = Ok(value: T) | Err(error: E) {
    predicate IsFailure() { Err? }

    function PropagateFailure<U>(): Result<U, E>
      requires Err?
    {
      Err(error)
    }

    function Extract(): T
      requires Ok?
    {
      value
    }
  }

  /** Wall-clock milliseconds, as `Date.now()` gives them. */
  type Ms = nat

  /** `Math.floor(now.getTime() / 1000)`. */
  function FloorSec(ms: int): int { ms / 1000 }

  /** `new Date(sec * 1000).getTime()`: the Date constructor drops a fraction of
      a millisecond toward zero. */
  function DateMs(sec: real): int {
    var ms := sec * 1000.0;
    if ms >= 0.0 then ms.Floor else -((-ms).Floor)
  }

  predicate Whole(x: real) { x.Floor as real == x }

  function Min(a: int, b: int): int { if a < b then a else b }
  function Max(a: int, b: int): int { if a < b then b else a }

  lemma {:induction false} SubsetSize<T>(a: set<T>, b: set<T>)
    requires a <= b
    ensures |a| <= |b|
  {
    if a != {} {
      var x :| x in a;
      SubsetSize(a - {x}, b - {x});
    }
  }

  /** A map whose keys all occur in another map is no larger. */
  lemma SubmapSize<K, V>(m: map<K, V>, n: map<K, V>)
    requires m.Keys <= n.Keys
    ensures |m| <= |n|
  {
    SubsetSize(m.Keys, n.Keys);
    assert |m| == |m.Keys| && |n| == |n.Keys|;
  }
}
