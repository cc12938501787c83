/**
 * The `counter` reducer of `src/indexCounter.js`.
 */
module Counter {
  import opened Options
  import opened Actions

  /**
   * `counter`: starts from 0, goes up by one on `INCREMENT`, down by one on
   * `DECREMENT`, and stays where it is on any other action.
   */
  function CounterReducer(state: Option<int>, action: Action): (r: int)
    ensures action.kind == Some(INCREMENT) ==> r == state.GetOr(0) + 1
    ensures action.kind == Some(DECREMENT) ==> r == state.GetOr(0) - 1
    ensures action.kind != Some(INCREMENT) && action.kind != Some(DECREMENT) ==> r == state.GetOr(0)
  {
    var n := state.GetOr(0);
    if action.kind == Some(INCREMENT) then n + 1
    else if action.kind == Some(DECREMENT) then n - 1
    else n
  }

  /** `DECREMENT` undoes `INCREMENT`, and the other way round. */
  lemma IncrementDecrementInverse(n: int)
    ensures CounterReducer(Some(CounterReducer(Some(n), OfType(INCREMENT))), OfType(DECREMENT)) == n
    ensures CounterReducer(Some(CounterReducer(Some(n), OfType(DECREMENT))), OfType(INCREMENT)) == n
  {
  }

  /** The `expect` checks that follow `counter` in the source. */
  lemma CounterExamples()
    ensures CounterReducer(Some(0), OfType(INCREMENT)) == 1
    ensures CounterReducer(Some(1), OfType(INCREMENT)) == 2
    ensures CounterReducer(Some(2), OfType(DECREMENT)) == 1
    ensures CounterReducer(Some(2), OfType("bla")) == 2
  {
  }
}
