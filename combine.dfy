/**
 * `combineReducers` of `src/index.js`: one reducer over a keyed state object
 * built from a reducer per key.
 */
module Combine {
  import opened Options
  import opened Actions

  /** A reducer `(state, action) => nextState`; `None` is an `undefined` prior state. */
  type Reducer<!S> = (Option<S>, Action) -> S

  /**
   * The object handed to `combineReducers`: `keys` lists its own keys as
   * `Object.keys` does, `table` holds the reducer under each.
   */
  datatype ReducerMap<!S> = ReducerMap(keys: seq<string>, table: map<string, Reducer<S>>) {
    predicate Valid() {
      && (forall k :: k in table ==> k in keys)
      && (forall k :: k in keys ==> k in table)
    }
  }

  /** `state[key]` on the prior top-level state, which defaults to `{}` when absent. */
  function SliceOf<S>(state: Option<map<string, S>>, key: string): Option<S> {
    match state
    case None => None
    case Some(m) => if key in m then Some(m[key]) else None
  }

  /**
   * What the combined reducer computes, stated key by key: one entry per key of
   * the reducer object, holding that key's reducer applied to that key's prior
   * slice. It does not depend on the order of the keys.
   */
  function Combined<S>(reducers: ReducerMap<S>, state: Option<map<string, S>>, action: Action): (r: map<string, S>)
    requires reducers.Valid()
    ensures r.Keys == reducers.table.Keys
    ensures forall k :: k in r ==> r[k] == reducers.table[k](SliceOf(state, k), action)
    ensures reducers.keys == [] ==> r == map[]
  {
    map k | k in reducers.table :: reducers.table[k](SliceOf(state, k), action)
  }

  /**
   * The body of the reducer `combineReducers` returns: `Object.keys(reducers).reduce`
   * filling a fresh object `nextState` one key at a time.
   */
  method CombinedReduce<S>(reducers: ReducerMap<S>, state: Option<map<string, S>>, action: Action)
    returns (nextState: map<string, S>)
    requires reducers.Valid()
    ensures nextState.Keys == reducers.table.Keys
    ensures forall k :: k in nextState ==> nextState[k] == reducers.table[k](SliceOf(state, k), action)
    ensures nextState == Combined(reducers, state, action)
  {
    var keys := reducers.keys;
    nextState := map[];
    var i := 0;
    while i < |keys|
      invariant 0 <= i <= |keys|
      invariant forall k :: k in nextState <==> k in keys[..i]
      invariant forall k :: k in nextState ==> nextState[k] == reducers.table[k](SliceOf(state, k), action)
    {
      var key := keys[i];
      assert key in keys;
      nextState := nextState[key := reducers.table[key](SliceOf(state, key), action)];
      assert keys[..i + 1] == keys[..i] + [key];
      i := i + 1;
    }
    assert keys[..i] == keys;
  }

  /** `combineReducers(reducers)`: the combined reducer as a value. */
  function CombineReducers<S(!new)>(reducers: ReducerMap<S>): (r: Reducer<map<string, S>>)
    requires reducers.Valid()
    ensures forall s, a :: r(s, a).Keys == reducers.table.Keys
    ensures forall s, a, k :: k in reducers.table ==> r(s, a)[k] == reducers.table[k](SliceOf(s, k), a)
  {
    (s, a) => Combined(reducers, s, a)
  }

  /**
   * When every slice reducer returns its own prior slice for `action` (the
   * default branch of a reducer), the combined reducer returns a state equal to
   * the prior one.
   */
  lemma CombinedUnchanged<S>(reducers: ReducerMap<S>, state: map<string, S>, action: Action)
    requires reducers.Valid() && state.Keys == reducers.table.Keys
    requires forall k :: k in state ==> reducers.table[k](Some(state[k]), action) == state[k]
    ensures Combined(reducers, Some(state), action) == state
  {
  }
}
